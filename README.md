# InspectorAI core, modelled in Dafny

InspectorAI is a browser chat assistant for refinery inspection records. A
chat model (Gemini) answers questions by calling three tools over an
in-memory store of 250 generated equipment records. The user can also filter
the asset list in a sidebar, export the store as a PostgreSQL dump, and print
a PDF report of the listed assets.

This project models the logic of that application:

- the store: its generator, its queries and its SQL export;
- the tool dispatcher;
- the tool-calling loop of the chat manager;
- the link tokenizer of the message bubble;
- the sidebar filter and its report selection;
- the PDF report's grouping, titling and page layout;
- the chat window's message-list state machine.

The properties proved about them include:

- round trips: SQL literals read back, rendered segments rebuild the text, enumeration labels are distinct;
- soundness and completeness of search and filtering;
- distinct generated ids;
- the shape of generated inspection histories;
- the layout invariant of the PDF cursor, which never draws below the margin;
- "only the placeholder changes" for the chat window.

Modules, one per file:

| file | module | models |
|---|---|---|
| types.dfy | Types | `types.ts` |
| text.dfy, seqs.dfy | Text, Seqs | string and sequence helpers the others share (ASCII `toLowerCase`, `includes`, `trim`, `toString`, `padStart`, `filter`) |
| mock_data.dfy | MockData | `generateMockData` in `services/mockDatabase.ts` |
| mock_database.dfy | MockDatabase | `getAllEquipment`, `getEquipmentHistory`, `searchInspections` |
| sql_export.dfy | SqlExport | `generateSQLDump` and `escapeSql` |
| tools.dfy | Tools | `services/tools.ts` |
| gemini_service.dfy | GeminiService | `ChatManager.sendMessage` |
| message_bubble.dfy | MessageBubble | `formatContent` |
| sidebar.dfy | Sidebar | `filteredEquipment`, `handleGeneratePdf` |
| pdf_generator.dfy | PdfGenerator | `generatePDFReport` |
| app.dfy | App | `App.tsx` state and handlers |

The store is a parameter `db` everywhere; in the source it is the module-level
`INSPECTION_DB`. The source's `type` field is called `kind`, because `type` is
a Dafny keyword.

## Model

| member | source | states |
|---|---|---|
| Types.ParseRole | types.ts:1-5 | the left inverse of the role's wire value (the application only writes roles): a role is read back only from its own value, and any string other than `user`, `model`, `system` is rejected |
| Types.RoleValueRoundTrip | types.ts:1-5 | each of the three roles reads back from its wire value, so the wire values are distinct |
| Types.ParseSeverity | types.ts:21 | the left inverse of the severity label (severities are only written): a severity is read back only from its own label; every string outside the four labels is rejected |
| Types.SeverityLabelRoundTrip | types.ts:21 | each of Low, Medium, High, Critical reads back from its label, so the labels are distinct |
| Types.ParseStatus | types.ts:23 | the left inverse of the status label (statuses are only written): a status is read back only from its own label; every string outside Open, Closed, In Progress is rejected |
| Types.StatusLabelRoundTrip | types.ts:23 | each of the three statuses reads back from its label, so the labels are distinct |
| Text.ToLower | services/mockDatabase.ts:208 | lowering keeps the length and lowers each character on its own; no upper-case letter remains |
| Text.ToLowerIdempotent | services/mockDatabase.ts:208 | lowering a lowered string changes nothing |
| Text.ContainsIff | services/mockDatabase.ts:213-216 | `includes` holds exactly when the substring occurs at some position |
| Text.NatToDecimal | services/mockDatabase.ts:139 | `toString` of a record number is a non-empty string of decimal digits; `DecimalRoundTrip` reads it back |
| Text.DecimalRoundTrip | services/tools.ts:56 | the decimal text of a count reads back as that count |
| Text.PadStart | services/mockDatabase.ts:139 | `padStart` never truncates: the result has the target width or the original length, whichever is larger, and ends with the original string |
| Text.Pad3 | services/mockDatabase.ts:139 | `toString().padStart(3, '0')` gives only decimal digits; `Pad3RoundTrip`, `Pad3Length` and `Pad3Injective` state the rest |
| Text.Pad3RoundTrip | services/mockDatabase.ts:139 | the zero-padded number reads back as the number |
| Text.Pad3Length | services/mockDatabase.ts:139 | below 1000 the padded number has exactly three digits |
| Text.Pad3Injective | services/mockDatabase.ts:139 | different numbers give different padded texts |
| Seqs.FilterMembership | components/Sidebar.tsx:21-26 | `filter` keeps exactly the elements satisfying the predicate |
| Seqs.FilterIsSubsequence | components/Sidebar.tsx:21-26 | `filter` keeps the original order and never lengthens the list |
| Seqs.FilterMapMembership | services/mockDatabase.ts:210-227 | a pushed result is the image of a matching element, and every matching element pushes one |
| MockData.ScenariosSettled | services/mockDatabase.ts:32-123 | the table has three scenarios; Accepted and Repaired only close inspections and never rate them Critical; only Pending for Repair has Open, In Progress and Critical |
| MockData.GenerateInspections | services/mockDatabase.ts:147-178 | the inner loop pushes the inspections the draws determine, newest first |
| MockData.GenerateRecord | services/mockDatabase.ts:134-186 | one record's id, name, type, location and history are the ones its draws determine |
| MockData.GenerateCategory | services/mockDatabase.ts:131-187 | the loop over numbers `1..count` pushes one record per number, in order |
| MockData.GenerateMockData | services/mockDatabase.ts:127-191 | the generator returns the categories' records, category after category |
| MockData.GeneratedAt | services/mockDatabase.ts:130-131 | category `c` occupies positions `50c .. 50c+49`, and position `p` holds record number `p % 50 + 1` of category `p / 50` |
| MockData.EquipmentIdParts | services/mockDatabase.ts:139-140 | an id `EQ-<code>-<nnn>` determines its code and its number |
| MockData.EquipmentIdsDiffer | services/mockDatabase.ts:139-140 | records with a different code or number get different ids |
| MockData.CodesDistinct | services/mockDatabase.ts:22-28 | the five category codes differ |
| MockData.GeneratedIdsDistinct | services/mockDatabase.ts:22-191 | the store has 250 records; ids are `EQ-<code>-<nnn>`, names `<prefix>-<nnn>`, the type is the category's, and no two ids are equal |
| MockData.RecordHistory | services/mockDatabase.ts:134-156 | a record has 3 to 15 inspections; the latest draws status, severity, finding and recommendation from scenario `(i-1) % 3`; every older one is Closed, drawn from Accepted or Repaired, and never Critical |
| MockData.OpenOnlyWhenPending | services/mockDatabase.ts:134-156 | only the latest inspection of a record whose number is a multiple of 3 (Pending for Repair) can be open, in progress or Critical |
| MockDatabase.GetAllEquipment | services/mockDatabase.ts:198-200 | one summary per record, in store order, with id, name, type and location copied |
| MockDatabase.GetEquipmentHistory | services/mockDatabase.ts:202-204 | the first record whose id equals the argument exactly, and `None` exactly when no record has it |
| MockDatabase.SearchEquipment | services/mockDatabase.ts:211-226 | the inner loop pushes the hits of one record, in inspection order |
| MockDatabase.SearchInspections | services/mockDatabase.ts:206-229 | the nested loops push the hits over the whole store, in equipment order and then inspection order |
| MockDatabase.HitsInMembership | services/mockDatabase.ts:211-226 | a hit of a record comes from one of its matching inspections, and each such inspection gives one |
| MockDatabase.SearchMembership | services/mockDatabase.ts:206-229 | a result is produced exactly for the pairs whose findings, recommendations, severity or equipment name contain the lowered query, and it copies that pair's fields |
| MockDatabase.HitsInIgnoresOtherFields | services/mockDatabase.ts:212-217 | a record's hits do not depend on its location, id, type or the inspections' failure type |
| MockDatabase.SearchIgnoresOtherFields | services/mockDatabase.ts:212-217 | search results do not depend on location, id, type or failure type anywhere in the store |
| SqlExport.EscapeSql | services/mockDatabase.ts:234 | escaping never shortens a value |
| SqlExport.CollapseEscape | services/mockDatabase.ts:234 | collapsing every doubled quote gives back the original value |
| SqlExport.EscapeWithoutQuotes | services/mockDatabase.ts:234 | a value without quotes is written unchanged |
| SqlExport.ReadSqlLiteral | services/mockDatabase.ts:278 | the literal written for a value reads back as that value under SQL's doubled-quote rule, whatever it contains |
| SqlExport.AppendEquipmentInserts | services/mockDatabase.ts:277-279 | the loop appends one equipment INSERT per record, in store order |
| SqlExport.AppendPairInserts | services/mockDatabase.ts:284-286 | the inner loop appends one inspection INSERT per inspection of a record |
| SqlExport.AppendInspectionInserts | services/mockDatabase.ts:283-287 | the nested loops append one inspection INSERT per inspection, grouped by equipment |
| SqlExport.GenerateSqlDump | services/mockDatabase.ts:233-292 | the dump is the preamble, the equipment INSERTs, the section header, the inspection INSERTs and `COMMIT;` |
| SqlExport.ReadValuesRoundTrip | services/mockDatabase.ts:277-285 | a written value list reads back as the values' texts, in order |
| SqlExport.ReadInsertRoundTrip | services/mockDatabase.ts:277-285 | one written INSERT reads back as its values |
| SqlExport.ReadInsertsRoundTrip | services/mockDatabase.ts:277-287 | a run of INSERTs reads back row by row, stopping exactly where the run ends |
| SqlExport.EquipmentSectionRoundTrip | services/mockDatabase.ts:277-279 | the equipment section reads back as one row per record, in store order |
| SqlExport.InspectionSectionRoundTrip | services/mockDatabase.ts:283-287 | the inspection section reads back as one row per inspection, grouped by equipment, when no date holds a quote |
| SqlExport.DumpListsEveryRecord | services/mockDatabase.ts:236-281 | after the preamble, the dump reads back as the `getAllEquipment` rows, followed by the inspection part |
| SqlExport.DumpListsEveryInspection | services/mockDatabase.ts:281-289 | after the section header, the dump reads back as every inspection row, followed by `COMMIT;` |
| Tools.DeclarationsShape | services/tools.ts:5-42 | three tools with distinct names; `equipmentId` and `query` are the only required parameters, and each is also declared |
| Tools.ExecuteTool | services/tools.ts:45-82 | the dispatcher throws exactly for an unknown name or a falsy required argument |
| Tools.NoteCarriesTotal | services/tools.ts:53-76 | the number written into a note reads back as the true total |
| Tools.ListToolResult | services/tools.ts:49-59 | above 40 records: the first 40 summaries and a note carrying the total; otherwise the whole list without a note |
| Tools.HistoryToolResult | services/tools.ts:61-65 | a falsy id throws `Missing equipmentId`; an unknown id returns the not-found payload; a known id returns the first record with that id |
| Tools.SearchToolResult | services/tools.ts:67-77 | a falsy query throws `Missing query`; more than 20 hits are cut to 20 with a note carrying the count; 1 to 20 are returned whole; none gives the no-matches message |
| Tools.SearchToolSound | services/tools.ts:67-77 | every returned result is the hit of a matching pair in the store |
| Tools.UnknownToolThrows | services/tools.ts:79-80 | any other name throws `Unknown tool: <name>` |
| GeminiService.Chat.SendMessage | services/geminiService.ts:46-100 | the chat oracle logs each message and hands out the next scripted reply; with no reply left, the send fails |
| GeminiService.FunctionCalls | services/geminiService.ts:61 | filtering the parts never yields more calls than parts |
| GeminiService.FunctionCallsMembership | services/geminiService.ts:61 | a call is in the batch exactly when a part of the turn carries it |
| GeminiService.NoCallParts | services/geminiService.ts:61-63 | a turn has no calls exactly when none of its parts is a call |
| GeminiService.ResponseFor | services/geminiService.ts:73-94 | a function response keeps the call's name and id, and holds an error exactly when the tool throws |
| GeminiService.Responses | services/geminiService.ts:65-95 | the batch has one response per call, and response `i` keeps the name and id of call `i` |
| GeminiService.BuildFunctionResponses | services/geminiService.ts:65-95 | one response per call, in call order; a throwing tool gives an error response and the loop goes on |
| GeminiService.FinalText | services/geminiService.ts:107 | the reply is never empty, and it is the response's text when that is non-empty |
| GeminiService.Loop | services/geminiService.ts:53-107 | the `while (true)` loop reads at most the replies there are, every reply it reads answers a message it sent, at most one sent message goes unanswered, and the reply is never empty |
| GeminiService.Conversation | services/geminiService.ts:43-113 | the whole of `sendMessage`: at least the user's message is sent, replies read and messages sent match up as in the loop, and the returned string is never empty |
| GeminiService.BatchNotEmpty | services/geminiService.ts:63-100 | a batch is sent only for a turn with at least one call, so it is never empty |
| GeminiService.LoopExit | services/geminiService.ts:53-107 | the loop sends nothing exactly when the response has no candidates, no call in the first candidate, or no parts; it then replies with the text or the fallback, or with the error text |
| GeminiService.LoopSendsBatches | services/geminiService.ts:53-105 | each message sent answers the calls of the previous response, one per reply read |
| GeminiService.LoopReply | services/geminiService.ts:53-112 | the reply is the error text or the text (or fallback) of a final response that was received |
| GeminiService.ConversationShape | services/geminiService.ts:43-113 | `sendMessage` always returns a non-empty string and first sends the user's text; a first send that fails gives the error text |
| GeminiService.ChatManager.SendMessage | services/geminiService.ts:43-113 | the loop's reply, messages sent and replies consumed are those of the conversation function |
| MessageBubble.FindFrom | components/MessageBubble.tsx:13 | the first occurrence of a character at or after a position, or the end |
| MessageBubble.MatchAt | components/MessageBubble.tsx:13 | a match found at a position spells `[t](u)` there, with `t` free of `]` and `u` free of `)` |
| MessageBubble.MatchAtComplete | components/MessageBubble.tsx:13 | wherever the text spells such a link, the pattern matches there with those groups |
| MessageBubble.NextMatch | components/MessageBubble.tsx:21 | the next match is the leftmost position at or after the cursor where the pattern matches |
| MessageBubble.FormatContent | components/MessageBubble.tsx:11-48 | the loop with its cursor emits the segments of the scan, or one plain block when nothing matches |
| MessageBubble.RenderMatch | components/MessageBubble.tsx:27-38 | a link segment renders back to exactly the matched text |
| MessageBubble.TokensRender | components/MessageBubble.tsx:21-45 | rendering the segments from the cursor on gives back the rest of the text |
| MessageBubble.FormattedRender | components/MessageBubble.tsx:11-48 | concatenating the segments, with links as `[t](u)`, gives back the original text |
| MessageBubble.TokensWellFormed | components/MessageBubble.tsx:21-45 | plain segments are never empty; links have non-empty text without `]` and a non-empty target without `)` |
| MessageBubble.TokensPlainHoldNoLink | components/MessageBubble.tsx:21-45 | matches are taken leftmost first, so no plain segment holds a link |
| MessageBubble.FormattedShape | components/MessageBubble.tsx:14-16 | the text is shown as one plain block exactly when it holds no link |
| Sidebar.FilterEquipment | components/Sidebar.tsx:17-27 | the listed records keep the store's order, and with a non-blank term each of them has a field containing the lowered term; `FilterEquipmentSpec` adds completeness |
| Sidebar.FilterEquipmentSpec | components/Sidebar.tsx:17-27 | a blank term lists everything; otherwise exactly the records whose name, type, location or id contain the lowered term, in order |
| Sidebar.FilterIgnoresCase | components/Sidebar.tsx:19-25 | a term and its lowered form select the same records |
| Sidebar.SidebarState.AssetCount | components/Sidebar.tsx:90 | the count never exceeds the number of records, equals it for a blank term, and is 0 exactly when nothing is listed |
| Sidebar.SidebarState.HandleGeneratePdf | components/Sidebar.tsx:42-58 | an active search exports exactly the listed records; a blank term exports the one record at the drawn index |
| PdfGenerator.BelowTransitive | services/pdfGenerator.ts:9 | the string order used by `sort` is transitive |
| PdfGenerator.BelowTotal | services/pdfGenerator.ts:9 | any two different strings are ordered one way |
| PdfGenerator.Insert | services/pdfGenerator.ts:9 | inserting into a sorted, duplicate-free list keeps it sorted and adds exactly the new element |
| PdfGenerator.PresentTypes | services/pdfGenerator.ts:9 | the types are sorted without duplicates, and they are exactly the types some item has |
| PdfGenerator.StrictlySortedUnique | services/pdfGenerator.ts:9 | there is only one sorted duplicate-free list of a given set, so the result does not depend on the input order |
| PdfGenerator.GroupsPartition | services/pdfGenerator.ts:9-14 | the type groups together hold every item exactly once; each group is non-empty and holds only its type |
| PdfGenerator.ReportTitle | services/pdfGenerator.ts:58-63 | a one-item title ends with that item's name; any other count gives a batch or plain title, and the plain `Inspection Report` exactly when there are no items |
| PdfGenerator.ReportFileName | services/pdfGenerator.ts:137-139 | the file name always ends in `.pdf`, and for one item the part before it after `Report_` is the item's id |
| PdfGenerator.TitleAndFileNameIdentify | services/pdfGenerator.ts:59-139 | one item gets a title and a file name that identify it (by name, by id); batches get the batch forms |
| PdfGenerator.ReportsLatestOnly | services/pdfGenerator.ts:96-128 | an item's block depends only on its record's name, id, location and latest inspection, and has ten entries |
| PdfGenerator.SkippedItems | services/pdfGenerator.ts:97-98 | an item is skipped exactly when its id is missing from the store or its first record has no inspection |
| PdfGenerator.SingleItemReport | services/pdfGenerator.ts:81-135 | a one-item report has no category header: it is exactly that item's block, numbered 1 |
| PdfGenerator.StackedOrdered | services/pdfGenerator.ts:24-50 | every drawn mark fits above the bottom margin, and marks follow one another down the pages |
| PdfGenerator.LaidOrdered | services/pdfGenerator.ts:24-50 | the cursor is never above anything drawn on its page, and never on an earlier page |
| PdfGenerator.Document.AddText | services/pdfGenerator.ts:24-40 | the text goes on a new page exactly when its wrapped lines would cross the bottom margin; the cursor moves down by six per line; the count returned is the number of lines |
| PdfGenerator.Document.AddLine | services/pdfGenerator.ts:42-50 | the rule goes on a new page when five more would cross the margin; the cursor moves down 10 |
| PdfGenerator.Document.BreakBelow | services/pdfGenerator.ts:87 | a new page starts exactly when the cursor is past the limit |
| PdfGenerator.ReportItem | services/pdfGenerator.ts:96-128 | drawing an item appends exactly its block's entries and keeps the layout invariant |
| PdfGenerator.DrawDetails | services/pdfGenerator.ts:101-116 | the header, location and latest inspection's details are drawn in this order |
| PdfGenerator.DrawNotes | services/pdfGenerator.ts:118-127 | the findings, the recommendations and the rule are drawn in this order |
| PdfGenerator.ReportGroup | services/pdfGenerator.ts:96-128 | the loop over a group appends each item's block, numbered from 1 |
| PdfGenerator.ReportSection | services/pdfGenerator.ts:81-135 | a section appends its header (only when there is more than one item) and its items; in a batch it ends on a fresh page |
| PdfGenerator.GenerateReport | services/pdfGenerator.ts:5-141 | the document holds the report's entries type by type in sorted order, after the title page; the title and file name follow the item count |
| App.QuickSelectTextShape | App.tsx:84-87 | the quick-select text is never blank, names the record it was built from, and no other name builds it |
| App.UserAndLoadingIdsDiffer | App.tsx:38-46 | a user message id is never a placeholder id, whatever the clock readings |
| App.Answer | App.tsx:61-65 | every message with the placeholder's id gets the reply and stops thinking; every other message, and every id and role, is unchanged |
| App.AnswerFresh | App.tsx:43-65 | with a fresh placeholder id, answering changes only the placeholder, which becomes the reply |
| App.ChatWindow.constructor | App.tsx:9-19 | the list starts with the single welcome message from the model; the input is empty and nothing is loading |
| App.ChatWindow.QuickSelect | App.tsx:84-87 | the input asks for the record's history; the sidebar closes only on a narrow window |
| App.ChatWindow.Submit | App.tsx:31-55 | a blank input or a pending request changes nothing; otherwise the input is cleared, the untrimmed user message and the thinking placeholder are appended, and loading starts |
| App.ChatWindow.Complete | App.tsx:57-74 | the placeholder takes the reply and loading ends |
| App.ChatWindow.HandleSendMessage | App.tsx:30-75 | an accepted send leaves the input empty, loading off, and the two new messages with the placeholder answered by the chat manager's reply |
| App.ChatWindow.HandleKeyDown | App.tsx:77-82 | any other key changes nothing; Enter without Shift has exactly the effect of `HandleSendMessage`: nothing on a blank input or a pending request, otherwise the cleared input, the answered placeholder and the conversation's messages and replies |

## Left out

- The Gemini SDK, the model name, the system instruction and API-key handling. The remote chat is a `Chat` object that answers from a finite script of replies. A send after the script is used up fails, which makes the `while (true)` loop of `sendMessage` terminate.
- GeminiService.ChatManager.SendMessage: the unbounded conversation of the source is bounded by the length of the reply script.
- `async`/`await`: everything runs in order. `handleSendMessage` is split at its `await` into `Submit`, the chat call and `Complete`.
- `Math.random()`: every draw is a parameter. `MockData` takes `InspectionDraw`/`RecordDraw` values, required to lie in the ranges `Math.floor(Math.random() * n)` produces. `Sidebar` takes the drawn index.
- `Date`, `toISOString`, `toLocaleDateString`, `Date.now()`: inspection dates, the date stamp of an inspection id, the dump's timestamp and message ids are parameters. Message timestamps are not modelled.
- App.ChatWindow.HandleSendMessage: the uniqueness of `Date.now()` ids is not modelled. `AnswerFresh` states the result when the placeholder id is fresh.
- The `catch` branch of `handleSendMessage` (the fixed "Sorry, I encountered an error connecting to the database." text) is not modelled. It is unreachable because `sendMessage` never throws (`ConversationShape`).
- jsPDF:
  - fonts, bold, colours, the filled header rectangle, the centred title page (title, "Generated", "Source", "Total Records") and `save`;
  - `splitTextToSize` is the parameter `wrap(text, size)`, which gives a line count;
  - the page height is a parameter;
  - the model records what is drawn, and where, as marks.
- PdfGenerator.ReportItem: the record lookup is a parameter `lookup`. `GenerateReport` passes `getEquipmentHistory` over the store (`Lookup(db)`).
- The `selected.length === 0` return in the type loop (pdfGenerator.ts:83) is kept, but it is dead code: every listed type has at least one item (`GroupsPartition`).
- Sidebar.SidebarState.HandleGeneratePdf: with an empty store the source passes `[undefined]` to the report, which then fails reading `type` of `undefined`. The model returns `None` there.
- React rendering, JSX, scrolling, the sidebar's open/close button, `window.location.reload`, the Blob/anchor download of the SQL file, and `console.log`.
- `toLowerCase` and `trim` are modelled for ASCII only. `sort` compares characters, where JavaScript compares UTF-16 code units; these agree on the ASCII type names the store holds.
- Numbers are unbounded integers. No count in the source comes near 2^53.
- Inspection ids are `INS-<id>-<stamp>` with the date stamp a parameter, so the model does not prove them distinct. In the source they are distinct: the equipment id separates records, and one record's inspections are four months apart less under 30 days, too far apart for two of them to share a day or an ambiguous unpadded `<year><month><day>` stamp.
- Tools.ExecuteTool: arguments are modelled as a map from names to strings, as the declarations type every parameter `STRING`. Other argument values are not modelled. In the source, missing `args` makes the history and search tools throw a `TypeError` instead of `Missing …`. A non-string truthy `query` such as `5` passes the guard and then throws in `toLowerCase`. A non-string `equipmentId` returns the not-found payload.
- `specs` and `failureType` are optional fields of the types. The generator never sets them, and nothing reads them except through the search-independence lemmas.

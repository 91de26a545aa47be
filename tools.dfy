/**
  The three tools the chat model may call, and `executeTool`, which maps a
  tool name and its arguments to a payload over the inspection store or to
  an error. Arguments are string-valued; a parameter is falsy when it is
  absent or the empty string. Payload sizes are capped at 40 list items and
  20 search results.
 */
module Tools {
  import opened Types
  import opened Text
  import MockDatabase

  /** A declared tool: its name, the parameters it describes and the ones it requires. */
  datatype ToolDeclaration = ToolDeclaration(name: string, description: string, properties: seq<string>, required: seq<string>)

  const ListTool: string := "get_equipment_list"
  const HistoryTool: string := "get_inspection_history"
  const SearchTool: string := "search_similar_findings"

  const ToolDeclarations: seq<ToolDeclaration> := [
    ToolDeclaration(ListTool,
      "Retrieves a list of all available equipment in the inspection database. Returns ID, Name, and Type.",
      [], []),
    ToolDeclaration(HistoryTool,
      "Retrieves the full inspection history for a specific piece of equipment using its ID. Returns findings, recommendations, and report links.",
      ["equipmentId"], ["equipmentId"]),
    ToolDeclaration(SearchTool,
      "Searches the entire database for inspections with findings or recommendations matching a keyword query. Useful for finding similar defects or issues across different equipment.",
      ["query"], ["query"])
  ]

  /**
    Exactly three tools with distinct names; `equipmentId` and `query` are the
    only required parameters, one for each of the last two tools, and each is
    also a declared property.
   */
  lemma DeclarationsShape()
    ensures |ToolDeclarations| == 3
    ensures forall a, b :: 0 <= a < b < |ToolDeclarations| ==> ToolDeclarations[a].name != ToolDeclarations[b].name
    ensures ToolDeclarations[0].required == []
    ensures ToolDeclarations[1].required == ["equipmentId"]
    ensures ToolDeclarations[2].required == ["query"]
    ensures forall t :: 0 <= t < |ToolDeclarations| ==>
      forall p :: p in ToolDeclarations[t].required ==> p in ToolDeclarations[t].properties
  {
    assert ListTool[4] == 'e' && HistoryTool[4] == 'i' && SearchTool[0] == 's';
  }

  /** The call arguments (`args`), string-valued. */
  type Args = map<string, string>

  /** `!args[key]` is false: the parameter is present and not the empty string. */
  predicate Truthy(args: Args, key: string)
  {
    key in args && args[key] != ""
  }

  /** What a tool call returns: the shapes of the objects in the source. */
  datatype Payload =
    | EquipmentList(items: seq<EquipmentSummary>)
    | TruncatedList(items: seq<EquipmentSummary>, note: string)
    | History(record: Equipment)
    | NotFound(error: string)
    | Results(results: seq<SearchResult>)
    | TruncatedResults(results: seq<SearchResult>, note: string)
    | NoMatches(message: string)

  /** A tool call either returns a payload or throws an `Error` with a message. */
  datatype ToolOutcome = Returned(payload: Payload) | Threw(message: string)

  const ListCap: nat := 40
  const SearchCap: nat := 20
  const ListNotePrefix: string := "Showing 40 of "
  const ListNoteSuffix: string := " items. Ask for specific equipment if not listed."
  const SearchNotePrefix: string := "Showing top 20 of "
  const SearchNoteSuffix: string := " matches."
  const NotFoundError: string := "Equipment not found"
  const NoMatchesMessage: string := "No matching findings found."
  const MissingEquipmentId: string := "Missing equipmentId"
  const MissingQuery: string := "Missing query"
  const UnknownToolPrefix: string := "Unknown tool: "

  function ListNote(total: nat): string
  {
    ListNotePrefix + NatToDecimal(total) + ListNoteSuffix
  }

  function SearchNote(total: nat): string
  {
    SearchNotePrefix + NatToDecimal(total) + SearchNoteSuffix
  }

  /** The three names `executeTool` dispatches on. */
  predicate KnownTool(name: string)
  {
    name == ListTool || name == HistoryTool || name == SearchTool
  }

  /**
    `executeTool(name, args)` over the store `db`. It throws exactly for an
    unknown name or a falsy required parameter.
   */
  function ExecuteTool(db: seq<Equipment>, name: string, args: Args): (r: ToolOutcome)
    ensures r.Threw? <==>
      !KnownTool(name) ||
      (name == HistoryTool && !Truthy(args, "equipmentId")) ||
      (name == SearchTool && !Truthy(args, "query"))
  {
    if name == ListTool then
      var all := MockDatabase.GetAllEquipment(db);
      if |all| > ListCap then Returned(TruncatedList(all[..ListCap], ListNote(|all|)))
      else Returned(EquipmentList(all))
    else if name == HistoryTool then
      if !Truthy(args, "equipmentId") then Threw(MissingEquipmentId)
      else
        var history := MockDatabase.GetEquipmentHistory(db, args["equipmentId"]);
        if history.None? then Returned(NotFound(NotFoundError)) else Returned(History(history.value))
    else if name == SearchTool then
      if !Truthy(args, "query") then Threw(MissingQuery)
      else
        var results := MockDatabase.HitsAll(db, ToLower(args["query"]));
        if |results| > SearchCap then Returned(TruncatedResults(results[..SearchCap], SearchNote(|results|)))
        else if |results| > 0 then Returned(Results(results))
        else Returned(NoMatches(NoMatchesMessage))
    else Threw(UnknownToolPrefix + name)
  }

  /** The number written into a note reads back as the true total. */
  lemma NoteCarriesTotal(prefix: string, total: nat, suffix: string)
    ensures var note := prefix + NatToDecimal(total) + suffix;
      note[|prefix|..|note| - |suffix|] == NatToDecimal(total) &&
      ParseDecimal(note[|prefix|..|note| - |suffix|]) == total
  {
    var note := prefix + NatToDecimal(total) + suffix;
    assert note[|prefix|..|note| - |suffix|] == NatToDecimal(total);
    DecimalRoundTrip(total);
  }

  /**
    The list tool ignores its arguments. Above 40 records it returns the
    first 40 summaries and a note carrying the true total; otherwise the
    whole list, unchanged and without a note.
   */
  lemma ListToolResult(db: seq<Equipment>, args: Args)
    ensures var r := ExecuteTool(db, ListTool, args);
      var all := MockDatabase.GetAllEquipment(db);
      (|db| > 40 ==> (r == Returned(TruncatedList(all[..40], ListNote(|db|))) &&
        |r.payload.items| == 40 &&
        ParseDecimal(r.payload.note[|ListNotePrefix|..|r.payload.note| - |ListNoteSuffix|]) == |db|)) &&
      (|db| <= 40 ==> r == Returned(EquipmentList(all)) && |r.payload.items| == |db|)
  {
    NoteCarriesTotal(ListNotePrefix, |db|, ListNoteSuffix);
  }

  /**
    The history tool: a falsy id throws `Missing equipmentId`; an unknown id
    returns the not-found payload rather than throwing; a known id returns
    the whole first record with that id.
   */
  lemma HistoryToolResult(db: seq<Equipment>, args: Args)
    ensures var r := ExecuteTool(db, HistoryTool, args);
      (!Truthy(args, "equipmentId") ==> r == Threw("Missing equipmentId")) &&
      (Truthy(args, "equipmentId") ==>
        var id := args["equipmentId"];
        ((forall k :: 0 <= k < |db| ==> db[k].id != id) <==> r == Returned(NotFound("Equipment not found"))) &&
        (r.Returned? && r.payload.History? ==>
          r.payload.record.id == id &&
          exists k :: 0 <= k < |db| && db[k] == r.payload.record &&
            forall j :: 0 <= j < k ==> db[j].id != id))
  {
  }

  /**
    The search tool: a falsy query throws `Missing query`. Otherwise the
    matches of `searchInspections` are returned whole when there are 1 to 20,
    cut to the first 20 with a note carrying the true count when there are
    more, and replaced by the no-matches message — never an empty list —
    when there are none.
   */
  lemma SearchToolResult(db: seq<Equipment>, args: Args)
    ensures var r := ExecuteTool(db, SearchTool, args);
      (!Truthy(args, "query") ==> r == Threw("Missing query")) &&
      (Truthy(args, "query") ==>
        var hits := MockDatabase.HitsAll(db, ToLower(args["query"]));
        (|hits| > 20 ==> (r == Returned(TruncatedResults(hits[..20], SearchNote(|hits|))) &&
          ParseDecimal(r.payload.note[|SearchNotePrefix|..|r.payload.note| - |SearchNoteSuffix|]) == |hits|)) &&
        (0 < |hits| <= 20 ==> r == Returned(Results(hits))) &&
        (|hits| == 0 <==> r == Returned(NoMatches("No matching findings found."))))
  {
    if Truthy(args, "query") {
      var hits := MockDatabase.HitsAll(db, ToLower(args["query"]));
      NoteCarriesTotal(SearchNotePrefix, |hits|, SearchNoteSuffix);
    }
  }

  /**
    Every result the search tool returns, capped or not, is the hit of a
    matching (equipment, inspection) pair of the store.
   */
  lemma SearchToolSound(db: seq<Equipment>, args: Args, res: SearchResult)
    requires Truthy(args, "query")
    requires var r := ExecuteTool(db, SearchTool, args);
      r.Returned? && (r.payload.Results? || r.payload.TruncatedResults?) && res in r.payload.results
    ensures exists k, j :: (0 <= k < |db| && 0 <= j < |db[k].inspections| &&
      MockDatabase.HitOf(db[k], db[k].inspections[j], ToLower(args["query"]), res))
  {
    var hits := MockDatabase.HitsAll(db, ToLower(args["query"]));
    if |hits| > 20 {
      assert res in hits[..20];
      assert res in hits;
    }
    MockDatabase.SearchMembership(db, args["query"], res);
  }

  /** Any other name throws `Unknown tool: <name>`. */
  lemma UnknownToolThrows(db: seq<Equipment>, name: string, args: Args)
    requires !KnownTool(name)
    ensures ExecuteTool(db, name, args) == Threw("Unknown tool: " + name)
  {
  }
}

/**
  `generatePDFReport`: the records to report are grouped by their sorted,
  distinct types; each group is laid out item by item on a vertical cursor
  that starts a new page whenever the next block would cross the bottom
  margin. The drawing library is reduced to a log of what is drawn where;
  how many lines a text wraps to is the document's `wrap` function.
 */
module PdfGenerator {
  import opened Types
  import opened Text
  import opened Seqs
  import MockDatabase

  /* ---------- sorting the types ---------- */

  /** `a` sorts strictly before `b` under the default string order (character codes, lexicographic). */
  predicate Below(a: string, b: string)
    decreases |a|
  {
    |b| > 0 && (|a| == 0 || a[0] < b[0] || (a[0] == b[0] && Below(a[1..], b[1..])))
  }

  lemma {:induction false} BelowIrreflexive(a: string)
    ensures !Below(a, a)
    decreases |a|
  {
    if |a| > 0 {
      BelowIrreflexive(a[1..]);
    }
  }

  lemma {:induction false} BelowTransitive(a: string, b: string, c: string)
    requires Below(a, b) && Below(b, c)
    ensures Below(a, c)
    decreases |a|
  {
    if |a| > 0 && a[0] == b[0] && b[0] == c[0] {
      BelowTransitive(a[1..], b[1..], c[1..]);
    }
  }

  lemma {:induction false} BelowTotal(a: string, b: string)
    ensures a == b || Below(a, b) || Below(b, a)
    decreases |a|
  {
    if |a| > 0 && |b| > 0 && a[0] == b[0] {
      BelowTotal(a[1..], b[1..]);
      if a[1..] == b[1..] {
        assert a == [a[0]] + a[1..] && b == [b[0]] + b[1..];
      }
    }
  }

  lemma BelowAsymmetric(a: string, b: string)
    requires Below(a, b)
    ensures !Below(b, a)
  {
    if Below(b, a) {
      BelowTransitive(a, b, a);
      BelowIrreflexive(a);
    }
  }

  /** Sorted ascending without duplicates. */
  ghost predicate StrictlySorted(s: seq<string>)
  {
    forall i, j :: 0 <= i < j < |s| ==> Below(s[i], s[j])
  }

  /** Adds `x` to a sorted, duplicate-free list, keeping it so. */
  function Insert(x: string, s: seq<string>): (r: seq<string>)
    requires StrictlySorted(s)
    ensures StrictlySorted(r)
    ensures forall y :: y in r <==> y == x || y in s
    decreases |s|
  {
    if s == [] then [x]
    else if x == s[0] then s
    else if Below(x, s[0]) then
      assert forall j :: 0 < j < |s| ==> Below(s[0], s[j]);
      assert forall j :: 0 < j < |s| ==> Below(x, s[j]) by {
        forall j | 0 < j < |s|
          ensures Below(x, s[j])
        {
          BelowTransitive(x, s[0], s[j]);
        }
      }
      [x] + s
    else
      BelowTotal(x, s[0]);
      var rest := Insert(x, s[1..]);
      assert forall y :: y in rest ==> Below(s[0], y) by {
        forall y | y in rest
          ensures Below(s[0], y)
        {
          if y != x {
            var j :| 0 <= j < |s[1..]| && s[1..][j] == y;
            assert s[j + 1] == y;
          }
        }
      }
      assert forall j :: 0 < j < |[s[0]] + rest| ==> ([s[0]] + rest)[j] in rest by {
        forall j | 0 < j < |[s[0]] + rest|
          ensures ([s[0]] + rest)[j] in rest
        {
          assert ([s[0]] + rest)[j] == rest[j - 1];
        }
      }
      assert forall y :: y in s <==> y == s[0] || y in s[1..] by {
        assert s == [s[0]] + s[1..];
      }
      [s[0]] + rest
  }

  /** `t` is the type of some item. */
  ghost predicate HasKind(items: seq<EquipmentSummary>, t: string)
  {
    exists i :: 0 <= i < |items| && items[i].kind == t
  }

  /**
    `presentTypes`: `Array.from(new Set(types)).sort()`, built as insertion of
    each type into a sorted list without duplicates. It is sorted, has no
    duplicates and holds exactly the types that occur.
   */
  function PresentTypes(items: seq<EquipmentSummary>): (r: seq<string>)
    ensures StrictlySorted(r)
    ensures forall t :: t in r <==> HasKind(items, t)
    decreases |items|
  {
    if items == [] then []
    else
      var n := |items| - 1;
      var r := Insert(items[n].kind, PresentTypes(items[..n]));
      assert forall t :: HasKind(items, t) <==> HasKind(items[..n], t) || t == items[n].kind by {
        forall t
          ensures HasKind(items, t) <==> HasKind(items[..n], t) || t == items[n].kind
        {
          if HasKind(items, t) && t != items[n].kind {
            var i :| 0 <= i < |items| && items[i].kind == t;
            assert items[..n][i] == items[i];
          }
          if HasKind(items[..n], t) {
            var i :| 0 <= i < n && items[..n][i].kind == t;
            assert items[i] == items[..n][i];
          }
        }
      }
      r
  }

  /**
    A sorted list without duplicates is determined by its elements, so any
    order the set is iterated in gives the same `presentTypes`.
   */
  lemma {:induction false} StrictlySortedUnique(s: seq<string>, t: seq<string>)
    requires StrictlySorted(s) && StrictlySorted(t)
    requires forall y :: y in s <==> y in t
    ensures s == t
    decreases |s|
  {
    assert s == [] <==> t == [] by {
      if s != [] {
        assert s[0] in t;
      }
      if t != [] {
        assert t[0] in s;
      }
    }
    if s != [] && t != [] {
      if s[0] != t[0] {
        assert s[0] in t && t[0] in s;
        var k :| 0 <= k < |t| && t[k] == s[0];
        var m :| 0 <= m < |s| && s[m] == t[0];
        assert Below(t[0], s[0]);
        assert Below(s[0], t[0]);
        BelowAsymmetric(s[0], t[0]);
        assert false;
      }
      assert s == [s[0]] + s[1..] && t == [t[0]] + t[1..];
      forall y
        ensures y in s[1..] <==> y in t[1..]
      {
        if y in s[1..] {
          var j :| 0 <= j < |s[1..]| && s[1..][j] == y;
          assert s[j + 1] == y && Below(s[0], y);
          BelowIrreflexive(y);
          assert y != t[0] && y in s && y in t;
        }
        if y in t[1..] {
          var j :| 0 <= j < |t[1..]| && t[1..][j] == y;
          assert t[j + 1] == y && Below(t[0], y);
          BelowIrreflexive(y);
          assert y != s[0] && y in t && y in s;
        }
      }
      StrictlySortedUnique(s[1..], t[1..]);
    }
  }

  /* ---------- grouping ---------- */

  /** The test `e.type === t`. */
  function OfKind(t: string): EquipmentSummary -> bool
  {
    (e: EquipmentSummary) => e.kind == t
  }

  /** `equipmentByType[t]`: the items of type `t`, in order. */
  function Group(items: seq<EquipmentSummary>, t: string): seq<EquipmentSummary>
  {
    Filter(OfKind(t), items)
  }

  /** The groups of the listed types, one after the other. */
  function Grouped(items: seq<EquipmentSummary>, ts: seq<string>): seq<EquipmentSummary>
  {
    if ts == [] then [] else Group(items, ts[0]) + Grouped(items, ts[1..])
  }

  /** No type is listed twice. */
  ghost predicate Distinct(ts: seq<string>)
  {
    forall i, j :: 0 <= i < j < |ts| ==> ts[i] != ts[j]
  }

  /** The head of a list without duplicates is not in its tail, and the tail has none either. */
  lemma DistinctTail(ts: seq<string>)
    requires ts != [] && Distinct(ts)
    ensures ts[0] !in ts[1..] && Distinct(ts[1..])
  {
    forall j | 0 <= j < |ts[1..]|
      ensures ts[1..][j] != ts[0]
    {
      assert ts[1..][j] == ts[j + 1];
    }
  }

  /** Adding an item to the end adds it to the end of its own group only. */
  lemma GroupSnoc(items: seq<EquipmentSummary>, x: EquipmentSummary, t: string)
    ensures Group(items + [x], t) == Group(items, t) + (if x.kind == t then [x] else [])
  {
    assert (items + [x])[..|items|] == items;
  }

  /** The multiset step of `GroupedSnoc`, apart from the definitions. */
  lemma MultisetSnocStep<T>(g: seq<T>, g': seq<T>, r: seq<T>, r': seq<T>, x: T, inG: bool, inR: bool)
    requires g' == g + (if inG then [x] else [])
    requires multiset(r') == multiset(r) + (if inR then multiset{x} else multiset{})
    requires !(inG && inR)
    ensures multiset(g' + r') == multiset(g + r) + (if inG || inR then multiset{x} else multiset{})
  {
  }

  /** Adding one item adds it once to the concatenated groups, when its type is listed. */
  lemma {:induction false} GroupedSnoc(items: seq<EquipmentSummary>, x: EquipmentSummary, ts: seq<string>)
    requires Distinct(ts)
    ensures multiset(Grouped(items + [x], ts)) ==
      multiset(Grouped(items, ts)) + (if x.kind in ts then multiset{x} else multiset{})
  {
    if ts != [] {
      GroupSnoc(items, x, ts[0]);
      DistinctTail(ts);
      GroupedSnoc(items, x, ts[1..]);
      assert x.kind in ts <==> x.kind == ts[0] || x.kind in ts[1..] by {
        assert ts == [ts[0]] + ts[1..];
      }
      MultisetSnocStep(Group(items, ts[0]), Group(items + [x], ts[0]),
        Grouped(items, ts[1..]), Grouped(items + [x], ts[1..]), x, x.kind == ts[0], x.kind in ts[1..]);
    }
  }

  /**
    The groups partition the items: every group is non-empty and holds only
    its type, and together they hold each item exactly as often as `items`.
   */
  lemma GroupsPartition(items: seq<EquipmentSummary>)
    ensures var ts := PresentTypes(items);
      multiset(Grouped(items, ts)) == multiset(items) &&
      forall t :: t in ts ==> |Group(items, t)| > 0 && forall e :: e in Group(items, t) ==> e.kind == t
  {
    var ts := PresentTypes(items);
    GroupedCovers(items, items, ts);
    forall t | t in ts
      ensures |Group(items, t)| > 0 && forall e :: e in Group(items, t) ==> e.kind == t
    {
      var p := OfKind(t);
      var i :| 0 <= i < |items| && items[i].kind == t;
      FilterMembership(p, items, items[i]);
      FilterAll(p, items);
    }
  }

  /** The groups of a prefix of the items, by induction on the prefix. */
  lemma {:induction false} GroupedCovers(items: seq<EquipmentSummary>, all: seq<EquipmentSummary>, ts: seq<string>)
    requires StrictlySorted(ts)
    requires forall i :: 0 <= i < |items| ==> items[i].kind in ts
    ensures multiset(Grouped(items, ts)) == multiset(items)
    decreases |items|
  {
    assert Distinct(ts) by {
      forall i, j | 0 <= i < j < |ts|
        ensures ts[i] != ts[j]
      {
        BelowIrreflexive(ts[i]);
      }
    }
    if items == [] {
      GroupedEmpty(ts);
    } else {
      var n := |items| - 1;
      GroupedCovers(items[..n], all, ts);
      GroupedSnoc(items[..n], items[n], ts);
      assert items[..n] + [items[n]] == items;
    }
  }

  lemma {:induction false} GroupedEmpty(ts: seq<string>)
    ensures Grouped([], ts) == []
  {
    if ts != [] {
      GroupedEmpty(ts[1..]);
    }
  }

  /* ---------- title and file name ---------- */

  /** The title page heading. */
  function ReportTitle(items: seq<EquipmentSummary>): (title: string)
    ensures |items| == 1 ==> |title| >= 8 && title[8..] == items[0].name
    ensures |items| != 1 ==> title == "Inspection Report (Batch)" || title == "Inspection Report"
    ensures title == "Inspection Report" <==> |items| == 0
  {
    if |items| == 1 then
      assert ("Report: " + items[0].name)[0] == 'R';
      "Report: " + items[0].name
    else if |items| > 1 then "Inspection Report (Batch)"
    else "Inspection Report"
  }

  /** The name the document is saved under. */
  function ReportFileName(items: seq<EquipmentSummary>): (fileName: string)
    ensures |fileName| >= 11 && fileName[|fileName| - 4..] == ".pdf"
    ensures |items| == 1 ==> fileName[7..|fileName| - 4] == items[0].id
  {
    if |items| == 1 then "Report_" + items[0].id + ".pdf" else "InspectorAI_Batch_Report.pdf"
  }

  /**
    The title tells the three cases apart and names the single item; the
    file name tells one item from any other count and carries its id.
   */
  lemma TitleAndFileNameIdentify(a: seq<EquipmentSummary>, b: seq<EquipmentSummary>)
    ensures ReportTitle(a) == ReportTitle(b) ==>
      (|a| == 1 <==> |b| == 1) && (|a| > 1 <==> |b| > 1) && (|a| == 1 ==> a[0].name == b[0].name)
    ensures ReportFileName(a) == ReportFileName(b) ==>
      (|a| == 1 <==> |b| == 1) && (|a| == 1 ==> a[0].id == b[0].id)
  {
    var single := "Report: ";
    var batch := "Inspection Report (Batch)";
    var none := "Inspection Report";
    assert single[0] == 'R' && batch[0] == 'I' && none[0] == 'I';
    assert |batch| != |none|;
    if |a| == 1 && |b| == 1 && ReportTitle(a) == ReportTitle(b) {
      assert a[0].name == ReportTitle(a)[|single|..];
    }
    var pre := "Report_";
    var other := "InspectorAI_Batch_Report.pdf";
    assert pre[0] == 'R' && other[0] == 'I';
    if |a| == 1 && |b| == 1 && ReportFileName(a) == ReportFileName(b) {
      var fa := ReportFileName(a);
      assert a[0].id == fa[|pre|..|fa| - 4];
      assert b[0].id == ReportFileName(b)[|pre|..|fa| - 4];
    }
  }

  /* ---------- what the report says ---------- */

  /** A drawn line of text with its font size, or a separator rule. */
  datatype Entry = TextEntry(text: string, size: nat) | RuleEntry

  /**
    The block for the item at `index` of its group, numbered `index + 1`:
    the header, location, the latest inspection's date, status, severity,
    inspector, findings and recommendations, and a rule. Items without a
    record or without inspections are skipped but keep their number.
   */
  function ItemEntries(lookup: string -> Option<Equipment>, eq: EquipmentSummary, index: nat): seq<Entry>
  {
    match lookup(eq.id)
    case None => []
    case Some(full) =>
      if |full.inspections| == 0 then []
      else DetailEntries(full, index) + NoteEntries(full.inspections[0])
  }

  /** The item header, location and the latest inspection's date, status, severity and inspector. */
  function DetailEntries(full: Equipment, index: nat): seq<Entry>
    requires |full.inspections| > 0
  {
    var latest := full.inspections[0];
    [ TextEntry(NatToDecimal(index + 1) + ". " + full.name + " (" + full.id + ")", 12),
      TextEntry("Location: " + full.location, 10),
      TextEntry("Latest Inspection: " + latest.date + "   |   Status: " + StatusLabel(latest.status), 10),
      TextEntry("Severity: " + SeverityLabel(latest.severity), 10),
      TextEntry("Inspector: " + latest.inspector, 10) ]
  }

  /** The findings and recommendations under their headings, and the closing rule. */
  function NoteEntries(latest: Inspection): seq<Entry>
  {
    [ TextEntry("Findings:", 10),
      TextEntry(latest.findings, 10),
      TextEntry("Recommendations:", 10),
      TextEntry(latest.recommendations, 10),
      RuleEntry ]
  }

  /** How the report reads records: `getEquipmentHistory` over the store `db`. */
  function Lookup(db: seq<Equipment>): string -> Option<Equipment>
  {
    id => MockDatabase.GetEquipmentHistory(db, id)
  }

  /** The blocks of the first `n` items of a group. */
  function GroupEntries(lookup: string -> Option<Equipment>, selected: seq<EquipmentSummary>, n: nat): seq<Entry>
    requires n <= |selected|
  {
    if n == 0 then [] else GroupEntries(lookup, selected, n - 1) + ItemEntries(lookup, selected[n - 1], n - 1)
  }

  /** The category header, shown only for a batch of more than one item. */
  function Header(items: seq<EquipmentSummary>, t: string): seq<Entry>
  {
    if |items| > 1 then [TextEntry("Category: " + t, 16)] else []
  }

  /** One type's section: its header (in a batch) and its items' blocks; nothing for a type without items. */
  function SectionEntries(lookup: string -> Option<Equipment>, items: seq<EquipmentSummary>, t: string): seq<Entry>
  {
    var selected := Group(items, t);
    if |selected| == 0 then [] else Header(items, t) + GroupEntries(lookup, selected, |selected|)
  }

  /** The sections of the first `n` types. */
  function SectionsEntries(lookup: string -> Option<Equipment>, items: seq<EquipmentSummary>, ts: seq<string>, n: nat): seq<Entry>
    requires n <= |ts|
  {
    if n == 0 then [] else SectionsEntries(lookup, items, ts, n - 1) + SectionEntries(lookup, items, ts[n - 1])
  }

  /** Everything drawn after the title page, in order. */
  function ReportEntries(lookup: string -> Option<Equipment>, items: seq<EquipmentSummary>): seq<Entry>
  {
    var ts := PresentTypes(items);
    SectionsEntries(lookup, items, ts, |ts|)
  }

  /**
    Only the latest inspection is reported: two records that agree on id,
    name, location and first inspection give the same block, whatever their
    older inspections.
   */
  lemma ReportsLatestOnly(db1: seq<Equipment>, db2: seq<Equipment>, eq: EquipmentSummary, index: nat)
    requires var h1 := MockDatabase.GetEquipmentHistory(db1, eq.id);
      var h2 := MockDatabase.GetEquipmentHistory(db2, eq.id);
      h1.Some? && h2.Some? && |h1.value.inspections| > 0 && |h2.value.inspections| > 0 &&
      h1.value.name == h2.value.name && h1.value.location == h2.value.location &&
      h1.value.inspections[0] == h2.value.inspections[0]
    ensures ItemEntries(Lookup(db1), eq, index) == ItemEntries(Lookup(db2), eq, index)
    ensures |ItemEntries(Lookup(db1), eq, index)| == 10
  {
  }

  /** An item with no record, or with no inspections, draws nothing. */
  lemma SkippedItems(db: seq<Equipment>, eq: EquipmentSummary, index: nat)
    ensures ItemEntries(Lookup(db), eq, index) == [] <==>
      forall k :: 0 <= k < |db| && db[k].id == eq.id ==>
        (|db[k].inspections| == 0 || exists j :: 0 <= j < k && db[j].id == eq.id)
  {
    var h := MockDatabase.GetEquipmentHistory(db, eq.id);
    if h.Some? && |h.value.inspections| > 0 {
      var k :| 0 <= k < |db| && db[k] == h.value && forall j :: 0 <= j < k ==> db[j].id != eq.id;
      assert db[k].id == eq.id && |db[k].inspections| > 0;
    } else if h.Some? {
      forall k | 0 <= k < |db| && db[k].id == eq.id && |db[k].inspections| > 0
        ensures exists j :: 0 <= j < k && db[j].id == eq.id
      {
        var k0 :| 0 <= k0 < |db| && db[k0] == h.value && forall j :: 0 <= j < k0 ==> db[j].id != eq.id;
        if k0 > k {
          assert false;
        }
        assert k0 != k;
      }
    }
  }

  /** A report of one item is that item's block alone: no category header. */
  lemma SingleItemReport(lookup: string -> Option<Equipment>, x: EquipmentSummary)
    ensures ReportEntries(lookup, [x]) == ItemEntries(lookup, x, 0)
  {
    var ts := PresentTypes([x]);
    assert x.kind in ts by {
      assert [x][0].kind == x.kind;
    }
    StrictlySortedUnique(ts, [x.kind]);
    assert Group([x], x.kind) == [x] by {
      GroupSnoc([], x, x.kind);
      assert [] + [x] == [x];
    }
    assert SectionsEntries(lookup, [x], ts, 1) == SectionsEntries(lookup, [x], ts, 0) + SectionEntries(lookup, [x], x.kind);
    assert GroupEntries(lookup, [x], 1) == GroupEntries(lookup, [x], 0) + ItemEntries(lookup, x, 0);
  }

  /* ---------- layout ---------- */

  const Margin: int := 15
  const LineHeight: int := 6
  /** Where the cursor starts (before the title page is left). */
  const StartY: int := 20
  /** A category header goes to a new page when the cursor is below `pageHeight - HeaderRoom`. */
  const HeaderRoom: int := 50

  /** Something drawn: a block of `lines` wrapped lines at height `y`, or a rule. */
  datatype Mark =
    | TextMark(page: nat, y: int, text: string, size: nat, lines: nat)
    | RuleMark(page: nat, y: int)

  function Bottom(m: Mark): int
  {
    match m
    case TextMark(_, y, _, _, lines) => y + LineHeight * lines
    case RuleMark(_, y) => y
  }

  /**
    A mark starts at or below the top margin and ends at or above the
    bottom margin, unless it is too tall for any page.
   */
  predicate Fits(m: Mark, pageHeight: int)
  {
    Margin <= m.y &&
    match m
    case TextMark(_, y, _, _, lines) =>
      y + LineHeight * lines <= pageHeight - Margin || LineHeight * lines > pageHeight - 2 * Margin
    case RuleMark(_, y) => y + 5 <= pageHeight - Margin || 5 > pageHeight - 2 * Margin
  }

  function EntryOf(m: Mark): Entry
  {
    match m
    case TextMark(_, _, text, size, _) => TextEntry(text, size)
    case RuleMark(_, _) => RuleEntry
  }

  /** What the marks say, without where. */
  function Contents(marks: seq<Mark>): seq<Entry>
  {
    if marks == [] then [] else Contents(marks[..|marks| - 1]) + [EntryOf(marks[|marks| - 1])]
  }

  lemma ContentsSnoc(marks: seq<Mark>, m: Mark)
    ensures Contents(marks + [m]) == Contents(marks) + [EntryOf(m)]
  {
    assert (marks + [m])[..|marks|] == marks;
  }

  /** A mark ends above the point `(page, y)`: on an earlier page, or higher on the same page. */
  predicate Above(m: Mark, page: nat, y: int)
  {
    m.page < page || (m.page == page && Bottom(m) <= y)
  }

  /**
    The marks as drawn one after another: each fits its page, carries the
    wrapped line count of its text, and starts below where the one before it
    ends.
   */
  ghost predicate Stacked(pageHeight: int, wrap: (string, nat) -> nat, marks: seq<Mark>)
    decreases |marks|
  {
    marks == [] ||
    var n := |marks| - 1;
    Stacked(pageHeight, wrap, marks[..n]) && Fits(marks[n], pageHeight) &&
    (marks[n].TextMark? ==> marks[n].lines == wrap(marks[n].text, marks[n].size)) &&
    (n > 0 ==> Above(marks[n - 1], marks[n].page, marks[n].y))
  }

  /** The layout invariant: the cursor is below the top margin and below the last mark. */
  ghost predicate Laid(pageHeight: int, wrap: (string, nat) -> nat, page: nat, yPos: int, marks: seq<Mark>)
  {
    Margin <= yPos && 1 <= page && Stacked(pageHeight, wrap, marks) &&
    (marks != [] ==> Above(marks[|marks| - 1], page, yPos))
  }

  /** A mark starts where it is drawn and ends at or below that. */
  lemma AboveTrans(a: Mark, b: Mark, page: nat, y: int)
    requires Above(a, b.page, b.y) && Above(b, page, y)
    ensures Above(a, page, y)
  {
  }

  /**
    Stacked marks are in drawing order: every mark fits its page and carries
    its line count, and of two marks the earlier one is on an earlier page or
    ends above where the later one starts.
   */
  lemma {:induction false} StackedOrdered(pageHeight: int, wrap: (string, nat) -> nat, marks: seq<Mark>)
    requires Stacked(pageHeight, wrap, marks)
    ensures forall i :: 0 <= i < |marks| ==>
      Fits(marks[i], pageHeight) && (marks[i].TextMark? ==> marks[i].lines == wrap(marks[i].text, marks[i].size))
    ensures forall i, j :: 0 <= i < j < |marks| ==> Above(marks[i], marks[j].page, marks[j].y)
    decreases |marks|
  {
    if marks != [] {
      var n := |marks| - 1;
      var init := marks[..n];
      StackedOrdered(pageHeight, wrap, init);
      forall i | 0 <= i < n
        ensures marks[i] == init[i]
      {
      }
      forall i, j | 0 <= i < j < |marks|
        ensures Above(marks[i], marks[j].page, marks[j].y)
      {
        if j == n && i < n - 1 {
          AboveTrans(marks[i], marks[n - 1], marks[n].page, marks[n].y);
        }
      }
    }
  }

  /**
    What the layout invariant means for the whole document: besides the
    order of the marks, every mark lies on a page so far, and the cursor is
    below every mark of the current page.
   */
  lemma LaidOrdered(pageHeight: int, wrap: (string, nat) -> nat, page: nat, yPos: int, marks: seq<Mark>)
    requires Laid(pageHeight, wrap, page, yPos, marks)
    ensures forall i :: 0 <= i < |marks| ==> marks[i].page <= page && (marks[i].page == page ==> Bottom(marks[i]) <= yPos)
    ensures forall i, j :: 0 <= i < j < |marks| ==> Above(marks[i], marks[j].page, marks[j].y)
  {
    StackedOrdered(pageHeight, wrap, marks);
    forall i | 0 <= i < |marks|
      ensures Above(marks[i], page, yPos)
    {
      if i < |marks| - 1 {
        AboveTrans(marks[i], marks[|marks| - 1], page, yPos);
      }
    }
  }

  /** Drawing a fitting mark at the cursor and moving the cursor below it keeps the layout. */
  lemma LaidSnoc(pageHeight: int, wrap: (string, nat) -> nat, page: nat, yPos: int, marks: seq<Mark>, m: Mark, y': int)
    requires Laid(pageHeight, wrap, page, yPos, marks)
    requires m.page == page && m.y == yPos && Fits(m, pageHeight)
    requires m.TextMark? ==> m.lines == wrap(m.text, m.size)
    requires Bottom(m) <= y'
    ensures Laid(pageHeight, wrap, page, y', marks + [m])
  {
    assert (marks + [m])[..|marks|] == marks;
  }

  /** The document being written: its pages, the cursor `yPos` and the marks drawn so far. */
  class Document {
    const pageHeight: int
    /** `splitTextToSize`: how many lines a text wraps to at a font size. */
    const wrap: (string, nat) -> nat
    var page: nat
    var yPos: int
    var marks: seq<Mark>

    /** The layout invariant holds of the document's state. */
    ghost predicate Valid()
      reads this
    {
      Laid(pageHeight, wrap, page, yPos, marks)
    }

    /** `new jsPDF()`: the title page, with the cursor at its start height. */
    constructor(pageHeight: int, wrap: (string, nat) -> nat)
      ensures Valid()
      ensures this.pageHeight == pageHeight && this.wrap == wrap
      ensures page == 1 && yPos == StartY && marks == []
    {
      this.pageHeight := pageHeight;
      this.wrap := wrap;
      page := 1;
      yPos := StartY;
      marks := [];
    }

    /** `doc.addPage(); yPos = margin`. */
    method NewPage()
      modifies this
      requires Valid()
      ensures Valid()
      ensures page == old(page) + 1 && yPos == Margin && marks == old(marks)
    {
      page := page + 1;
      yPos := Margin;
    }

    /** `yPos += dy`. */
    method Advance(dy: nat)
      modifies this
      requires Valid()
      ensures Valid()
      ensures yPos == old(yPos) + dy && page == old(page) && marks == old(marks)
    {
      yPos := yPos + dy;
    }

    /** The category header's check: a new page when the cursor is below `limit`. */
    method BreakBelow(limit: int)
      modifies this
      requires Valid()
      ensures Valid()
      ensures old(yPos) > limit ==> page == old(page) + 1 && yPos == Margin
      ensures old(yPos) <= limit ==> page == old(page) && yPos == old(yPos)
      ensures marks == old(marks)
    {
      if yPos > limit {
        NewPage();
      }
    }

    /**
      `addText`: when the wrapped block would cross the bottom margin a new
      page is started; the block is drawn at the cursor, which then moves
      down by exactly the block's height. Returns the line count.
     */
    method AddText(text: string, size: nat) returns (count: nat)
      modifies this
      requires Valid()
      ensures Valid()
      ensures count == wrap(text, size)
      ensures var broke := old(yPos) + LineHeight * count > pageHeight - Margin;
        var top := if broke then Margin else old(yPos);
        page == old(page) + (if broke then 1 else 0) &&
        marks == old(marks) + [TextMark(page, top, text, size, count)] &&
        yPos == top + LineHeight * count
      ensures Contents(marks) == Contents(old(marks)) + [TextEntry(text, size)]
    {
      count := wrap(text, size);
      if yPos + LineHeight * count > pageHeight - Margin {
        NewPage();
      }
      ghost var m0, y0 := marks, yPos;
      ContentsSnoc(marks, TextMark(page, yPos, text, size, count));
      marks := marks + [TextMark(page, yPos, text, size, count)];
      yPos := yPos + LineHeight * count;
      LaidSnoc(pageHeight, wrap, page, y0, m0, TextMark(page, y0, text, size, count), yPos);
    }

    /** `addLine`: a rule at the cursor (on a new page if it would cross the margin), then 10 down. */
    method AddLine()
      modifies this
      requires Valid()
      ensures Valid()
      ensures var broke := old(yPos) + 5 > pageHeight - Margin;
        var top := if broke then Margin else old(yPos);
        page == old(page) + (if broke then 1 else 0) &&
        marks == old(marks) + [RuleMark(page, top)] &&
        yPos == top + 10
      ensures Contents(marks) == Contents(old(marks)) + [RuleEntry]
    {
      if yPos + 5 > pageHeight - Margin {
        NewPage();
      }
      ghost var m0, y0 := marks, yPos;
      ContentsSnoc(marks, RuleMark(page, yPos));
      marks := marks + [RuleMark(page, yPos)];
      yPos := yPos + 10;
      LaidSnoc(pageHeight, wrap, page, y0, m0, RuleMark(page, y0), yPos);
    }
  }

  /** The block of one item (`selected.forEach` body). */
  method ReportItem(doc: Document, lookup: string -> Option<Equipment>, simpleEq: EquipmentSummary, index: nat)
    modifies doc
    requires doc.Valid()
    ensures doc.Valid()
    ensures Contents(doc.marks) == Contents(old(doc.marks)) + ItemEntries(lookup, simpleEq, index)
    ensures doc.page >= old(doc.page)
  {
    var fullEq := lookup(simpleEq.id);
    if fullEq.None? || |fullEq.value.inspections| == 0 {
      return;
    }
    ghost var c0 := Contents(doc.marks);
    DrawDetails(doc, fullEq.value, index);
    DrawNotes(doc, fullEq.value.inspections[0]);
    AppendAssoc(c0, DetailEntries(fullEq.value, index), NoteEntries(fullEq.value.inspections[0]));
  }

  /** The item header, 5 down, location, 2 down, then the latest inspection's details. */
  method DrawDetails(doc: Document, full: Equipment, index: nat)
    modifies doc
    requires doc.Valid() && |full.inspections| > 0
    ensures doc.Valid()
    ensures Contents(doc.marks) == Contents(old(doc.marks)) + DetailEntries(full, index)
    ensures doc.page >= old(doc.page)
  {
    var latest := full.inspections[0];
    var header := NatToDecimal(index + 1) + ". " + full.name + " (" + full.id + ")";
    var location := "Location: " + full.location;
    var dated := "Latest Inspection: " + latest.date + "   |   Status: " + StatusLabel(latest.status);
    var severity := "Severity: " + SeverityLabel(latest.severity);
    var inspector := "Inspector: " + latest.inspector;
    // `c0 + es` is what the marks say after each step.
    ghost var c0 := Contents(doc.marks);
    ghost var es: seq<Entry> := [];
    doc.Advance(5);
    var _ := doc.AddText(header, 12);
    AppendAssoc(c0, es, [TextEntry(header, 12)]);
    es := es + [TextEntry(header, 12)];
    assert Contents(doc.marks) == c0 + es;
    var _ := doc.AddText(location, 10);
    AppendAssoc(c0, es, [TextEntry(location, 10)]);
    es := es + [TextEntry(location, 10)];
    assert Contents(doc.marks) == c0 + es;
    doc.Advance(2);
    var _ := doc.AddText(dated, 10);
    AppendAssoc(c0, es, [TextEntry(dated, 10)]);
    es := es + [TextEntry(dated, 10)];
    assert Contents(doc.marks) == c0 + es;
    var _ := doc.AddText(severity, 10);
    AppendAssoc(c0, es, [TextEntry(severity, 10)]);
    es := es + [TextEntry(severity, 10)];
    assert Contents(doc.marks) == c0 + es;
    var _ := doc.AddText(inspector, 10);
    AppendAssoc(c0, es, [TextEntry(inspector, 10)]);
    es := es + [TextEntry(inspector, 10)];
    assert Contents(doc.marks) == c0 + es;
    DetailEntriesInOrder(full, index);
  }

  /** 2 down, the findings, 2 down, the recommendations, 5 down, and the rule. */
  method DrawNotes(doc: Document, latest: Inspection)
    modifies doc
    requires doc.Valid()
    ensures doc.Valid()
    ensures Contents(doc.marks) == Contents(old(doc.marks)) + NoteEntries(latest)
    ensures doc.page >= old(doc.page)
  {
    ghost var c0 := Contents(doc.marks);
    ghost var es: seq<Entry> := [];
    doc.Advance(2);
    var _ := doc.AddText("Findings:", 10);
    AppendAssoc(c0, es, [TextEntry("Findings:", 10)]);
    es := es + [TextEntry("Findings:", 10)];
    assert Contents(doc.marks) == c0 + es;
    var _ := doc.AddText(latest.findings, 10);
    AppendAssoc(c0, es, [TextEntry(latest.findings, 10)]);
    es := es + [TextEntry(latest.findings, 10)];
    assert Contents(doc.marks) == c0 + es;
    doc.Advance(2);
    var _ := doc.AddText("Recommendations:", 10);
    AppendAssoc(c0, es, [TextEntry("Recommendations:", 10)]);
    es := es + [TextEntry("Recommendations:", 10)];
    assert Contents(doc.marks) == c0 + es;
    var _ := doc.AddText(latest.recommendations, 10);
    AppendAssoc(c0, es, [TextEntry(latest.recommendations, 10)]);
    es := es + [TextEntry(latest.recommendations, 10)];
    assert Contents(doc.marks) == c0 + es;
    doc.Advance(5);
    doc.AddLine();
    AppendAssoc(c0, es, [RuleEntry]);
    es := es + [RuleEntry];
    assert Contents(doc.marks) == c0 + es;
    NoteEntriesInOrder(latest);
  }

  /** `DetailEntries` as its entries appended one at a time, the way `DrawDetails` draws them. */
  lemma DetailEntriesInOrder(full: Equipment, index: nat)
    requires |full.inspections| > 0
    ensures var latest := full.inspections[0];
      DetailEntries(full, index) ==
        [] + [TextEntry(NatToDecimal(index + 1) + ". " + full.name + " (" + full.id + ")", 12)]
        + [TextEntry("Location: " + full.location, 10)]
        + [TextEntry("Latest Inspection: " + latest.date + "   |   Status: " + StatusLabel(latest.status), 10)]
        + [TextEntry("Severity: " + SeverityLabel(latest.severity), 10)]
        + [TextEntry("Inspector: " + latest.inspector, 10)]
  {
  }

  /** `NoteEntries` as its entries appended one at a time, the way `DrawNotes` draws them. */
  lemma NoteEntriesInOrder(latest: Inspection)
    ensures NoteEntries(latest) ==
      [] + [TextEntry("Findings:", 10)] + [TextEntry(latest.findings, 10)]
      + [TextEntry("Recommendations:", 10)] + [TextEntry(latest.recommendations, 10)] + [RuleEntry]
  {
  }

  lemma {:induction false} ContentsAppend(a: seq<Mark>, b: seq<Mark>)
    ensures Contents(a + b) == Contents(a) + Contents(b)
    decreases |b|
  {
    if b == [] {
      assert a + b == a;
    } else {
      var n := |b| - 1;
      ContentsAppend(a, b[..n]);
      assert (a + b)[..|a + b| - 1] == a + b[..n];
    }
  }

  lemma {:induction false} ContentsIndex(b: seq<Mark>)
    ensures |Contents(b)| == |b|
    ensures forall i :: 0 <= i < |b| ==> Contents(b)[i] == EntryOf(b[i])
  {
    if b != [] {
      ContentsIndex(b[..|b| - 1]);
    }
  }

  /**
    One type's section (the body of the loop over `presentTypes`): in a
    batch, the category header (on a new page when the cursor is low), then
    each item's block numbered within the group, then a new page.
   */
  method ReportSection(doc: Document, lookup: string -> Option<Equipment>, items: seq<EquipmentSummary>, t: string)
    modifies doc
    requires doc.Valid()
    ensures doc.Valid()
    ensures Contents(doc.marks) == Contents(old(doc.marks)) + SectionEntries(lookup, items, t)
    ensures doc.page >= old(doc.page)
    ensures |items| > 1 && |Group(items, t)| > 0 ==> doc.page > old(doc.page) && doc.yPos == Margin
  {
    var selected := Group(items, t);
    if |selected| == 0 {
      return;
    }
    ghost var c0 := Contents(doc.marks);
    if |items| > 1 {
      doc.BreakBelow(doc.pageHeight - HeaderRoom);
      var _ := doc.AddText("Category: " + t, 16);
      doc.Advance(5);
    }
    assert Contents(doc.marks) == c0 + Header(items, t);
    ReportGroup(doc, lookup, selected);
    AppendAssoc(c0, Header(items, t), GroupEntries(lookup, selected, |selected|));
    if |items| > 1 {
      doc.NewPage();
    }
  }

  /** `selected.forEach`: the blocks of a group's items, numbered from 1. */
  method ReportGroup(doc: Document, lookup: string -> Option<Equipment>, selected: seq<EquipmentSummary>)
    modifies doc
    requires doc.Valid()
    ensures doc.Valid()
    ensures Contents(doc.marks) == Contents(old(doc.marks)) + GroupEntries(lookup, selected, |selected|)
    ensures doc.page >= old(doc.page)
  {
    ghost var c0 := Contents(doc.marks);
    var i := 0;
    while i < |selected|
      invariant i <= |selected|
      invariant doc.Valid()
      invariant Contents(doc.marks) == c0 + GroupEntries(lookup, selected, i)
      invariant doc.page >= old(doc.page)
    {
      ghost var done := GroupEntries(lookup, selected, i);
      ReportItem(doc, lookup, selected[i], i);
      AppendAssoc(c0, done, ItemEntries(lookup, selected[i], i));
      i := i + 1;
    }
  }

  /**
    `generatePDFReport`: the title page, then a new page and each present
    type's section in sorted order; returns the document with its title and
    the file name it is saved under.
   */
  method GenerateReport(db: seq<Equipment>, items: seq<EquipmentSummary>, pageHeight: int, wrap: (string, nat) -> nat)
    returns (doc: Document, title: string, fileName: string)
    ensures fresh(doc) && doc.Valid()
    ensures doc.pageHeight == pageHeight && doc.wrap == wrap
    ensures Contents(doc.marks) == ReportEntries(Lookup(db), items)
    ensures doc.page >= 2
    ensures title == ReportTitle(items) && fileName == ReportFileName(items)
  {
    doc := new Document(pageHeight, wrap);
    title := ReportTitle(items);
    doc.NewPage();
    var ts := PresentTypes(items);
    var k := 0;
    while k < |ts|
      invariant k <= |ts|
      invariant doc.Valid() && doc.pageHeight == pageHeight && doc.wrap == wrap
      invariant Contents(doc.marks) == SectionsEntries(Lookup(db), items, ts, k)
      invariant doc.page >= 2
    {
      ReportSection(doc, Lookup(db), items, ts[k]);
      k := k + 1;
    }
    fileName := ReportFileName(items);
  }
}

/**
  The equipment sidebar: the search box filters the asset list shown (and
  counted), and "generate PDF" picks what goes to the report: the filtered
  list while a search is active, otherwise one record drawn at random. The
  random draw is a parameter; the rendering is left out.
 */
module Sidebar {
  import opened Types
  import opened Text
  import opened Seqs
  import MockDatabase

  /** The filter condition: the lowered term occurs in the lowered name, type, location or id. */
  predicate Listed(lowerTerm: string, eq: EquipmentSummary)
  {
    Contains(ToLower(eq.name), lowerTerm) ||
    Contains(ToLower(eq.kind), lowerTerm) ||
    Contains(ToLower(eq.location), lowerTerm) ||
    Contains(ToLower(eq.id), lowerTerm)
  }

  /**
    `filteredEquipment`: everything while the term is blank, otherwise the
    records whose fields contain the lowered term, which is not trimmed.
   */
  function FilterEquipment(all: seq<EquipmentSummary>, searchTerm: string): (r: seq<EquipmentSummary>)
    ensures IsSubsequence(r, all)
    ensures !IsBlank(searchTerm) ==> forall k :: 0 <= k < |r| ==> Listed(ToLower(searchTerm), r[k])
  {
    var p := (eq: EquipmentSummary) => Listed(ToLower(searchTerm), eq);
    FilterIsSubsequence(p, all);
    FilterIsSubsequence((eq: EquipmentSummary) => true, all);
    FilterKeepsAll((eq: EquipmentSummary) => true, all);
    forall k | 0 <= k < |Filter(p, all)|
      ensures p(Filter(p, all)[k])
    {
      FilterMembership(p, all, Filter(p, all)[k]);
    }
    if IsBlank(searchTerm) then all
    else Filter((eq: EquipmentSummary) => Listed(ToLower(searchTerm), eq), all)
  }

  /**
    A blank term lists everything; otherwise exactly the records with a field
    containing the lowered term are listed, in their order, so the list is a
    subsequence of the full list and never longer.
   */
  lemma FilterEquipmentSpec(all: seq<EquipmentSummary>, searchTerm: string)
    ensures var r := FilterEquipment(all, searchTerm);
      IsSubsequence(r, all) && |r| <= |all| &&
      (forall eq :: eq in r ==> eq in all) &&
      (IsBlank(searchTerm) ==> r == all) &&
      (!IsBlank(searchTerm) ==> forall eq :: eq in r <==> eq in all && Listed(ToLower(searchTerm), eq))
  {
    var p := (eq: EquipmentSummary) => Listed(ToLower(searchTerm), eq);
    FilterIsSubsequence(p, all);
    forall eq | eq in Filter(p, all)
      ensures eq in all
    {
      FilterMembership(p, all, eq);
    }
    if IsBlank(searchTerm) {
      FilterKeepsAll((eq: EquipmentSummary) => true, all);
      FilterIsSubsequence((eq: EquipmentSummary) => true, all);
    } else {
      forall eq
        ensures eq in FilterEquipment(all, searchTerm) <==> eq in all && Listed(ToLower(searchTerm), eq)
      {
        FilterMembership(p, all, eq);
      }
    }
  }

  /**
    Case does not matter on either side: a term and its lowered form select
    the same records.
   */
  lemma FilterIgnoresCase(all: seq<EquipmentSummary>, searchTerm: string)
    ensures FilterEquipment(all, ToLower(searchTerm)) == FilterEquipment(all, searchTerm)
  {
    ToLowerIdempotent(searchTerm);
    assert IsBlank(ToLower(searchTerm)) <==> IsBlank(searchTerm) by {
      forall i | 0 <= i < |searchTerm|
        ensures IsWhitespace(ToLower(searchTerm)[i]) <==> IsWhitespace(searchTerm[i])
      {
      }
    }
  }

  /** The sidebar's state: the search box and the store's summaries, read once. */
  class SidebarState {
    var searchTerm: string
    const allEquipment: seq<EquipmentSummary>

    /** Mounting: an empty search box over `getAllEquipment()`. */
    constructor(db: seq<Equipment>)
      ensures searchTerm == ""
      ensures allEquipment == MockDatabase.GetAllEquipment(db)
    {
      searchTerm := "";
      allEquipment := MockDatabase.GetAllEquipment(db);
    }

    /** Typing into the search box. */
    method SetSearchTerm(term: string)
      modifies this
      ensures searchTerm == term
    {
      searchTerm := term;
    }

    function FilteredEquipment(): seq<EquipmentSummary>
      reads this
    {
      FilterEquipment(allEquipment, searchTerm)
    }

    /**
      The `Assets (n)` heading: the number of listed records, at most the
      number of records and all of them while the term is blank.
     */
    function AssetCount(): (n: nat)
      reads this
      ensures n <= |allEquipment|
      ensures IsBlank(searchTerm) ==> n == |allEquipment|
      ensures n == 0 <==> forall eq :: eq in allEquipment ==> eq !in FilteredEquipment()
    {
      FilterEquipmentSpec(allEquipment, searchTerm);
      var r := FilteredEquipment();
      assert |r| > 0 ==> r[0] in allEquipment && r[0] in r;
      |r|
    }

    /**
      `handleGeneratePdf`: with an active search the report gets exactly the
      listed records; with a blank term it gets the one record at the drawn
      index in `[0, |allEquipment|)`. With an empty store there is no record
      at index 0 and no report (`None`).
     */
    method HandleGeneratePdf(randomIndex: nat) returns (items: Option<seq<EquipmentSummary>>)
      requires IsBlank(searchTerm) && |allEquipment| > 0 ==> randomIndex < |allEquipment|
      ensures !IsBlank(searchTerm) ==> items == Some(FilteredEquipment())
      ensures IsBlank(searchTerm) && |allEquipment| > 0 ==>
        items == Some([allEquipment[randomIndex]]) && |items.value| == 1
      ensures IsBlank(searchTerm) && |allEquipment| == 0 ==> items.None?
    {
      if !IsBlank(searchTerm) {
        items := Some(FilteredEquipment());
      } else if |allEquipment| > 0 {
        items := Some([allEquipment[randomIndex]]);
      } else {
        items := None;
      }
    }
  }
}

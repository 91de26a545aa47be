/**
  The read-only query surface of the in-memory inspection store: the summary
  projection, lookup by id and the case-insensitive findings search. The store
  itself (a module-level array in the source) is passed in as `db`.
 */
module MockDatabase {
  import opened Types
  import opened Text
  import opened Seqs

  function Summary(eq: Equipment): EquipmentSummary
  {
    EquipmentSummary(eq.id, eq.name, eq.kind, eq.location)
  }

  /** `getAllEquipment`: one summary per record, in store order, fields copied. */
  function GetAllEquipment(db: seq<Equipment>): (r: seq<EquipmentSummary>)
    ensures |r| == |db|
    ensures forall k :: 0 <= k < |db| ==>
      r[k].id == db[k].id && r[k].name == db[k].name &&
      r[k].kind == db[k].kind && r[k].location == db[k].location
  {
    seq(|db|, k requires 0 <= k < |db| => Summary(db[k]))
  }

  /**
    `getEquipmentHistory`: the first record whose id equals `id` exactly, or
    `None` (the source's `null`) when no record has that id.
   */
  function GetEquipmentHistory(db: seq<Equipment>, id: string): (r: Option<Equipment>)
    ensures r.None? <==> forall k :: 0 <= k < |db| ==> db[k].id != id
    ensures r.Some? ==> r.value.id == id
    ensures r.Some? ==> exists k :: (0 <= k < |db| && db[k] == r.value &&
      forall j :: 0 <= j < k ==> db[j].id != id)
  {
    if db == [] then None
    else if db[0].id == id then Some(db[0])
    else
      var r := GetEquipmentHistory(db[1..], id);
      if r.Some? then
        var k :| 0 <= k < |db[1..]| && db[1..][k] == r.value &&
          forall j :: 0 <= j < k ==> db[1..][j].id != id;
        assert db[k + 1] == r.value;
        r
      else r
  }

  /** The search condition: the lowered query occurs in one of four lowered fields. */
  predicate Matches(eq: Equipment, ins: Inspection, lowerQuery: string)
  {
    Contains(ToLower(ins.findings), lowerQuery) ||
    Contains(ToLower(ins.recommendations), lowerQuery) ||
    Contains(ToLower(SeverityLabel(ins.severity)), lowerQuery) ||
    Contains(ToLower(eq.name), lowerQuery)
  }

  /** The search hit built from a matching (equipment, inspection) pair. */
  function Hit(eq: Equipment, ins: Inspection): SearchResult
  {
    SearchResult(eq.name, ins.date, ins.findings, SeverityLabel(ins.severity), ins.reportUrl)
  }

  /** Hits among the inspections `inss` of `eq`, in inspection order. */
  function HitsIn(eq: Equipment, inss: seq<Inspection>, lowerQuery: string): seq<SearchResult>
  {
    FilterMap(ins => Matches(eq, ins, lowerQuery), ins => Hit(eq, ins), inss)
  }

  /** Hits over the whole store: equipment order, then inspection order. */
  function HitsAll(db: seq<Equipment>, lowerQuery: string): seq<SearchResult>
  {
    if db == [] then []
    else
      var last := db[|db| - 1];
      HitsAll(db[..|db| - 1], lowerQuery) + HitsIn(last, last.inspections, lowerQuery)
  }

  /** The inner `forEach` of `searchInspections`: the hits among the inspections of one record. */
  method SearchEquipment(eq: Equipment, lowerQuery: string) returns (hits: seq<SearchResult>)
    ensures hits == HitsIn(eq, eq.inspections, lowerQuery)
  {
    hits := [];
    var j := 0;
    while j < |eq.inspections|
      invariant 0 <= j <= |eq.inspections|
      invariant hits == HitsIn(eq, eq.inspections[..j], lowerQuery)
    {
      var ins := eq.inspections[j];
      if Matches(eq, ins, lowerQuery) {
        hits := hits + [Hit(eq, ins)];
      }
      assert eq.inspections[..j + 1][..j] == eq.inspections[..j];
      j := j + 1;
    }
    assert eq.inspections[..j] == eq.inspections;
  }

  /**
    `searchInspections`: the nested `forEach` loops that push a hit for every
    matching pair.
   */
  method SearchInspections(db: seq<Equipment>, query: string) returns (results: seq<SearchResult>)
    ensures results == HitsAll(db, ToLower(query))
  {
    results := [];
    var lowerQuery := ToLower(query);
    var k := 0;
    while k < |db|
      invariant 0 <= k <= |db|
      invariant results == HitsAll(db[..k], lowerQuery)
    {
      var hits := SearchEquipment(db[k], lowerQuery);
      results := results + hits;
      assert db[..k + 1][..k] == db[..k];
      k := k + 1;
    }
    assert db[..k] == db;
  }

  /** `r` is the hit of a matching pair. */
  ghost predicate HitOf(eq: Equipment, ins: Inspection, lowerQuery: string, r: SearchResult)
  {
    Matches(eq, ins, lowerQuery) && r == Hit(eq, ins)
  }

  /** A hit of `eq` comes from a matching inspection of `inss`, and every such inspection gives one. */
  lemma HitsInMembership(eq: Equipment, inss: seq<Inspection>, lowerQuery: string, r: SearchResult)
    ensures r in HitsIn(eq, inss, lowerQuery) <==>
      exists j :: 0 <= j < |inss| && HitOf(eq, inss[j], lowerQuery, r)
  {
    FilterMapMembership(ins => Matches(eq, ins, lowerQuery), ins => Hit(eq, ins), inss, r);
  }

  /**
    Soundness and completeness of the search: a result is produced exactly for
    the (equipment, inspection) pairs whose findings, recommendations, severity
    or equipment name contain the lowered query, and it copies that pair's
    fields.
   */
  lemma {:induction false} SearchMembership(db: seq<Equipment>, query: string, r: SearchResult)
    ensures r in HitsAll(db, ToLower(query)) <==>
      exists k, j :: 0 <= k < |db| && 0 <= j < |db[k].inspections| &&
        HitOf(db[k], db[k].inspections[j], ToLower(query), r)
  {
    var lq := ToLower(query);
    if db != [] {
      var init := db[..|db| - 1];
      var n := |db| - 1;
      var last := db[n];
      SearchMembership(init, query, r);
      HitsInMembership(last, last.inspections, lq, r);
      if r in HitsAll(init, lq) {
        var k, j :| 0 <= k < |init| && 0 <= j < |init[k].inspections| &&
          HitOf(init[k], init[k].inspections[j], lq, r);
        assert db[k] == init[k];
      }
      if k, j :| 0 <= k < |db| && 0 <= j < |db[k].inspections| && HitOf(db[k], db[k].inspections[j], lq, r) {
        if k < n {
          assert init[k] == db[k];
        }
      }
    }
  }

  /** The fields the search reads or copies agree; location, inspector, status, ids and failure type may differ. */
  predicate SameSearchFields(a: Equipment, b: Equipment)
  {
    a.name == b.name && |a.inspections| == |b.inspections| &&
    forall j :: 0 <= j < |a.inspections| ==>
      a.inspections[j].findings == b.inspections[j].findings &&
      a.inspections[j].recommendations == b.inspections[j].recommendations &&
      a.inspections[j].severity == b.inspections[j].severity &&
      a.inspections[j].date == b.inspections[j].date &&
      a.inspections[j].reportUrl == b.inspections[j].reportUrl
  }

  lemma {:induction false} HitsInIgnoresOtherFields(a: Equipment, b: Equipment, n: nat, lowerQuery: string)
    requires SameSearchFields(a, b) && n <= |a.inspections|
    ensures HitsIn(a, a.inspections[..n], lowerQuery) == HitsIn(b, b.inspections[..n], lowerQuery)
  {
    if n > 0 {
      HitsInIgnoresOtherFields(a, b, n - 1, lowerQuery);
      assert a.inspections[..n][..n - 1] == a.inspections[..n - 1];
      assert b.inspections[..n][..n - 1] == b.inspections[..n - 1];
    }
  }

  /**
    The search never consults location or failure type (nor inspector, status
    or ids): two stores that agree on the searched and copied fields give the
    same results.
   */
  lemma {:induction false} SearchIgnoresOtherFields(db1: seq<Equipment>, db2: seq<Equipment>, query: string)
    requires |db1| == |db2|
    requires forall k :: 0 <= k < |db1| ==> SameSearchFields(db1[k], db2[k])
    ensures HitsAll(db1, ToLower(query)) == HitsAll(db2, ToLower(query))
  {
    if db1 != [] {
      var n := |db1| - 1;
      SearchIgnoresOtherFields(db1[..n], db2[..n], query);
      HitsInIgnoresOtherFields(db1[n], db2[n], |db1[n].inspections|, ToLower(query));
      assert db1[n].inspections[..|db1[n].inspections|] == db1[n].inspections;
      assert db2[n].inspections[..|db2[n].inspections|] == db2[n].inspections;
    }
  }
}

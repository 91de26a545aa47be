/**
  The generator that fills the inspection store: five equipment categories of
  fifty records each, a rotating inspection scenario per record and a history
  of three to fifteen inspections. Every `Math.random()` draw arrives as an
  index already scaled to its range (`Math.floor(Math.random() * n)` is a
  number in `[0, n)`); the clock-derived dates arrive as text.
 */
module MockData {
  import opened Types
  import opened Text

  /** One entry of `CATEGORY_CONFIGS`; `kind` is the source's `type`. */
  datatype CategoryConfig = CategoryConfig(kind: string, code: string, count: nat, prefix: string)

  const CategoryConfigs: seq<CategoryConfig> := [
    CategoryConfig("Pipeline", "PL", 50, "Pipeline"),
    CategoryConfig("PSV", "PSV", 50, "PSV"),
    CategoryConfig("Pressure Vessel", "PV", 50, "Vessel"),
    CategoryConfig("Drum", "DR", 50, "Drum"),
    CategoryConfig("Heat Exchanger", "HE", 50, "Exchanger")
  ]

  /** Every category holds the same number of records. */
  const PerCategory: nat := 50

  const Locations: seq<string> := [
    "Unit 1 - Crude Distillation",
    "Unit 2 - Vacuum Distillation",
    "Unit 3 - Catalytic Cracker",
    "Unit 4 - Water Treatment",
    "Tank Farm A - Crude Storage",
    "Tank Farm B - Product Storage",
    "Interconnecting Pipeway",
    "Flare System",
    "Cooling Water Tower",
    "Boiler House"
  ]

  const Inspectors: seq<string> := [
    "J. Smith", "A. Doe", "R. Roe", "S. Connor", "B. Wayne",
    "C. Kent", "D. Prince", "L. Lane", "P. Parker", "T. Stark"
  ]

  /** One entry of `SCENARIOS`: the pools an inspection draws from. */
  datatype Scenario = Scenario(
    name: string,
    statusPool: seq<Status>,
    severityPool: seq<Severity>,
    findingsPool: seq<string>,
    recPool: seq<string>)

  const Accepted: Scenario := Scenario(
    "Accepted", [Closed], [Low],
    [ "Vibration levels within ISO acceptable limits.",
      "No visible leaks observed during hydro test.",
      "External coating intact. No corrosion observed.",
      "Ultrasonic thickness readings above minimal nominal.",
      "Visual inspection passed. Housekeeping good.",
      "Pipe supports are in good condition and fully engaged.",
      "PSV pop test passed at set pressure.",
      "No signs of external blistering or lamination.",
      "Flange connections tight, no evidence of leakage.",
      "Insulation cladding is intact and weather-proof.",
      "Tube bundle inspection clean, no significant fouling.",
      "Pass partition plates intact and secure.",
      "Channel head internal lining in good condition.",
      "Sacrificial anodes show normal consumption rate." ],
    [ "Continue routine monitoring schedule.",
      "No maintenance action required.",
      "Next inspection due in 12 months.",
      "Maintain current operating parameters.",
      "Record thickness readings in IDMS.",
      "Schedule next cleaning cycle." ])

  const Repaired: Scenario := Scenario(
    "Repaired", [Closed], [Medium, High],
    [ "Seal leak previously detected has been repaired.",
      "Patch plate welded over corroded shell area. NDT passed.",
      "Replaced damaged pressure gauge.",
      "Tightened loose coupling bolts. Alignment verified.",
      "Replaced corroded valve stem.",
      "PSV spring washer replaced and re-certified.",
      "Pipe section replaced due to localized erosion.",
      "Repainted areas with coating failure.",
      "Replaced missing bolts on flange connection.",
      "Welded support bracket that was detached.",
      "Plugged 5 leaking tubes in the bundle.",
      "Replaced channel head gasket.",
      "Chemical cleaning performed to remove scale.",
      "Re-rolled tube-to-tubesheet joints.",
      "Installed impingement plate on inlet nozzle." ],
    [ "Monitor repair for 48 hours.",
      "Repair completed successfully. Return to service.",
      "Log repair in maintenance history.",
      "Verify integrity during next shutdown.",
      "Perform IR scan within 24 hours of startup." ])

  const PendingRepair: Scenario := Scenario(
    "Pending for Repair", [Open, InProgress], [Medium, High, Critical],
    [ "Active product leak observed.",
      "High vibration (>0.5 in/s) detected during operation.",
      "Wall thickness below retirement limit (Tmin).",
      "Safety relief valve (PSV) failed pop test (lifted early).",
      "Severe pitting on shell (>40% wall loss).",
      "Structural cracks observed in support legs.",
      "Insulation damaged, causing significant heat loss.",
      "Severe external corrosion under insulation (CUI).",
      "Flange face damage requiring machining.",
      "Bellows expansion joint showing signs of fatigue cracking.",
      "Tube leak detected during pressure test.",
      "Severe fouling on shell side reducing heat transfer efficiency.",
      "Channel head showing signs of erosion-corrosion.",
      "Floating head backing ring cracked.",
      "Tubesheet ligament cracking observed." ],
    [ "Plan for immediate replacement.",
      "Schedule outage for repair.",
      "Isolate equipment and perform detailed NDT.",
      "Reduce operating pressure by 20% until repair.",
      "Emergency work order created.",
      "Barricade area to prevent access.",
      "Order replacement tube bundle.",
      "Blind off nozzle until repair can be effected." ])

  const Scenarios: seq<Scenario> := [Accepted, Repaired, PendingRepair]

  /**
    The facts about `SCENARIOS` the generator relies on: there are three, and
    the first two (Accepted and Repaired), which older inspections draw from,
    only ever close an inspection and never rate it Critical. The functions
    below are stated over any table `sc`; `GenerateMockData` passes
    `Scenarios`.
   */
  predicate SettledScenarios(sc: seq<Scenario>)
  {
    |sc| == 3 &&
    forall k :: 0 <= k < 2 ==>
      (forall s :: s in sc[k].statusPool ==> s == Closed) && Critical !in sc[k].severityPool
  }

  /** The source's table has that shape; only Pending for Repair can leave an inspection open or Critical. */
  lemma ScenariosSettled()
    ensures SettledScenarios(Scenarios)
    ensures Open in Scenarios[2].statusPool && InProgress in Scenarios[2].statusPool
    ensures Critical in Scenarios[2].severityPool
  {
    assert Scenarios[0] == Accepted && Scenarios[1] == Repaired;
  }

  /**
    The draws made for one inspection, in the source's order. `scenarioPick`
    is drawn only for an older inspection and `statusPick` only for the
    latest; `date` is the ISO date and `stamp` the year-month-day digits the
    clock gives for it.
   */
  datatype InspectionDraw = InspectionDraw(
    scenarioPick: nat,
    statusPick: nat,
    findingPick: nat,
    recPick: nat,
    severityPick: nat,
    inspectorPick: nat,
    date: string,
    stamp: string)

  /** The draws made for one record: the history length, each inspection, the location. */
  datatype RecordDraw = RecordDraw(countPick: nat, inspections: seq<InspectionDraw>, locationPick: nat)

  /** The scenario number of record `i`: the three scenarios in rotation. */
  function RecordScenario(i: nat): nat
    requires i >= 1
  {
    (i - 1) % 3
  }

  /** The scenario number an inspection draws from: the record's for the latest, else one of the first two. */
  function CurrentScenario(i: nat, j: nat, d: InspectionDraw): nat
    requires i >= 1
  {
    if j == 0 then RecordScenario(i) else d.scenarioPick
  }

  /** Every draw lies in the range `Math.floor(Math.random() * n)` produces. */
  predicate ValidInspectionDraw(sc: seq<Scenario>, i: nat, j: nat, d: InspectionDraw)
  {
    |sc| == 3 && i >= 1 && (j > 0 ==> d.scenarioPick < 2) &&
    var s := sc[CurrentScenario(i, j, d)];
    (j == 0 ==> d.statusPick < |s.statusPool|) &&
    d.findingPick < |s.findingsPool| && d.recPick < |s.recPool| &&
    d.severityPick < |s.severityPool| && d.inspectorPick < |Inspectors|
  }

  predicate ValidRecordDraw(sc: seq<Scenario>, i: nat, r: RecordDraw)
  {
    i >= 1 && r.countPick < 13 && |r.inspections| == r.countPick + 3 && r.locationPick < |Locations| &&
    forall j :: 0 <= j < |r.inspections| ==> ValidInspectionDraw(sc, i, j, r.inspections[j])
  }

  /** One list of record draws per category, one draw per record number `1..count`. */
  predicate ValidDraws(sc: seq<Scenario>, draws: seq<seq<RecordDraw>>)
  {
    |draws| == |CategoryConfigs| &&
    forall c :: 0 <= c < |draws| ==> (|draws[c]| == CategoryConfigs[c].count &&
      forall k :: 0 <= k < |draws[c]| ==> ValidRecordDraw(sc, k + 1, draws[c][k]))
  }

  /** `EQ-<code>-<i padded to three digits>`. */
  function EquipmentId(config: CategoryConfig, i: nat): string
  {
    "EQ-" + config.code + "-" + Pad3(i)
  }

  /** `<prefix>-<i padded to three digits>`. */
  function EquipmentName(config: CategoryConfig, i: nat): string
  {
    config.prefix + "-" + Pad3(i)
  }

  function ReportUrl(equipmentId: string, j: nat): string
  {
    "https://drive.google.com/open?id=report-" + equipmentId + "-" + NatToDecimal(j)
  }

  /** The inspection pushed at position `j` of record `i`. */
  function MakeInspection(sc: seq<Scenario>, equipmentId: string, i: nat, j: nat, d: InspectionDraw): Inspection
    requires ValidInspectionDraw(sc, i, j, d)
  {
    var s := sc[CurrentScenario(i, j, d)];
    Inspection(
      "INS-" + equipmentId + "-" + d.stamp,
      d.date,
      Inspectors[d.inspectorPick],
      s.findingsPool[d.findingPick],
      s.recPool[d.recPick],
      s.severityPool[d.severityPick],
      ReportUrl(equipmentId, j),
      if j == 0 then s.statusPool[d.statusPick] else Closed,
      None)
  }

  /** The inspections of record `i`, newest first. */
  function MakeInspections(sc: seq<Scenario>, equipmentId: string, i: nat, ds: seq<InspectionDraw>): (r: seq<Inspection>)
    requires forall j :: 0 <= j < |ds| ==> ValidInspectionDraw(sc, i, j, ds[j])
    ensures |r| == |ds|
  {
    seq(|ds|, j requires 0 <= j < |ds| => MakeInspection(sc, equipmentId, i, j, ds[j]))
  }

  /** The record pushed for number `i` of a category. */
  function MakeRecord(sc: seq<Scenario>, config: CategoryConfig, i: nat, r: RecordDraw): Equipment
    requires ValidRecordDraw(sc, i, r)
  {
    var id := EquipmentId(config, i);
    Equipment(id, EquipmentName(config, i), config.kind, Locations[r.locationPick],
      MakeInspections(sc, id, i, r.inspections), None)
  }

  /** The records of one category, numbered from 1. */
  function CategoryRecords(sc: seq<Scenario>, config: CategoryConfig, rs: seq<RecordDraw>): (r: seq<Equipment>)
    requires forall k :: 0 <= k < |rs| ==> ValidRecordDraw(sc, k + 1, rs[k])
    ensures |r| == |rs|
  {
    seq(|rs|, k requires 0 <= k < |rs| => MakeRecord(sc, config, k + 1, rs[k]))
  }

  /** The records of the first `n` categories, category after category. */
  function Generated(sc: seq<Scenario>, draws: seq<seq<RecordDraw>>, n: nat): seq<Equipment>
    requires ValidDraws(sc, draws) && n <= |draws|
  {
    if n == 0 then []
    else Generated(sc, draws, n - 1) + CategoryRecords(sc, CategoryConfigs[n - 1], draws[n - 1])
  }

  /** The inner `for` loop: pushes the inspections of record `i`. */
  method GenerateInspections(sc: seq<Scenario>, equipmentId: string, i: nat, ds: seq<InspectionDraw>)
    returns (inspections: seq<Inspection>)
    requires forall j :: 0 <= j < |ds| ==> ValidInspectionDraw(sc, i, j, ds[j])
    ensures inspections == MakeInspections(sc, equipmentId, i, ds)
  {
    inspections := [];
    var j := 0;
    while j < |ds|
      invariant 0 <= j <= |ds|
      invariant inspections == MakeInspections(sc, equipmentId, i, ds[..j])
    {
      inspections := inspections + [MakeInspection(sc, equipmentId, i, j, ds[j])];
      j := j + 1;
    }
    assert ds[..j] == ds;
  }

  lemma CategoryRecordsSnoc(sc: seq<Scenario>, config: CategoryConfig, rs: seq<RecordDraw>, n: nat)
    requires n < |rs|
    requires forall k :: 0 <= k < |rs| ==> ValidRecordDraw(sc, k + 1, rs[k])
    ensures CategoryRecords(sc, config, rs[..n + 1]) == CategoryRecords(sc, config, rs[..n]) + [MakeRecord(sc, config, n + 1, rs[n])]
  {
  }

  /** The body of the `for` over record numbers: builds record `i` of `config`. */
  method GenerateRecord(sc: seq<Scenario>, config: CategoryConfig, i: nat, r: RecordDraw) returns (eq: Equipment)
    requires ValidRecordDraw(sc, i, r)
    ensures eq == MakeRecord(sc, config, i, r)
  {
    var equipmentId := EquipmentId(config, i);
    var equipmentName := EquipmentName(config, i);
    var inspections := GenerateInspections(sc, equipmentId, i, r.inspections);
    eq := Equipment(equipmentId, equipmentName, config.kind, Locations[r.locationPick], inspections, None);
  }

  /** The `for` over record numbers `1..count` of one category. */
  method GenerateCategory(sc: seq<Scenario>, config: CategoryConfig, rs: seq<RecordDraw>) returns (records: seq<Equipment>)
    requires |rs| == config.count
    requires forall k :: 0 <= k < |rs| ==> ValidRecordDraw(sc, k + 1, rs[k])
    ensures records == CategoryRecords(sc, config, rs)
  {
    records := [];
    var i := 1;
    while i <= config.count
      invariant 1 <= i <= |rs| + 1
      invariant records == CategoryRecords(sc, config, rs[..i - 1])
    {
      var eq := GenerateRecord(sc, config, i, rs[i - 1]);
      CategoryRecordsSnoc(sc, config, rs, i - 1);
      records := records + [eq];
      i := i + 1;
    }
    assert rs[..i - 1] == rs;
  }

  /** `generateMockData`: the `forEach` over categories, pushing each category's records. */
  method GenerateMockData(draws: seq<seq<RecordDraw>>) returns (data: seq<Equipment>)
    requires ValidDraws(Scenarios, draws)
    ensures data == Generated(Scenarios, draws, |CategoryConfigs|)
  {
    data := [];
    var c := 0;
    while c < |CategoryConfigs|
      invariant 0 <= c <= |CategoryConfigs|
      invariant data == Generated(Scenarios, draws, c)
    {
      var records := GenerateCategory(Scenarios, CategoryConfigs[c], draws[c]);
      data := data + records;
      c := c + 1;
    }
  }

  // ----- What the generated store looks like -----

  /** Positions `50 * (n - 1) .. 50 * n - 1` are category `n - 1`. */
  lemma LastBlock(n: nat, p: nat)
    requires PerCategory * (n - 1) <= p < PerCategory * n
    ensures n >= 1 && p / PerCategory == n - 1 && p % PerCategory == p - PerCategory * (n - 1)
  {
  }

  /** Category `n - 1` ends at position `50 * n`, and each position holds the record drawn for it. */
  lemma {:induction false} GeneratedAt(sc: seq<Scenario>, draws: seq<seq<RecordDraw>>, n: nat)
    requires ValidDraws(sc, draws) && n <= |draws|
    ensures |Generated(sc, draws, n)| == PerCategory * n
    ensures forall p :: 0 <= p < PerCategory * n ==>
      Generated(sc, draws, n)[p] == MakeRecord(sc, CategoryConfigs[p / PerCategory], p % PerCategory + 1, draws[p / PerCategory][p % PerCategory])
  {
    if n > 0 {
      GeneratedAt(sc, draws, n - 1);
      var init := Generated(sc, draws, n - 1);
      var last := CategoryRecords(sc, CategoryConfigs[n - 1], draws[n - 1]);
      var all := Generated(sc, draws, n);
      assert all == init + last;
      assert |last| == PerCategory;
      forall p | PerCategory * (n - 1) <= p < PerCategory * n
        ensures all[p] == MakeRecord(sc, CategoryConfigs[p / PerCategory], p % PerCategory + 1, draws[p / PerCategory][p % PerCategory])
      {
        LastBlock(n, p);
        assert all[p] == last[p - PerCategory * (n - 1)];
      }
    }
  }

  /** An id determines the code and the number it was built from. */
  lemma EquipmentIdParts(c1: CategoryConfig, i1: nat, c2: CategoryConfig, i2: nat)
    requires i1 < 1000 && i2 < 1000
    requires EquipmentId(c1, i1) == EquipmentId(c2, i2)
    ensures c1.code == c2.code && i1 == i2
  {
    Pad3Length(i1);
    Pad3Length(i2);
    var id := EquipmentId(c1, i1);
    var head1, head2 := "EQ-" + c1.code + "-", "EQ-" + c2.code + "-";
    assert id == head1 + Pad3(i1) && id == head2 + Pad3(i2);
    assert |head1| == |head2|;
    assert Pad3(i1) == id[|head1|..] == Pad3(i2);
    assert c1.code == head1[3..3 + |c1.code|] == id[3..3 + |c1.code|];
    assert c2.code == head2[3..3 + |c2.code|] == id[3..3 + |c2.code|];
    Pad3Injective(i1, i2);
  }

  /** Records with different codes or numbers get different ids. */
  lemma EquipmentIdsDiffer(c1: CategoryConfig, i1: nat, c2: CategoryConfig, i2: nat)
    requires i1 < 1000 && i2 < 1000
    requires c1.code != c2.code || i1 != i2
    ensures EquipmentId(c1, i1) != EquipmentId(c2, i2)
  {
    if EquipmentId(c1, i1) == EquipmentId(c2, i2) {
      EquipmentIdParts(c1, i1, c2, i2);
    }
  }

  /** The five categories have five different codes. */
  lemma CodesDistinct(c1: nat, c2: nat)
    requires c1 < |CategoryConfigs| && c2 < |CategoryConfigs| && c1 != c2
    ensures CategoryConfigs[c1].code != CategoryConfigs[c2].code
  {
  }

  /**
    The generated store has 5 x 50 = 250 records and no two of them share an
    id; record `p` is number `p % 50 + 1` of category `p / 50`.
   */
  lemma GeneratedIdsDistinct(sc: seq<Scenario>, draws: seq<seq<RecordDraw>>)
    requires ValidDraws(sc, draws)
    ensures var data := Generated(sc, draws, |CategoryConfigs|);
      |data| == 250 &&
      (forall p :: 0 <= p < |data| ==>
        data[p].id == EquipmentId(CategoryConfigs[p / PerCategory], p % PerCategory + 1) &&
        data[p].name == EquipmentName(CategoryConfigs[p / PerCategory], p % PerCategory + 1) &&
        data[p].kind == CategoryConfigs[p / PerCategory].kind) &&
      forall p, q :: 0 <= p < q < |data| ==> data[p].id != data[q].id
  {
    var data := Generated(sc, draws, |CategoryConfigs|);
    GeneratedAt(sc, draws, |CategoryConfigs|);
    forall p, q | 0 <= p < q < |data| ensures data[p].id != data[q].id {
      var c1, c2 := p / PerCategory, q / PerCategory;
      if c1 != c2 {
        CodesDistinct(c1, c2);
      } else {
        assert p % PerCategory != q % PerCategory;
      }
      EquipmentIdsDiffer(CategoryConfigs[c1], p % PerCategory + 1, CategoryConfigs[c2], q % PerCategory + 1);
    }
  }

  /** The inspection drew its finding, recommendation and severity from Accepted or from Repaired. */
  predicate DrawnFromSettled(sc: seq<Scenario>, ins: Inspection)
  {
    exists k :: 0 <= k < 2 && k < |sc| &&
      ins.findings in sc[k].findingsPool && ins.recommendations in sc[k].recPool &&
      ins.severity in sc[k].severityPool
  }

  /**
    The history of record `i`: 3 to 15 inspections; the latest drawn from the
    record's scenario `(i - 1) % 3`, status included; every older one Closed
    and drawn from Accepted or Repaired, hence never Critical.
   */
  lemma RecordHistory(sc: seq<Scenario>, config: CategoryConfig, i: nat, r: RecordDraw)
    requires SettledScenarios(sc) && ValidRecordDraw(sc, i, r)
    ensures var inss := MakeRecord(sc, config, i, r).inspections;
      var s := sc[RecordScenario(i)];
      3 <= |inss| <= 15 &&
      inss[0].status in s.statusPool && inss[0].severity in s.severityPool &&
      inss[0].findings in s.findingsPool && inss[0].recommendations in s.recPool &&
      forall j :: 1 <= j < |inss| ==>
        inss[j].status == Closed && DrawnFromSettled(sc, inss[j]) && inss[j].severity != Critical
  {
    var id := EquipmentId(config, i);
    var inss := MakeRecord(sc, config, i, r).inspections;
    forall j | 1 <= j < |inss|
      ensures inss[j].status == Closed && DrawnFromSettled(sc, inss[j]) && inss[j].severity != Critical
    {
      var d := r.inspections[j];
      var k := d.scenarioPick;
      assert inss[j] == MakeInspection(sc, id, i, j, d);
      assert inss[j].severity == sc[k].severityPool[d.severityPick];
      assert inss[j].findings == sc[k].findingsPool[d.findingPick];
      assert inss[j].recommendations == sc[k].recPool[d.recPick];
    }
  }

  /** Only the latest inspection of a Pending-for-Repair record can be open, in progress or Critical. */
  lemma OpenOnlyWhenPending(sc: seq<Scenario>, config: CategoryConfig, i: nat, r: RecordDraw, j: nat)
    requires SettledScenarios(sc) && ValidRecordDraw(sc, i, r) && j < |r.inspections|
    ensures var ins := MakeRecord(sc, config, i, r).inspections[j];
      (ins.status != Closed || ins.severity == Critical) ==> j == 0 && i % 3 == 0
  {
    var d := r.inspections[j];
    var ins := MakeRecord(sc, config, i, r).inspections[j];
    assert ins == MakeInspection(sc, EquipmentId(config, i), i, j, d);
    var k := CurrentScenario(i, j, d);
    if j > 0 || i % 3 != 0 {
      assert k < 2 by {
        if j == 0 {
          assert k == (i - 1) % 3 && (i - 1) % 3 != 2;
        }
      }
      var pool := sc[k];
      assert Critical !in pool.severityPool;
      assert ins.severity in pool.severityPool;
      if j == 0 {
        assert ins.status in pool.statusPool;
      }
    }
  }
}

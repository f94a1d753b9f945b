/**
 * App.tsx: the farm session held by the dashboard component, its event
 * handlers, and the daily-water estimate derived from the selected profiles.
 */
module App {
  import opened Types
  import opened Geometry

  // ---------------------------------------------------------------------------
  // Profile lookup and the daily-water estimate
  // ---------------------------------------------------------------------------

  /** `Array.prototype.find`: the first element satisfying `p`, if any. */
  function Find<T>(xs: seq<T>, p: T -> bool): (r: Option<T>)
    ensures r.None? <==> forall i :: 0 <= i < |xs| ==> !p(xs[i])
    ensures r.Some? ==> exists i :: 0 <= i < |xs| && xs[i] == r.value && p(xs[i])
                                    && forall j :: 0 <= j < i ==> !p(xs[j])
  {
    if xs == [] then None
    else if p(xs[0]) then Some(xs[0])
    else
      var r := Find(xs[1..], p);
      assert r.Some? ==> exists i :: 1 <= i < |xs| && xs[i] == r.value && p(xs[i])
                                     && forall j :: 0 <= j < i ==> !p(xs[j]) by {
        if r.Some? {
          var i :| 0 <= i < |xs| - 1 && xs[1..][i] == r.value && p(xs[1..][i])
                   && forall j :: 0 <= j < i ==> !p(xs[1..][j]);
          assert forall j :: 0 <= j < i + 1 ==> !p(xs[j]) by {
            forall j | 0 <= j < i + 1 ensures !p(xs[j]) {
              if j > 0 {
                assert xs[j] == xs[1..][j - 1];
              }
            }
          }
        }
      }
      r
  }

  /** `i` is the first index whose element satisfies `p`. */
  ghost predicate FirstMatch<T>(xs: seq<T>, p: T -> bool, i: int) {
    0 <= i < |xs| && p(xs[i]) && forall j :: 0 <= j < i ==> !p(xs[j])
  }

  /** `find` returns the element at the first matching index. */
  lemma FindFirst<T>(xs: seq<T>, p: T -> bool, i: int)
    requires FirstMatch(xs, p, i)
    ensures Find(xs, p) == Some(xs[i])
  {
    var r := Find(xs, p);
    var k :| 0 <= k < |xs| && xs[k] == r.value && p(xs[k]) && forall j :: 0 <= j < k ==> !p(xs[j]);
    assert k == i;
  }

  /** `CROP_PROFILES.find(c => c.id === id)`. */
  function CropById(crops: seq<CropProfile>, id: string): Option<CropProfile> {
    Find(crops, (c: CropProfile) => c.id == id)
  }

  /** `SOIL_PROFILES.find(s => s.id === id)`. */
  function SoilById(soils: seq<SoilProfile>, id: string): Option<SoilProfile> {
    Find(soils, (s: SoilProfile) => s.id == id)
  }

  /** `crop?.waterNeedsPerDay || 0`: a missing crop or a zero need counts as 0. */
  function CropNeed(crop: Option<CropProfile>): real {
    if crop.Some? && crop.value.waterNeedsPerDay != 0.0 then crop.value.waterNeedsPerDay else 0.0
  }

  /** `soil?.retentionFactor || 1`: a missing soil or a zero factor counts as 1. */
  function SoilFactor(soil: Option<SoilProfile>): real {
    if soil.Some? && soil.value.retentionFactor != 0.0 then soil.value.retentionFactor else 1.0
  }

  /** The daily water estimate in litres: area x crop need x soil retention factor. */
  function DailyWater(areaSqm: real, crops: seq<CropProfile>, soils: seq<SoilProfile>,
                      cropId: string, soilId: string): real
  {
    areaSqm * CropNeed(CropById(crops, cropId)) * SoilFactor(SoilById(soils, soilId))
  }

  /** Every crop's need and every soil's factor is non-negative. */
  ghost predicate NonNegativeProfiles(crops: seq<CropProfile>, soils: seq<SoilProfile>) {
    && (forall i :: 0 <= i < |crops| ==> crops[i].waterNeedsPerDay >= 0.0)
    && (forall i :: 0 <= i < |soils| ==> soils[i].retentionFactor >= 0.0)
  }

  /** With both ids found at indices `i` and `j` (their first matches), the estimate uses those profiles. */
  lemma DailyWaterFirstMatch(areaSqm: real, crops: seq<CropProfile>, soils: seq<SoilProfile>,
                             cropId: string, soilId: string, i: int, j: int)
    requires FirstMatch(crops, (c: CropProfile) => c.id == cropId, i)
    requires FirstMatch(soils, (s: SoilProfile) => s.id == soilId, j)
    requires soils[j].retentionFactor != 0.0
    ensures DailyWater(areaSqm, crops, soils, cropId, soilId)
            == areaSqm * crops[i].waterNeedsPerDay * soils[j].retentionFactor
  {
    FindFirst(crops, (c: CropProfile) => c.id == cropId, i);
    FindFirst(soils, (s: SoilProfile) => s.id == soilId, j);
  }

  /** An unknown crop id gives no water at all. */
  lemma DailyWaterUnknownCrop(areaSqm: real, crops: seq<CropProfile>, soils: seq<SoilProfile>,
                              cropId: string, soilId: string)
    requires forall i :: 0 <= i < |crops| ==> crops[i].id != cropId
    ensures DailyWater(areaSqm, crops, soils, cropId, soilId) == 0.0
  {
    assert CropById(crops, cropId) == None;
  }

  /** An unknown soil id, or a soil whose factor is 0, leaves the crop need unscaled. */
  lemma DailyWaterNeutralSoil(areaSqm: real, crops: seq<CropProfile>, soils: seq<SoilProfile>,
                              cropId: string, soilId: string)
    requires (forall j :: 0 <= j < |soils| ==> soils[j].id != soilId)
          || (exists j :: FirstMatch(soils, (s: SoilProfile) => s.id == soilId, j) && soils[j].retentionFactor == 0.0)
    ensures DailyWater(areaSqm, crops, soils, cropId, soilId)
            == areaSqm * CropNeed(CropById(crops, cropId))
  {
    if !forall j :: 0 <= j < |soils| ==> soils[j].id != soilId {
      var j :| FirstMatch(soils, (s: SoilProfile) => s.id == soilId, j) && soils[j].retentionFactor == 0.0;
      FindFirst(soils, (s: SoilProfile) => s.id == soilId, j);
    }
  }

  /** No area, no water. */
  lemma DailyWaterZeroArea(crops: seq<CropProfile>, soils: seq<SoilProfile>, cropId: string, soilId: string)
    ensures DailyWater(0.0, crops, soils, cropId, soilId) == 0.0
  {
  }

  /** With non-negative profiles, a non-negative area gives a non-negative estimate. */
  lemma DailyWaterNonNegative(areaSqm: real, crops: seq<CropProfile>, soils: seq<SoilProfile>,
                              cropId: string, soilId: string)
    requires areaSqm >= 0.0
    requires NonNegativeProfiles(crops, soils)
    ensures DailyWater(areaSqm, crops, soils, cropId, soilId) >= 0.0
  {
    DailyWaterMonotone(0.0, areaSqm, crops, soils, cropId, soilId);
  }

  /** With non-negative profiles, a larger area never lowers the estimate. */
  lemma DailyWaterMonotone(a1: real, a2: real, crops: seq<CropProfile>, soils: seq<SoilProfile>,
                           cropId: string, soilId: string)
    requires a1 <= a2
    requires NonNegativeProfiles(crops, soils)
    ensures DailyWater(a1, crops, soils, cropId, soilId) <= DailyWater(a2, crops, soils, cropId, soilId)
  {
    var crop := CropById(crops, cropId);
    var soil := SoilById(soils, soilId);
    var need := CropNeed(crop);
    var factor := SoilFactor(soil);
    assert need >= 0.0;
    assert factor >= 0.0;
    var k := need * factor;
    assert k >= 0.0;
    assert (a2 - a1) * k >= 0.0;
    assert DailyWater(a1, crops, soils, cropId, soilId) == a1 * k;
    assert DailyWater(a2, crops, soils, cropId, soilId) == a2 * k;
  }

  /**
   * With the crop found first at `i`, a larger water need never lowers the
   * estimate, for a non-negative area and non-negative soil factors.
   */
  lemma DailyWaterMonotoneNeed(areaSqm: real, crops: seq<CropProfile>, soils: seq<SoilProfile>,
                               cropId: string, soilId: string, i: int, n1: real, n2: real)
    requires FirstMatch(crops, (c: CropProfile) => c.id == cropId, i)
    requires areaSqm >= 0.0 && 0.0 <= n1 <= n2
    requires forall j :: 0 <= j < |soils| ==> soils[j].retentionFactor >= 0.0
    ensures DailyWater(areaSqm, crops[i := crops[i].(waterNeedsPerDay := n1)], soils, cropId, soilId)
            <= DailyWater(areaSqm, crops[i := crops[i].(waterNeedsPerDay := n2)], soils, cropId, soilId)
  {
    var low := crops[i := crops[i].(waterNeedsPerDay := n1)];
    var high := crops[i := crops[i].(waterNeedsPerDay := n2)];
    FindFirst(low, (c: CropProfile) => c.id == cropId, i);
    FindFirst(high, (c: CropProfile) => c.id == cropId, i);
    var factor := SoilFactor(SoilById(soils, soilId));
    assert factor >= 0.0;
    assert areaSqm * n1 <= areaSqm * n2;
    assert areaSqm * n1 * factor <= areaSqm * n2 * factor;
  }

  /**
   * With the soil found first at `j`, a larger non-zero retention factor never
   * lowers the estimate, for a non-negative area and non-negative crop needs.
   * A factor of 0 is excluded: `|| 1` turns it into 1 (see
   * `DailyWaterFactorZeroExceedsHalf`).
   */
  lemma DailyWaterMonotoneFactor(areaSqm: real, crops: seq<CropProfile>, soils: seq<SoilProfile>,
                                 cropId: string, soilId: string, j: int, f1: real, f2: real)
    requires FirstMatch(soils, (s: SoilProfile) => s.id == soilId, j)
    requires areaSqm >= 0.0 && 0.0 < f1 <= f2
    requires forall i :: 0 <= i < |crops| ==> crops[i].waterNeedsPerDay >= 0.0
    ensures DailyWater(areaSqm, crops, soils[j := soils[j].(retentionFactor := f1)], cropId, soilId)
            <= DailyWater(areaSqm, crops, soils[j := soils[j].(retentionFactor := f2)], cropId, soilId)
  {
    var low := soils[j := soils[j].(retentionFactor := f1)];
    var high := soils[j := soils[j].(retentionFactor := f2)];
    FindFirst(low, (s: SoilProfile) => s.id == soilId, j);
    FindFirst(high, (s: SoilProfile) => s.id == soilId, j);
    var need := CropNeed(CropById(crops, cropId));
    assert need >= 0.0;
    var k := areaSqm * need;
    assert k >= 0.0 by {
      ScaleMonotone(areaSqm, 0.0, need);
    }
    assert SoilFactor(SoilById(low, soilId)) == f1;
    assert SoilFactor(SoilById(high, soilId)) == f2;
    ScaleMonotone(k, f1, f2);
  }

  /** Multiplying by a non-negative factor keeps the order. */
  lemma ScaleMonotone(k: real, x: real, y: real)
    requires k >= 0.0 && x <= y
    ensures k * x <= k * y
  {
    assert k * y - k * x == k * (y - x);
  }

  /**
   * The estimate is not monotone in the retention factor: `|| 1` reads a
   * factor of 0 as 1, so on 1 square metre of a crop needing 1 litre a soil
   * with factor 0 gets 1 litre and a soil with factor 0.5 gets 0.5 litres.
   */
  lemma DailyWaterFactorZeroExceedsHalf()
    ensures DailyWater(1.0, [CropProfile("c", "c", 1.0, 0)], [SoilProfile("s", "s", 0.0, "")], "c", "s") == 1.0
    ensures DailyWater(1.0, [CropProfile("c", "c", 1.0, 0)], [SoilProfile("s", "s", 0.5, "")], "c", "s") == 0.5
  {
    FindFirst([CropProfile("c", "c", 1.0, 0)], (c: CropProfile) => c.id == "c", 0);
    FindFirst([SoilProfile("s", "s", 0.0, "")], (s: SoilProfile) => s.id == "s", 0);
    FindFirst([SoilProfile("s", "s", 0.5, "")], (s: SoilProfile) => s.id == "s", 0);
  }

  /** A known value: 1000 square metres of a crop needing 5 litres, on soil retaining 1.2, needs 6000 litres. */
  lemma DailyWaterExample()
    ensures DailyWater(1000.0, [CropProfile("rice", "Rice", 5.0, 120)],
                       [SoilProfile("clay", "Clay", 1.2, "")], "rice", "clay") == 6000.0
  {
    DailyWaterFirstMatch(1000.0, [CropProfile("rice", "Rice", 5.0, 120)],
                         [SoilProfile("clay", "Clay", 1.2, "")], "rice", "clay", 0, 0);
  }

  // ---------------------------------------------------------------------------
  // The session: FarmState, the system log and the advice slot
  // ---------------------------------------------------------------------------

  /** The log's first line when the dashboard opens. */
  const InitialLog: string := "AgriFlow พร้อมทำงาน..."

  /** The log keeps this many lines, newest first. */
  const LogCapacity: nat := 5

  /** The line `toggleIrrigation` writes for each mode. */
  function IrrigationMessage(status: IrrigationStatus): string {
    match status
    case On => "เปิดวาล์วน้ำ (Manual)"
    case Auto => "ระบบอัตโนมัติทำงาน"
    case Off => "ปิดระบบ"
  }

  /** `[msg, ...log.slice(0, 4)]`: the new line first, then at most four older ones in order. */
  function PushLog(log: seq<string>, msg: string): (r: seq<string>)
    ensures 1 <= |r| <= LogCapacity
    ensures |r| == if |log| < LogCapacity then |log| + 1 else LogCapacity
    ensures r[0] == msg
    ensures forall i :: 1 <= i < |r| ==> r[i] == log[i - 1]
  {
    [msg] + log[..if |log| < LogCapacity - 1 then |log| else LogCapacity - 1]
  }

  /** What the soil estimator returns: a soil id (possibly empty) and its reason. */
  datatype SoilEstimate = SoilEstimate(soilId: string, reason: string)

  /** The structured advice the advisory service returns. */
  datatype Advice = Advice(dailyWaterNeeds: string, bestTiming: string, precautions: seq<string>, automationTips: string)

  /** What `handleGetAdvice` sends to the advisory service. */
  datatype AdviceRequest = AdviceRequest(areaSqm: real, cropName: string, soilName: string)

  /** `crop?.name || 'พืช'`. */
  function CropName(crop: Option<CropProfile>): string {
    if crop.Some? && crop.value.name != "" then crop.value.name else "พืช"
  }

  /** `soil?.name || 'ดิน'`. */
  function SoilName(soil: Option<SoilProfile>): string {
    if soil.Some? && soil.value.name != "" then soil.value.name else "ดิน"
  }

  /** The line the soil estimate writes to the log. */
  function SoilLogMessage(reason: string): string {
    "AI วิเคราะห์ดิน: " + reason
  }

  /**
   * The dashboard component's state. The profile tables and the projection's
   * floating-point environment are fixed for the session.
   */
  class FarmSession {
    const trig: Trig
    const crops: seq<CropProfile>
    const soils: seq<SoilProfile>
    var farm: FarmState
    var aiAdvice: Option<Advice>
    var systemLog: seq<string>

    /** The area always belongs to the current boundary, and the log holds one to five lines. */
    ghost predicate Valid()
      reads this
    {
      && farm.areaSqm == Area(trig, farm.points)
      && 1 <= |systemLog| <= LogCapacity
    }

    /** The session as the page opens: no points, the first profiles selected, irrigation off. */
    constructor (t: Trig, cropTable: seq<CropProfile>, soilTable: seq<SoilProfile>)
      requires |cropTable| > 0 && |soilTable| > 0
      ensures Valid()
      ensures trig == t && crops == cropTable && soils == soilTable
      ensures farm == FarmState([], 0.0, cropTable[0].id, soilTable[0].id, Off, false)
      ensures aiAdvice == None
      ensures systemLog == [InitialLog]
    {
      trig := t;
      crops := cropTable;
      soils := soilTable;
      farm := FarmState([], 0.0, cropTable[0].id, soilTable[0].id, Off, false);
      aiAdvice := None;
      systemLog := [InitialLog];
    }

    /** `addPoint`: append the coordinate and recompute the area; nothing else changes. */
    method AddPoint(coord: Coordinate)
      requires Valid()
      modifies this
      ensures Valid()
      ensures farm.points == old(farm.points) + [coord]
      ensures farm.areaSqm == Area(trig, farm.points)
      ensures farm.selectedCrop == old(farm.selectedCrop) && farm.selectedSoil == old(farm.selectedSoil)
      ensures farm.irrigationStatus == old(farm.irrigationStatus) && farm.isRecording == old(farm.isRecording)
      ensures aiAdvice == old(aiAdvice) && systemLog == old(systemLog)
    {
      var newPoints := farm.points + [coord];
      var area := CalculateArea(trig, newPoints);
      farm := farm.(points := newPoints, areaSqm := area);
    }

    /** `clearPoints`: forget the boundary and the advice; selections and irrigation stay. */
    method ClearPoints()
      requires Valid()
      modifies this
      ensures Valid()
      ensures farm == old(farm).(points := [], areaSqm := 0.0)
      ensures aiAdvice == None
      ensures systemLog == old(systemLog)
    {
      farm := farm.(points := [], areaSqm := 0.0);
      aiAdvice := None;
    }

    /** The crop selector: replace the crop id, whatever it is. */
    method SelectCrop(id: string)
      requires Valid()
      modifies this
      ensures Valid()
      ensures farm == old(farm).(selectedCrop := id)
      ensures aiAdvice == old(aiAdvice) && systemLog == old(systemLog)
    {
      farm := farm.(selectedCrop := id);
    }

    /** The soil selector: replace the soil id, whatever it is. */
    method SelectSoil(id: string)
      requires Valid()
      modifies this
      ensures Valid()
      ensures farm == old(farm).(selectedSoil := id)
      ensures aiAdvice == old(aiAdvice) && systemLog == old(systemLog)
    {
      farm := farm.(selectedSoil := id);
    }

    /** `toggleIrrigation`: set the mode and log the matching line, newest first, at most five. */
    method ToggleIrrigation(status: IrrigationStatus)
      requires Valid()
      modifies this
      ensures Valid()
      ensures farm == old(farm).(irrigationStatus := status)
      ensures systemLog == PushLog(old(systemLog), IrrigationMessage(status))
      ensures aiAdvice == old(aiAdvice)
    {
      farm := farm.(irrigationStatus := status);
      systemLog := PushLog(systemLog, IrrigationMessage(status));
    }

    /**
     * `handleAutoSoilEstimate`, with the estimator's reply as a parameter.
     * With no points it asks nothing and changes nothing; otherwise it asks
     * about the first point, and a reply carrying a non-empty soil id selects
     * that id (unchecked against the soil table) and logs the reason.
     */
    method AutoSoilEstimate(reply: Option<SoilEstimate>) returns (query: Option<Coordinate>)
      requires Valid()
      modifies this
      ensures Valid()
      ensures query == if old(farm.points) == [] then None else Some(old(farm.points)[0])
      ensures if query.Some? && reply.Some? && reply.value.soilId != "" then
                && farm == old(farm).(selectedSoil := reply.value.soilId)
                && systemLog == PushLog(old(systemLog), SoilLogMessage(reply.value.reason))
              else
                farm == old(farm) && systemLog == old(systemLog)
      ensures aiAdvice == old(aiAdvice)
    {
      if |farm.points| == 0 {
        return None;
      }
      query := Some(farm.points[0]);
      if reply.Some? && reply.value.soilId != "" {
        farm := farm.(selectedSoil := reply.value.soilId);
        systemLog := PushLog(systemLog, SoilLogMessage(reply.value.reason));
      }
    }

    /**
     * `handleGetAdvice`, with the service's reply as a parameter (None when it
     * failed). With no positive area it asks nothing; otherwise it sends the
     * area and the names of the selected profiles, and stores the reply.
     */
    method GetAdvice(reply: Option<Advice>) returns (request: Option<AdviceRequest>)
      requires Valid()
      modifies this
      ensures Valid()
      ensures request == if old(farm.areaSqm) <= 0.0 then None
                         else Some(AdviceRequest(old(farm.areaSqm),
                                                 CropName(CropById(crops, old(farm.selectedCrop))),
                                                 SoilName(SoilById(soils, old(farm.selectedSoil)))))
      ensures aiAdvice == if request.None? then old(aiAdvice) else reply
      ensures farm == old(farm) && systemLog == old(systemLog)
    {
      if farm.areaSqm <= 0.0 {
        return None;
      }
      var crop := CropById(crops, farm.selectedCrop);
      var soil := SoilById(soils, farm.selectedSoil);
      request := Some(AdviceRequest(farm.areaSqm, CropName(crop), SoilName(soil)));
      aiAdvice := reply;
    }

    /** The litres per day the dashboard shows for the current selection. */
    function DailyWaterVolume(): real
      reads this
    {
      DailyWater(farm.areaSqm, crops, soils, farm.selectedCrop, farm.selectedSoil)
    }

    /** The area figure the dashboard shows. */
    function AreaText(): string
      reads this
    {
      FormatThaiArea(farm.areaSqm)
    }
  }

  /**
   * The figures the dashboard shows follow from the invariant: with fewer than
   * three points the area is 0, so it reads as zeros and needs no water.
   */
  lemma FewPointsNoWater(s: FarmSession)
    requires s.Valid() && |s.farm.points| < 3
    ensures s.DailyWaterVolume() == 0.0
    ensures s.AreaText() == "0 ไร่ 0 งาน 0.00 ตร.ว."
  {
    assert s.farm.areaSqm == 0.0;
    FormatThaiAreaExamples();
  }

  /** A traced session: three points, irrigation on, a soil reply, then a clear. */
  method SessionExample(t: Trig, a: Coordinate, b: Coordinate, c: Coordinate)
  {
    var crops := [CropProfile("rice", "ข้าว", 5.0, 120)];
    var soils := [SoilProfile("clay", "ดินเหนียว", 1.2, ""), SoilProfile("sand", "ดินทราย", 1.5, "")];
    var s := new FarmSession(t, crops, soils);
    s.AddPoint(a);
    s.AddPoint(b);
    assert s.farm.areaSqm == 0.0;
    s.AddPoint(c);
    assert s.farm.points == [a, b, c];
    s.ToggleIrrigation(On);
    assert s.systemLog == ["เปิดวาล์วน้ำ (Manual)", InitialLog];
    var q := s.AutoSoilEstimate(Some(SoilEstimate("sand", "ทราย")));
    assert q == Some(a) && s.farm.selectedSoil == "sand";
    s.ClearPoints();
    assert s.farm.areaSqm == 0.0 && s.farm.selectedSoil == "sand" && s.farm.irrigationStatus == On;
    var r := s.GetAdvice(None);
    assert r == None;
  }
}

/**
 * The dashboard's status logic: the band and progress percentage computed from
 * a reading, the colour and badge classes of a status, and the list of
 * critical alerts built from the readings' stored status.
 *
 * A reading's stored `status` and the band computed from its value are two
 * different things: the mock data labels some readings differently from what
 * the thresholds say (see `MockStatusesDisagreeWithBands`).
 */
module Dashboard {

  /** The four status bands, best first. */
  datatype Band = Good | Moderate | Poor | Hazardous

  /** The status string the source uses for each band. */
  function BandName(b: Band): string {
    match b
    case Good => "good"
    case Moderate => "moderate"
    case Poor => "poor"
    case Hazardous => "hazardous"
  }

  /** How bad a band is: 0 for good up to 3 for hazardous. */
  function Rank(b: Band): nat {
    match b
    case Good => 0
    case Moderate => 1
    case Poor => 2
    case Hazardous => 3
  }

  /** An environmental reading; `kind` is "air", "water" or "temperature", `status` is its stored label. */
  datatype Reading = Reading(id: string, kind: string, value: real, unit: string, location: string, status: string)

  /** The result of `getStatusProgress`: a percentage for the progress bar and the computed band. */
  datatype Progress = Progress(percent: real, band: Band)

  predicate IsKnownStatus(s: string) {
    s == "good" || s == "moderate" || s == "poor" || s == "hazardous"
  }

  const GreyColor: string := "bg-gray-500"
  const GreyBadge: string := "bg-gray-100 text-gray-800"

  /** `getStatusColor`: the progress-bar colour class of a status; grey for an unknown string. */
  function StatusColor(status: string): (c: string)
    ensures c == GreyColor <==> !IsKnownStatus(status)
  {
    if status == "good" then "bg-green-500"
    else if status == "moderate" then "bg-yellow-500"
    else if status == "poor" then "bg-orange-500"
    else if status == "hazardous" then "bg-red-500"
    else GreyColor
  }

  /** `getStatusBadge`: the badge classes of a status; grey for an unknown string. */
  function StatusBadge(status: string): (c: string)
    ensures c == GreyBadge <==> !IsKnownStatus(status)
  {
    if status == "good" then "bg-green-100 text-green-800"
    else if status == "moderate" then "bg-yellow-100 text-yellow-800"
    else if status == "poor" then "bg-orange-100 text-orange-800"
    else if status == "hazardous" then "bg-red-100 text-red-800"
    else GreyBadge
  }

  /** Distinct known statuses get distinct colours and distinct badges. */
  lemma StatusStylesDistinct(s: string, t: string)
    requires IsKnownStatus(s) && IsKnownStatus(t) && s != t
    ensures StatusColor(s) != StatusColor(t)
    ensures StatusBadge(s) != StatusBadge(t)
  {
  }

  /** Every computed band is drawn in a colour of its own, never the grey default. */
  lemma BandNeverGrey(b: Band)
    ensures IsKnownStatus(BandName(b))
    ensures StatusColor(BandName(b)) != GreyColor && StatusBadge(BandName(b)) != GreyBadge
  {
  }

  /** Water quality is the one kind where a higher reading is better. */
  predicate HigherIsBetter(kind: string) {
    kind == "water"
  }

  /** Values for which the source's progress bar stays within 0..100. */
  predicate InGaugeRange(kind: string, value: real) {
    if HigherIsBetter(kind) then value <= 100.0 else 0.0 <= value
  }

  /** `getStatusProgress`: the band of a reading and how far the reading lies into it. */
  function StatusProgress(value: real, kind: string): (p: Progress)
    ensures p.band == Hazardous ==> p.percent == 100.0
    ensures InGaugeRange(kind, value) ==> 0.0 <= p.percent <= 100.0
  {
    if kind == "air" then
      if value <= 50.0 then Progress((value / 50.0) * 100.0, Good)
      else if value <= 100.0 then Progress(((value - 50.0) / 50.0) * 100.0, Moderate)
      else if value <= 150.0 then Progress(((value - 100.0) / 50.0) * 100.0, Poor)
      else Progress(100.0, Hazardous)
    else if kind == "water" then
      if value >= 80.0 then Progress(((value - 80.0) / 20.0) * 100.0, Good)
      else if value >= 50.0 then Progress(((value - 50.0) / 30.0) * 100.0, Moderate)
      else if value >= 20.0 then Progress(((value - 20.0) / 30.0) * 100.0, Poor)
      else Progress(100.0, Hazardous)
    else
      if value <= 25.0 then Progress((value / 25.0) * 100.0, Good)
      else if value <= 32.0 then Progress(((value - 25.0) / 7.0) * 100.0, Moderate)
      else if value <= 40.0 then Progress(((value - 32.0) / 8.0) * 100.0, Poor)
      else Progress(100.0, Hazardous)
  }

  // An independent description of the bands: the band boundaries of each
  // kind, listed from the best band outwards, and the number of boundaries a
  // reading has crossed.

  function Boundaries(kind: string): seq<real> {
    if kind == "air" then [50.0, 100.0, 150.0]
    else if kind == "water" then [80.0, 50.0, 20.0]
    else [25.0, 32.0, 40.0]
  }

  /** The number of boundaries strictly below `v`. */
  function CountBelow(bounds: seq<real>, v: real): (n: nat)
    ensures n <= |bounds|
  {
    if bounds == [] then 0 else (if bounds[0] < v then 1 else 0) + CountBelow(bounds[1..], v)
  }

  /** The number of boundaries strictly above `v`. */
  function CountAbove(bounds: seq<real>, v: real): (n: nat)
    ensures n <= |bounds|
  {
    if bounds == [] then 0 else (if v < bounds[0] then 1 else 0) + CountAbove(bounds[1..], v)
  }

  /** The band's rank is the number of boundaries the reading has crossed on the bad side. */
  function CrossedBoundaries(kind: string, v: real): nat {
    if HigherIsBetter(kind) then CountAbove(Boundaries(kind), v) else CountBelow(Boundaries(kind), v)
  }

  lemma BandFollowsBoundaries(v: real, kind: string)
    ensures Rank(StatusProgress(v, kind).band) == CrossedBoundaries(kind, v)
  {
    CountsOfThree(Boundaries(kind), v);
  }

  lemma CountsOfThree(bounds: seq<real>, v: real)
    requires |bounds| == 3
    ensures CountBelow(bounds, v) ==
      (if bounds[0] < v then 1 else 0) + (if bounds[1] < v then 1 else 0) + (if bounds[2] < v then 1 else 0)
    ensures CountAbove(bounds, v) ==
      (if v < bounds[0] then 1 else 0) + (if v < bounds[1] then 1 else 0) + (if v < bounds[2] then 1 else 0)
  {
    var t1 := bounds[1..];
    var t2 := t1[1..];
    assert t1[0] == bounds[1] && t2[0] == bounds[2] && t2[1..] == [];
    assert CountBelow(t2, v) == (if bounds[2] < v then 1 else 0) + CountBelow(t2[1..], v);
    assert CountAbove(t2, v) == (if v < bounds[2] then 1 else 0) + CountAbove(t2[1..], v);
  }

  lemma {:induction false} CountBelowMonotone(bounds: seq<real>, v: real, w: real)
    requires v <= w
    ensures CountBelow(bounds, v) <= CountBelow(bounds, w)
  {
    if bounds != [] {
      CountBelowMonotone(bounds[1..], v, w);
    }
  }

  lemma {:induction false} CountAboveAntitone(bounds: seq<real>, v: real, w: real)
    requires v <= w
    ensures CountAbove(bounds, w) <= CountAbove(bounds, v)
  {
    if bounds != [] {
      CountAboveAntitone(bounds[1..], v, w);
    }
  }

  /**
   * Raising the reading never improves the band of air or temperature and
   * never worsens the band of water.
   */
  lemma BandMonotone(kind: string, v: real, w: real)
    requires v <= w
    ensures !HigherIsBetter(kind) ==> Rank(StatusProgress(v, kind).band) <= Rank(StatusProgress(w, kind).band)
    ensures HigherIsBetter(kind) ==> Rank(StatusProgress(w, kind).band) <= Rank(StatusProgress(v, kind).band)
  {
    BandFollowsBoundaries(v, kind);
    BandFollowsBoundaries(w, kind);
    CountBelowMonotone(Boundaries(kind), v, w);
    CountAboveAntitone(Boundaries(kind), v, w);
  }

  lemma AirBands(v: real)
    ensures StatusProgress(v, "air").band == Good <==> v <= 50.0
    ensures StatusProgress(v, "air").band == Moderate <==> 50.0 < v <= 100.0
    ensures StatusProgress(v, "air").band == Poor <==> 100.0 < v <= 150.0
    ensures StatusProgress(v, "air").band == Hazardous <==> 150.0 < v
  {
  }

  lemma WaterBands(v: real)
    ensures StatusProgress(v, "water").band == Good <==> 80.0 <= v
    ensures StatusProgress(v, "water").band == Moderate <==> 50.0 <= v < 80.0
    ensures StatusProgress(v, "water").band == Poor <==> 20.0 <= v < 50.0
    ensures StatusProgress(v, "water").band == Hazardous <==> v < 20.0
  {
  }

  /** Every kind other than "air" and "water" is judged by the temperature thresholds. */
  lemma TemperatureBands(v: real, kind: string)
    requires kind != "air" && kind != "water"
    ensures StatusProgress(v, kind).band == Good <==> v <= 25.0
    ensures StatusProgress(v, kind).band == Moderate <==> 25.0 < v <= 32.0
    ensures StatusProgress(v, kind).band == Poor <==> 32.0 < v <= 40.0
    ensures StatusProgress(v, kind).band == Hazardous <==> 40.0 < v
  {
  }

  /** A reading raises an alert when its stored status is "poor" or "hazardous". */
  predicate IsCritical(r: Reading) {
    r.status == "poor" || r.status == "hazardous"
  }

  /** `sub` can be obtained from `s` by deleting elements, so it keeps their relative order. */
  predicate IsSubsequence<T(==)>(sub: seq<T>, s: seq<T>)
    decreases |s|
  {
    if sub == [] then true
    else if s == [] then false
    else (sub[0] == s[0] && IsSubsequence(sub[1..], s[1..])) || IsSubsequence(sub, s[1..])
  }

  /** The filter the alert effect applies to each list of readings: it keeps the critical ones. */
  function CriticalItems(items: seq<Reading>): seq<Reading> {
    if items == [] then []
    else (if IsCritical(items[0]) then [items[0]] else []) + CriticalItems(items[1..])
  }

  /** The filter keeps only critical readings. */
  lemma {:induction false} CriticalItemsAreCritical(items: seq<Reading>)
    ensures forall x :: x in CriticalItems(items) ==> IsCritical(x)
  {
    if items != [] {
      CriticalItemsAreCritical(items[1..]);
    }
  }

  /** The filter keeps every critical reading as often as it occurs, and drops every other one. */
  lemma {:induction false} CriticalItemsCount(items: seq<Reading>, x: Reading)
    ensures multiset(CriticalItems(items))[x] == if IsCritical(x) then multiset(items)[x] else 0
  {
    if items != [] {
      CriticalItemsCount(items[1..], x);
      assert items == [items[0]] + items[1..];
    }
  }

  /** The filter keeps the readings in their original order. */
  lemma {:induction false} CriticalItemsOrdered(items: seq<Reading>)
    ensures IsSubsequence(CriticalItems(items), items)
  {
    if items != [] {
      var rest := CriticalItems(items[1..]);
      CriticalItemsOrdered(items[1..]);
      if IsCritical(items[0]) {
        assert CriticalItems(items) == [items[0]] + rest;
        assert ([items[0]] + rest)[1..] == rest;
      } else {
        assert CriticalItems(items) == rest;
      }
    }
  }

  lemma {:induction false} CriticalItemsDistributes(a: seq<Reading>, b: seq<Reading>)
    ensures CriticalItems(a + b) == CriticalItems(a) + CriticalItems(b)
  {
    if a == [] {
      assert a + b == b;
    } else {
      assert (a + b)[0] == a[0];
      assert (a + b)[1..] == a[1..] + b;
      CriticalItemsDistributes(a[1..], b);
    }
  }

  /**
   * The alert list of the dashboard's mount effect: the critical air readings,
   * then the critical water readings, then the critical temperature readings.
   * It is the filter of the three lists laid end to end, so it holds exactly
   * the critical readings, in their original order.
   */
  function Alerts(air: seq<Reading>, water: seq<Reading>, temperature: seq<Reading>): (r: seq<Reading>)
    ensures r == CriticalItems(air + water + temperature)
  {
    CriticalItemsDistributes(air + water, temperature);
    CriticalItemsDistributes(air, water);
    CriticalItems(air) + CriticalItems(water) + CriticalItems(temperature)
  }

  // The mock readings of the dashboard, used as concrete inputs.

  const MockAir: seq<Reading> := [
    Reading("1", "air", 45.0, "µg/m³", "São Paulo - Centro", "moderate"),
    Reading("2", "air", 22.0, "µg/m³", "Rio de Janeiro - Ipanema", "good"),
    Reading("3", "air", 75.0, "µg/m³", "Belo Horizonte - Centro", "poor")
  ]

  const MockWater: seq<Reading> := [
    Reading("4", "water", 85.0, "IQA", "Rio Tietê - Nascente", "good"),
    Reading("5", "water", 42.0, "IQA", "Rio Tietê - São Paulo", "poor"),
    Reading("6", "water", 68.0, "IQA", "Baía de Guanabara", "moderate")
  ]

  const MockTemperature: seq<Reading> := [
    Reading("7", "temperature", 28.5, "°C", "São Paulo", "moderate"),
    Reading("8", "temperature", 32.8, "°C", "Rio de Janeiro", "poor"),
    Reading("9", "temperature", 26.2, "°C", "Curitiba", "good")
  ]

  /** On the mock data, three readings raise alerts: readings 3, 5 and 8. */
  lemma MockAlerts()
    ensures Alerts(MockAir, MockWater, MockTemperature) == [MockAir[2], MockWater[1], MockTemperature[1]]
  {
    CriticalOfThree(MockAir);
    CriticalOfThree(MockWater);
    CriticalOfThree(MockTemperature);
  }

  lemma CriticalOfThree(items: seq<Reading>)
    requires |items| == 3
    ensures CriticalItems(items) ==
      (if IsCritical(items[0]) then [items[0]] else []) +
      (if IsCritical(items[1]) then [items[1]] else []) +
      (if IsCritical(items[2]) then [items[2]] else [])
  {
    var t1 := items[1..];
    var t2 := t1[1..];
    assert t1[0] == items[1] && t2[0] == items[2] && t2[1..] == [];
    assert CriticalItems(t2) == (if IsCritical(items[2]) then [items[2]] else []) + CriticalItems(t2[1..]);
  }

  /** The stored labels of readings 1, 3 and 9 differ from the bands their values fall in. */
  lemma MockStatusesDisagreeWithBands()
    ensures MockAir[0].status == "moderate" && StatusProgress(MockAir[0].value, MockAir[0].kind).band == Good
    ensures MockAir[2].status == "poor" && StatusProgress(MockAir[2].value, MockAir[2].kind).band == Moderate
    ensures MockTemperature[2].status == "good" && StatusProgress(MockTemperature[2].value, MockTemperature[2].kind).band == Moderate
  {
  }
}

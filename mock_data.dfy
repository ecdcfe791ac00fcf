/** The mock fleet (src/data/mockData.ts): nine stations, six alerts, and a
    24-hour history per station. Every Math.random() is a Draw passed in,
    Date.now() is the parameter now, and the history's sinusoid plus noise
    is passed in as a raw sample per hour. */
module MockData {
  import opened Types
  import Decimal

  const OneHour: int := 3600000

  const Locations: seq<string> := [
    "Central Park Station", "Mall Complex A", "University Campus",
    "Airport Terminal 2", "Shopping District", "Metro Station B",
    "Hospital Complex", "Business District", "Residential Area C"]

  const AlertMessages: seq<string> := [
    "Cleanliness score below threshold (25)",
    "Multiple zones require immediate attention",
    "Predicted cleaning time exceeded",
    "High traffic detected - preventive cleaning recommended",
    "Dustbin overflow detected",
    "Floor contamination level critical"]

  /** `toilet-${k}` */
  function StationId(k: int): string
  {
    "toilet-" + Decimal.Show(k)
  }

  /** The id of one of the nine stations. */
  ghost predicate IsStationId(s: string)
  {
    exists k :: 1 <= k <= 9 && s == StationId(k)
  }

  /** The draws one station consumes, in the order of the object literal. */
  datatype StationDraws = StationDraws(
    lastUpdated: Draw, score: Draw, status: Draw,
    floor: Draw, toiletSeat: Draw, sink: Draw, dustbin: Draw,
    predictedDirty: Draw, alertsActive: Draw)

  function MockToilet(index: nat, location: string, d: StationDraws, now: int): (t: ToiletZone)
    ensures MockReading(t, now)
  {
    ToiletZone(
      StationId(index + 1),
      "Toilet " + Decimal.Show(index + 1),
      location,
      TimeValue(now as real - d.lastUpdated * OneHour as real),
      RandomBelow(d.score, 100) as real,
      [Clean, ModeratelyDirty, Dirty][RandomBelow(d.status, 3)],
      ZoneScores(RandomBelow(d.floor, 100), RandomBelow(d.toiletSeat, 100), RandomBelow(d.sink, 100), RandomBelow(d.dustbin, 100)),
      TimeValue(now as real + d.predictedDirty * (2 * OneHour) as real),
      d.alertsActive > 0.7)
  }

  /** The randomised readings of a mock station: integral scores in [0,99],
      updated within the past hour, predicted dirty within the next two.
      The status is drawn on its own and need not match the score. */
  predicate MockReading(t: ToiletZone, now: int)
  {
    && t.cleanlinessScore.Floor as real == t.cleanlinessScore
    && 0.0 <= t.cleanlinessScore <= 99.0
    && 0 <= t.zones.floor <= 99 && 0 <= t.zones.toiletSeat <= 99
    && 0 <= t.zones.sink <= 99 && 0 <= t.zones.dustbin <= 99
    && now - OneHour <= t.lastUpdated <= now
    && now <= t.predictedDirtyTime <= now + 2 * OneHour
  }

  /** generateMockToilets: station i (from 0) draws from draws(i). */
  function GenerateMockToilets(draws: nat -> StationDraws, now: int): (ts: seq<ToiletZone>)
    ensures |ts| == 9
    ensures forall i :: 0 <= i < 9 ==>
      && ts[i].id == StationId(i + 1)
      && ts[i].name == "Toilet " + Decimal.Show(i + 1)
      && ts[i].location == Locations[i]
      && MockReading(ts[i], now)
  {
    var ts := seq(|Locations|, i requires 0 <= i < |Locations| => MockToilet(i, Locations[i], draws(i), now));
    assert forall i :: 0 <= i < 9 ==> ts[i] == MockToilet(i, Locations[i], draws(i), now);
    ts
  }

  /** The nine ids are pairwise distinct. */
  lemma MockStationIdsDistinct(draws: nat -> StationDraws, now: int)
    ensures var ts := GenerateMockToilets(draws, now);
      forall i, j :: 0 <= i < j < |ts| ==> ts[i].id != ts[j].id
  {
    var ts := GenerateMockToilets(draws, now);
    forall i, j | 0 <= i < j < |ts|
      ensures ts[i].id != ts[j].id
    {
      Decimal.ShowInjective("toilet-", i + 1, j + 1);
    }
  }

  /** The draws one alert consumes. */
  datatype AlertDraws = AlertDraws(toilet: Draw, severity: Draw, timestamp: Draw, resolved: Draw)

  function MockAlert(index: nat, message: string, d: AlertDraws, now: int): (a: Alert)
    ensures IsStationId(a.toiletId)
    ensures now - OneHour <= a.timestamp <= now
  {
    var station := RandomBelow(d.toilet, 9) + 1;
    Alert(
      "alert-" + Decimal.Show(index + 1),
      StationId(station),
      message,
      [Low, Medium, High][RandomBelow(d.severity, 3)],
      TimeValue(now as real - d.timestamp * OneHour as real),
      d.resolved > 0.6)
  }

  /** generateMockAlerts: alert i (from 0) draws from draws(i). */
  function GenerateMockAlerts(draws: nat -> AlertDraws, now: int): (alerts: seq<Alert>)
    ensures |alerts| == 6
    ensures forall i :: 0 <= i < 6 ==>
      && alerts[i].id == "alert-" + Decimal.Show(i + 1)
      && alerts[i].message == AlertMessages[i]
      && IsStationId(alerts[i].toiletId)
      && now - OneHour <= alerts[i].timestamp <= now
  {
    var alerts := seq(|AlertMessages|, i requires 0 <= i < |AlertMessages| => MockAlert(i, AlertMessages[i], draws(i), now));
    assert forall i :: 0 <= i < 6 ==> alerts[i] == MockAlert(i, AlertMessages[i], draws(i), now);
    alerts
  }

  /** The alert's toiletId is the id of one of the stations. */
  ghost predicate NamesStation(a: Alert, ts: seq<ToiletZone>)
  {
    exists j :: 0 <= j < |ts| && a.toiletId == ts[j].id
  }

  /** Every mock alert names one of the mock stations. */
  lemma MockAlertsNameMockStations(stationDraws: nat -> StationDraws, alertDraws: nat -> AlertDraws, now: int)
    ensures forall a :: a in GenerateMockAlerts(alertDraws, now) ==>
      NamesStation(a, GenerateMockToilets(stationDraws, now))
  {
    var ts := GenerateMockToilets(stationDraws, now);
    var alerts := GenerateMockAlerts(alertDraws, now);
    forall a | a in alerts
      ensures NamesStation(a, ts)
    {
      var i :| 0 <= i < |alerts| && alerts[i] == a;
      var k :| 1 <= k <= 9 && a.toiletId == StationId(k);
      assert ts[k - 1].id == StationId(k);
    }
  }

  /** Math.max(0, Math.min(100, n)) */
  function ClampPercent(n: int): (r: int)
    ensures 0 <= r <= 100
    ensures 0 <= n <= 100 ==> r == n
    ensures n < 0 ==> r == 0
    ensures n > 100 ==> r == 100
  {
    var capped := if n < 100 then n else 100;
    if capped > 0 then capped else 0
  }

  /** The history point for hour offset i: sample(i) stands for baseScore + noise. */
  function HistoryPoint(toiletId: string, now: int, sample: nat -> real, i: nat): CleanlinessData
  {
    CleanlinessData(now - i * OneHour, ClampPercent(sample(i).Floor), toiletId)
  }

  /** generateHistoricalData: for i from 23 down to 0, push the point i hours back. */
  method GenerateHistoricalData(toiletId: string, now: int, sample: nat -> real) returns (data: seq<CleanlinessData>)
    ensures |data| == 24
    ensures forall k :: 0 <= k < 24 ==> data[k] == HistoryPoint(toiletId, now, sample, 23 - k)
    ensures forall k :: 0 <= k < 24 ==> 0 <= data[k].score <= 100 && data[k].toiletId == toiletId
    ensures data[0].timestamp == now - 23 * OneHour && data[23].timestamp == now
    ensures forall k :: 0 < k < 24 ==> data[k].timestamp == data[k - 1].timestamp + OneHour
  {
    data := [];
    var i := 23;
    while i >= 0
      invariant -1 <= i <= 23
      invariant |data| == 23 - i
      invariant forall k :: 0 <= k < |data| ==> data[k] == HistoryPoint(toiletId, now, sample, 23 - k)
    {
      var timestamp := now - i * OneHour;
      var score := ClampPercent(sample(i).Floor);
      data := data + [CleanlinessData(timestamp, score, toiletId)];
      i := i - 1;
    }
  }
}

/** The top-level page (src/components/Dashboard.tsx): the fleet and alert
    state, the periodic score refresh, the hand-off of a processed upload,
    and the derived header figures and station order. */
module Dashboard {
  import opened Types
  import Decimal
  import MockData
  import AlertPanel

  /** Math.max(0, Math.min(100, x)) on a real score. */
  function Clamp(x: real): (r: real)
    ensures 0.0 <= r <= 100.0
    ensures 0.0 <= x <= 100.0 ==> r == x
    ensures x < 0.0 ==> r == 0.0
    ensures x > 100.0 ==> r == 100.0
  {
    var capped := if x < 100.0 then x else 100.0;
    if capped > 0.0 then capped else 0.0
  }

  /** One station after a refresh tick, with delta the tick's Math.random(). */
  function Refreshed(t: ToiletZone, delta: Draw, now: int): (u: ToiletZone)
    ensures 0.0 <= u.cleanlinessScore <= 100.0
    ensures u.lastUpdated == now
    ensures u.(cleanlinessScore := t.cleanlinessScore, lastUpdated := t.lastUpdated) == t
  {
    t.(cleanlinessScore := Clamp(t.cleanlinessScore + (delta - 0.5) * 10.0), lastUpdated := now)
  }

  /** A refresh keeps a score in [0,100], moves it by at most 5, and changes
      nothing but the score and the update time. */
  lemma RefreshStep(t: ToiletZone, delta: Draw, now: int)
    requires 0.0 <= t.cleanlinessScore <= 100.0
    ensures var u := Refreshed(t, delta, now);
      && 0.0 <= u.cleanlinessScore <= 100.0
      && -5.0 <= u.cleanlinessScore - t.cleanlinessScore <= 5.0
      && u.lastUpdated == now
      && u.(cleanlinessScore := t.cleanlinessScore, lastUpdated := t.lastUpdated) == t
  {
  }

  /** prev.map(...) of the interval callback; station i uses deltas(i). */
  function RefreshAll(ts: seq<ToiletZone>, deltas: nat -> Draw, now: int): (r: seq<ToiletZone>)
    ensures |r| == |ts|
    ensures forall i :: 0 <= i < |ts| ==> r[i] == Refreshed(ts[i], deltas(i), now)
  {
    seq(|ts|, i requires 0 <= i < |ts| => Refreshed(ts[i], deltas(i), now))
  }

  /** A tick keeps every score in [0,100], moves each by at most 5, and keeps
      the stations, their ids and their order. */
  lemma RefreshKeepsFleet(ts: seq<ToiletZone>, deltas: nat -> Draw, now: int)
    requires ScoresInRange(ts)
    ensures var r := RefreshAll(ts, deltas, now);
      && ScoresInRange(r)
      && forall i :: 0 <= i < |ts| ==>
        && r[i].id == ts[i].id
        && -5.0 <= r[i].cleanlinessScore - ts[i].cleanlinessScore <= 5.0
  {
    var r := RefreshAll(ts, deltas, now);
    forall i | 0 <= i < |ts|
      ensures 0.0 <= r[i].cleanlinessScore <= 100.0
      ensures -5.0 <= r[i].cleanlinessScore - ts[i].cleanlinessScore <= 5.0
    {
      assert ts[i] in ts;
      RefreshStep(ts[i], deltas(i), now);
    }
    forall t | t in r ensures 0.0 <= t.cleanlinessScore <= 100.0 {
      var i :| 0 <= i < |r| && r[i] == t;
    }
  }

  function ScoreSum(ts: seq<ToiletZone>): real
  {
    if ts == [] then 0.0 else ScoreSum(ts[..|ts| - 1]) + ts[|ts| - 1].cleanlinessScore
  }

  /** Every score lies in [0,100]. */
  predicate ScoresInRange(ts: seq<ToiletZone>)
  {
    forall t :: t in ts ==> 0.0 <= t.cleanlinessScore <= 100.0
  }

  /** avgScore: Math.floor(sum / length || 0); the NaN of an empty fleet reads as 0. */
  function AverageScore(ts: seq<ToiletZone>): (a: int)
    ensures |ts| == 0 ==> a == 0
    ensures |ts| > 0 ==> a as real <= ScoreSum(ts) / |ts| as real < a as real + 1.0
  {
    if |ts| == 0 then 0 else (ScoreSum(ts) / |ts| as real).Floor
  }

  lemma {:induction false} ScoreSumBounds(ts: seq<ToiletZone>)
    requires ScoresInRange(ts)
    ensures 0.0 <= ScoreSum(ts) <= 100.0 * |ts| as real
  {
    if ts != [] {
      assert ts[|ts| - 1] in ts;
      assert ScoresInRange(ts[..|ts| - 1]) by {
        forall t | t in ts[..|ts| - 1] ensures t in ts { }
      }
      ScoreSumBounds(ts[..|ts| - 1]);
    }
  }

  /** With every score in [0,100] the header average lies in [0,100] too. */
  lemma AverageInRange(ts: seq<ToiletZone>)
    requires ScoresInRange(ts)
    ensures 0 <= AverageScore(ts) <= 100
  {
    if |ts| > 0 {
      ScoreSumBounds(ts);
      DivAtMost(ScoreSum(ts), |ts| as real, 100.0);
    }
  }

  /** A quotient by a positive n of something in [0, c * n] lies in [0, c]. */
  lemma DivAtMost(a: real, n: real, c: real)
    requires n > 0.0 && 0.0 <= a <= c * n
    ensures 0.0 <= a / n <= c
  {
    assert a / n * n == a;
    assert (c - a / n) * n == c * n - a;
  }

  predicate SortedByScore(ts: seq<ToiletZone>)
  {
    forall i, j :: 0 <= i < j < |ts| ==> ts[i].cleanlinessScore <= ts[j].cleanlinessScore
  }

  /** Inserts t before the first station scoring at least as much. */
  function InsertByScore(t: ToiletZone, ts: seq<ToiletZone>): (r: seq<ToiletZone>)
    ensures multiset(r) == multiset(ts) + multiset{t}
  {
    if ts == [] || t.cleanlinessScore <= ts[0].cleanlinessScore then [t] + ts
    else
      assert ts == [ts[0]] + ts[1..];
      [ts[0]] + InsertByScore(t, ts[1..])
  }

  /** A lower bound on t and on every station of ts bounds the insertion. */
  lemma {:induction false} InsertBounded(t: ToiletZone, ts: seq<ToiletZone>, b: real)
    requires b <= t.cleanlinessScore
    requires forall i :: 0 <= i < |ts| ==> b <= ts[i].cleanlinessScore
    ensures forall i :: 0 <= i < |InsertByScore(t, ts)| ==> b <= InsertByScore(t, ts)[i].cleanlinessScore
  {
    if ts != [] && t.cleanlinessScore > ts[0].cleanlinessScore {
      var tail := ts[1..];
      assert forall i :: 0 <= i < |tail| ==> tail[i] == ts[i + 1];
      InsertBounded(t, tail, b);
      var rest := InsertByScore(t, tail);
      var r := [ts[0]] + rest;
      forall i | 0 <= i < |r| ensures b <= r[i].cleanlinessScore {
        if i > 0 {
          assert r[i] == rest[i - 1];
          assert b <= rest[i - 1].cleanlinessScore;
        }
      }
      assert InsertByScore(t, ts) == r;
    }
  }

  lemma {:induction false} InsertKeepsSorted(t: ToiletZone, ts: seq<ToiletZone>)
    requires SortedByScore(ts)
    ensures SortedByScore(InsertByScore(t, ts))
  {
    if ts != [] && t.cleanlinessScore > ts[0].cleanlinessScore {
      var tail := ts[1..];
      var rest := InsertByScore(t, tail);
      InsertKeepsSorted(t, tail);
      assert forall i :: 0 <= i < |tail| ==> tail[i] == ts[i + 1];
      InsertBounded(t, tail, ts[0].cleanlinessScore);
      var r := [ts[0]] + rest;
      forall i, j | 0 <= i < j < |r| ensures r[i].cleanlinessScore <= r[j].cleanlinessScore {
        assert r[j] == rest[j - 1];
        if i > 0 {
          assert r[i] == rest[i - 1];
        } else {
          assert ts[0].cleanlinessScore <= rest[j - 1].cleanlinessScore;
        }
      }
    }
  }

  /** [...toilets].sort((a, b) => a.cleanlinessScore - b.cleanlinessScore):
      the same stations, in ascending score order. */
  function SortByScore(ts: seq<ToiletZone>): (r: seq<ToiletZone>)
    ensures multiset(r) == multiset(ts)
    ensures SortedByScore(r)
  {
    if ts == [] then []
    else
      assert ts == [ts[0]] + ts[1..];
      InsertKeepsSorted(ts[0], SortByScore(ts[1..]));
      InsertByScore(ts[0], SortByScore(ts[1..]))
  }

  /** The alert prepended for a result that raised the pipeline's alert. */
  function UploadAlert(result: ProcessingResult, now: int): (a: Alert)
    ensures a.severity == High && !a.resolved && a.toiletId == "uploaded-analysis"
  {
    Alert(
      "alert-upload-" + Decimal.Show(now),
      "uploaded-analysis",
      "Uploaded file analysis: Critical cleanliness level detected (" + Decimal.Show(result.cleanlinessScore) + "%)",
      High, now, false)
  }

  /** Prepending the upload alert adds exactly one active alert. */
  lemma UploadAlertIsActive(result: ProcessingResult, now: int, alerts: seq<Alert>)
    ensures |AlertPanel.ActiveAlerts([UploadAlert(result, now)] + alerts)| == |AlertPanel.ActiveAlerts(alerts)| + 1
  {
    assert ([UploadAlert(result, now)] + alerts)[1..] == alerts;
  }

  /** The file record the page stores for a processed upload: a placeholder
      that shares only its id with the uploaded file. */
  function PlaceholderFile(result: ProcessingResult, now: int): (f: UploadedFile)
    ensures f.id == result.fileId
  {
    UploadedFile(result.fileId, "uploaded-file", Image,
      RemoteUrl("https://images.pexels.com/photos/4239091/pexels-photo-4239091.jpeg"),
      1024000, now)
  }

  class DashboardState {
    var toilets: seq<ToiletZone>
    var alerts: seq<Alert>
    var processingResult: Option<ProcessingResult>
    var uploadedFile: Option<UploadedFile>

    /** Scores stay in [0,100], and the result and its file are set and
        cleared together. */
    ghost predicate Valid()
      reads this
    {
      && ScoresInRange(toilets)
      && (processingResult.Some? <==> uploadedFile.Some?)
    }

    /** The initial state, before the mount effect runs. */
    constructor ()
      ensures Valid()
      ensures toilets == [] && alerts == [] && processingResult == None && uploadedFile == None
    {
      toilets := [];
      alerts := [];
      processingResult := None;
      uploadedFile := None;
    }

    /** The mount effect: the mock fleet and the mock alerts. */
    method Mount(stationDraws: nat -> MockData.StationDraws, alertDraws: nat -> MockData.AlertDraws, now: int)
      requires Valid()
      modifies this`toilets, this`alerts
      ensures Valid()
      ensures toilets == MockData.GenerateMockToilets(stationDraws, now)
      ensures alerts == MockData.GenerateMockAlerts(alertDraws, now)
    {
      toilets := MockData.GenerateMockToilets(stationDraws, now);
      alerts := MockData.GenerateMockAlerts(alertDraws, now);
      forall t | t in toilets ensures 0.0 <= t.cleanlinessScore <= 100.0 {
        var i :| 0 <= i < |toilets| && toilets[i] == t;
      }
    }

    /** The interval callback: every station refreshed, in place and in order. */
    method RefreshTick(deltas: nat -> Draw, now: int)
      requires Valid()
      modifies this`toilets
      ensures Valid()
      ensures toilets == RefreshAll(old(toilets), deltas, now)
    {
      RefreshKeepsFleet(toilets, deltas, now);
      toilets := RefreshAll(toilets, deltas, now);
    }

    /** handleProcessingComplete: stores the result and the file, and
        prepends one high-severity alert when the result raised its alert. */
    method HandleProcessingComplete(result: ProcessingResult, file: UploadedFile, now: int)
      requires Valid()
      modifies this`processingResult, this`uploadedFile, this`alerts
      ensures Valid()
      ensures processingResult == Some(result) && uploadedFile == Some(file) && ShowsResults()
      ensures alerts == if result.alertTriggered then [UploadAlert(result, now)] + old(alerts) else old(alerts)
    {
      processingResult := Some(result);
      uploadedFile := Some(file);
      if result.alertTriggered {
        alerts := [UploadAlert(result, now)] + alerts;
      }
    }

    /** The onProcessingComplete callback handed to the upload panel: it
        passes a placeholder file, not the file that was uploaded. */
    method OnUploadProcessed(result: ProcessingResult, now: int)
      requires Valid()
      modifies this`processingResult, this`uploadedFile, this`alerts
      ensures Valid()
      ensures processingResult == Some(result) && uploadedFile == Some(PlaceholderFile(result, now))
      ensures alerts == if result.alertTriggered then [UploadAlert(result, now)] + old(alerts) else old(alerts)
    {
      HandleProcessingComplete(result, PlaceholderFile(result, now), now);
    }

    /** closeResults */
    method CloseResults()
      requires Valid()
      modifies this`processingResult, this`uploadedFile
      ensures Valid()
      ensures processingResult == None && uploadedFile == None && !ShowsResults()
    {
      processingResult := None;
      uploadedFile := None;
    }

    /** The results modal is mounted only with both a result and a file. */
    function ShowsResults(): (shown: bool)
      requires Valid()
      reads this
      ensures shown <==> processingResult.Some?
    {
      processingResult.Some? && uploadedFile.Some?
    }

    /** The header's average score, which stays in [0,100]. */
    function AvgScore(): (a: int)
      requires Valid()
      reads this
      ensures 0 <= a <= 100
      ensures |toilets| > 0 ==> a as real <= ScoreSum(toilets) / |toilets| as real < a as real + 1.0
    {
      AverageInRange(toilets);
      AverageScore(toilets)
    }

    /** The header's count of unresolved alerts. */
    function ActiveAlertCount(): (n: nat)
      reads this
      ensures n <= |alerts|
      ensures n == |alerts| - |AlertPanel.ResolvedAlerts(alerts)|
    {
      AlertPanel.PartitionAlerts(alerts);
      |AlertPanel.ActiveAlerts(alerts)|
    }

    /** The display order: the same stations, ascending by score. The toilets
        field itself keeps its order. */
    function SortedToilets(): (r: seq<ToiletZone>)
      reads this
      ensures multiset(r) == multiset(toilets)
      ensures SortedByScore(r)
    {
      SortByScore(toilets)
    }
  }
}

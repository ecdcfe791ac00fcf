/** The analysis modal (src/components/ResultsDisplay.tsx): the adjusted view
    of a raw result, the per-zone figures, the score colours, and the alert
    dispatcher with its once-only alertSent flag. */
module ResultsDisplay {
  import opened Types
  import Decimal
  import UploadSection

  /** Every zone reports zero detections. */
  predicate AllZonesEmpty(r: ProcessingResult)
  {
    forall z :: z in r.zones.Values() ==> |z.detections| == 0
  }

  /** The figures the modal shows instead of the raw ones. */
  datatype AdjustedView = AdjustedView(cleanliness: int, dirtiness: int, status: Status, isDirty: bool)

  /** adjustedCleanliness, adjustedDirtiness, adjustedStatus and isDirty.
      The status override tests the adjusted cleanliness against 100, not
      the all-empty condition, so a raw score of 100 also reads as Clean. */
  function Adjust(r: ProcessingResult): (v: AdjustedView)
    ensures v.cleanliness + v.dirtiness == 100
    ensures v.isDirty <==> v.status == Dirty || v.cleanliness < 40
    ensures AllZonesEmpty(r) ==> v == AdjustedView(100, 0, Clean, false)
    ensures !AllZonesEmpty(r) ==> v.cleanliness == r.cleanlinessScore
    ensures v.status == (if v.cleanliness == 100 then Clean else r.status)
  {
    var cleanliness := if AllZonesEmpty(r) then 100 else r.cleanlinessScore;
    var status := if cleanliness == 100 then Clean else r.status;
    AdjustedView(cleanliness, 100 - cleanliness, status, status == Dirty || cleanliness < 40)
  }

  /** Adjusting is idempotent: a result that already carries its adjusted
      cleanliness and status adjusts to the same view. */
  lemma AdjustIdempotent(r: ProcessingResult)
    ensures var v := Adjust(r);
      Adjust(r.(cleanlinessScore := v.cleanliness, status := v.status)) == v
  {
    var v := Adjust(r);
    var r' := r.(cleanlinessScore := v.cleanliness, status := v.status);
    assert r'.zones == r.zones;
    assert AllZonesEmpty(r') == AllZonesEmpty(r);
  }

  /** The override fires without the all-empty condition: a result with
      detections, a raw score of 100 and a raw status of Dirty reads as Clean. */
  lemma ScoreOfHundredReadsClean(r: ProcessingResult)
    requires !AllZonesEmpty(r) && r.cleanlinessScore == 100 && r.status == Dirty
    ensures Adjust(r).status == Clean && !Adjust(r).isDirty
  {
  }

  /** On anything the pipeline produces the floor zone has a detection, so
      the all-empty override never fires and the adjusted view is the raw
      result; it is dirty exactly when the score is below 40, and in
      particular whenever the pipeline raised its alert. */
  lemma {:induction false} PipelineOutputIsNotAdjusted(r: ProcessingResult)
    requires UploadSection.IsPipelineResult(r)
    ensures !AllZonesEmpty(r)
    ensures Adjust(r) == AdjustedView(r.cleanlinessScore, 100 - r.cleanlinessScore, r.status, r.cleanlinessScore < 40)
    ensures r.alertTriggered ==> Adjust(r).isDirty
  {
    assert r.zones.floor in r.zones.Values();
    UploadSection.PipelineScoreAndAlert(r);
  }

  /** The same, for every run of the simulated pipeline. */
  lemma PipelineNeverOverridden(file: UploadedFile, draws: UploadSection.ScoringDraws, now: int)
    ensures var r := UploadSection.SimulateProcessing(file, draws, now);
      !AllZonesEmpty(r) && Adjust(r).cleanliness == r.cleanlinessScore && Adjust(r).status == r.status
  {
    PipelineOutputIsNotAdjusted(UploadSection.SimulateProcessing(file, draws, now));
  }

  /** getScoreColor */
  datatype ScoreColor = Green | Yellow | Red

  function ColorOf(score: int): (c: ScoreColor)
    ensures c == Green <==> score >= 70
    ensures c == Yellow <==> 40 <= score < 70
    ensures c == Red <==> score < 40
  {
    if score >= 70 then Green else if score >= 40 then Yellow else Red
  }

  /** The colour bands are the status bands. */
  lemma ColorMatchesStatus(score: int)
    ensures ColorOf(score) == Green <==> UploadSection.Classify(score) == Clean
    ensures ColorOf(score) == Yellow <==> UploadSection.Classify(score) == ModeratelyDirty
    ensures ColorOf(score) == Red <==> UploadSection.Classify(score) == Dirty
  {
  }

  /** What one tile of the zone-wise breakdown shows. */
  datatype ZoneTile = ZoneTile(cleanPercent: int, dirtyPercent: int, barWidth: int, textColor: ScoreColor, barColor: ScoreColor)

  /** A zone without detections shows 100 % clean and a full bar; otherwise its
      score. The text and the bar are coloured by the raw score, with the
      thresholds of getScoreColor, even when the figure shown is 100. */
  function Tile(z: ZoneResult): (t: ZoneTile)
    ensures t.cleanPercent + t.dirtyPercent == 100
    ensures t.barWidth == t.cleanPercent
    ensures |z.detections| == 0 ==> t.cleanPercent == 100
    ensures |z.detections| > 0 ==> t.cleanPercent == z.score
    ensures t.textColor == t.barColor == ColorOf(z.score)
  {
    var empty := |z.detections| == 0;
    ZoneTile(
      if empty then 100 else z.score,
      if empty then 0 else 100 - z.score,
      if empty then 100 else z.score,
      ColorOf(z.score),
      ColorOf(z.score))
  }

  /** A zone with no detections and a raw score of 10 shows 100 % clean in red. */
  lemma EmptyZoneColoredByRawScore()
    ensures Tile(ZoneResult(10, [])).cleanPercent == 100
    ensures Tile(ZoneResult(10, [])).textColor == Red
  {
  }

  /** The payload handed to onSendAlert. */
  datatype AlertPayload = AlertPayload(message: string, severity: Status, score: int, timestamp: int, imageUrl: ObjectUrl)

  function Payload(r: ProcessingResult, file: UploadedFile, now: int): (p: AlertPayload)
    ensures p.severity == Adjust(r).status && p.score == Adjust(r).cleanliness
    ensures p.imageUrl == file.url && p.timestamp == now
  {
    var v := Adjust(r);
    AlertPayload(
      "Toilet cleanliness alert: " + v.status.Label() + " (Score: " + Decimal.Show(v.cleanliness) + "%)",
      v.status, v.cleanliness, now, file.url)
  }

  /** One mounted modal. sent records what onSendAlert received, in order;
      it stays empty when the parent supplies no onSendAlert. */
  class ResultsPanel {
    const result: ProcessingResult
    const file: UploadedFile
    const hasSendAlert: bool
    var alertSent: bool
    var sent: seq<AlertPayload>

    /** At most one payload is ever sent, and only once the flag is up. */
    ghost predicate Valid()
      reads this
    {
      && |sent| <= 1
      && (sent != [] ==> alertSent)
      && (!hasSendAlert ==> sent == [])
    }

    constructor (result: ProcessingResult, file: UploadedFile, hasSendAlert: bool)
      ensures Valid()
      ensures this.result == result && this.file == file && this.hasSendAlert == hasSendAlert
      ensures !alertSent && sent == []
    {
      this.result := result;
      this.file := file;
      this.hasSendAlert := hasSendAlert;
      alertSent := false;
      sent := [];
    }

    /** The "Send Alert Now" button in the alert banner. */
    predicate BannerButtonShown()
      reads this
    {
      (Adjust(result).isDirty || result.alertTriggered) && !alertSent
    }

    /** The "Send Alert" button among the actions. */
    predicate ActionButtonShown()
      reads this
    {
      Adjust(result).isDirty && !alertSent
    }

    /** handleSendAlert: hands the payload to onSendAlert when there is one,
        and raises the flag either way. Every caller runs it with the flag down. */
    method HandleSendAlert(now: int)
      requires Valid() && !alertSent
      modifies this
      ensures Valid() && alertSent
      ensures sent == old(sent) + (if hasSendAlert then [Payload(result, file, now)] else [])
    {
      if hasSendAlert {
        sent := sent + [Payload(result, file, now)];
      }
      alertSent := true;
    }

    /** The auto-send effect: sends when the adjusted view is dirty and the
        flag is down, and is a no-op afterwards. */
    method AutoSendEffect(now: int)
      requires Valid()
      modifies this
      ensures Valid()
      ensures if Adjust(result).isDirty && !old(alertSent)
        then alertSent && sent == old(sent) + (if hasSendAlert then [Payload(result, file, now)] else [])
        else alertSent == old(alertSent) && sent == old(sent)
    {
      var v := Adjust(result);
      if (v.status == Dirty || v.cleanliness < 40) && !alertSent {
        HandleSendAlert(now);
      }
    }

    /** A click on either send button; a button that is not shown cannot be clicked. */
    method ClickSend(banner: bool, now: int)
      requires Valid()
      modifies this
      ensures Valid()
      ensures var shown := if banner then old(BannerButtonShown()) else old(ActionButtonShown());
        if shown
        then alertSent && sent == old(sent) + (if hasSendAlert then [Payload(result, file, now)] else [])
        else alertSent == old(alertSent) && sent == old(sent)
    {
      var shown := if banner then BannerButtonShown() else ActionButtonShown();
      if shown {
        HandleSendAlert(now);
      }
    }
  }

  /** A dirty result with score 25: the effect sends once and a second
      render of the same result sends nothing more. */
  method DispatchOnceScenario(file: UploadedFile, zones: Zones, t0: int, t1: int)
    requires |zones.floor.detections| > 0
  {
    var r := ProcessingResult("result-1", file.id, 25, Dirty, zones, t0, true);
    var panel := new ResultsPanel(r, file, true);
    assert r.zones.floor in r.zones.Values();
    panel.AutoSendEffect(t0);
    assert panel.alertSent && |panel.sent| == 1;
    assert panel.sent[0].severity == Dirty && panel.sent[0].score == 25;
    panel.AutoSendEffect(t1);
    assert |panel.sent| == 1;
    assert !panel.BannerButtonShown() && !panel.ActionButtonShown();
  }
}

/** The upload panel (src/components/UploadSection.tsx): the file validator,
    the panel's state (the chosen file and the processing flag), and the
    simulated analysis that scores the four zones of a station. */
module UploadSection {
  import opened Types
  import Decimal

  /** The size limit: 50 MiB. */
  const MaxFileBytes: nat := 50 * 1024 * 1024

  const AllowedTypes: seq<string> := ["image/jpeg", "image/png", "image/jpg", "video/mp4"]

  /** What the file picker or a drop hands over: File.name, File.type, File.size. */
  datatype PickedFile = PickedFile(name: string, mimeType: string, size: nat)

  /** The two notices handleFile shows with alert() before returning early. */
  datatype Rejection = InvalidFileType | FileTooLarge

  predicate StartsWith(s: string, prefix: string)
  {
    |prefix| <= |s| && s[..|prefix|] == prefix
  }

  /** file.type.startsWith('image/') ? 'image' : 'video' */
  function MediaKindOf(mimeType: string): MediaKind
  {
    if StartsWith(mimeType, "image/") then Image else Video
  }

  /** The checks of handleFile, in their order: the type first, then the size. */
  function ValidateFile(f: PickedFile): (r: Result<MediaKind, Rejection>)
    ensures r.Ok? <==> f.mimeType in AllowedTypes && f.size <= MaxFileBytes
    ensures r == Err(InvalidFileType) <==> f.mimeType !in AllowedTypes
    ensures r == Err(FileTooLarge) <==> f.mimeType in AllowedTypes && f.size > MaxFileBytes
    ensures r.Ok? ==> (r.value == Image <==> f.mimeType != "video/mp4")
  {
    if f.mimeType !in AllowedTypes then Err(InvalidFileType)
    else if f.size > MaxFileBytes then Err(FileTooLarge)
    else
      AllowedKinds(f.mimeType);
      Ok(MediaKindOf(f.mimeType))
  }

  /** Of the allowed types, the three image/ ones are images and video/mp4 is a video. */
  lemma AllowedKinds(mimeType: string)
    requires mimeType in AllowedTypes
    ensures MediaKindOf(mimeType) == Image <==> mimeType != "video/mp4"
  {
    assert "image/jpeg"[..6] == "image/";
    assert "image/png"[..6] == "image/";
    assert "image/jpg"[..6] == "image/";
    assert "video/mp4"[..6][0] != "image/"[0];
  }

  /** The boundary cases: a PDF is refused for its type, a 52,428,801-byte
      video for its size, and exactly 52,428,800 bytes is accepted. */
  lemma UploadBoundaries(name: string)
    ensures ValidateFile(PickedFile(name, "application/pdf", 10)) == Err(InvalidFileType)
    ensures ValidateFile(PickedFile(name, "video/mp4", 52428801)) == Err(FileTooLarge)
    ensures ValidateFile(PickedFile(name, "image/png", 52428800)) == Ok(Image)
  {
    assert "image/png"[..6] == "image/";
  }

  /** The record handleFile builds for an accepted file. */
  function AcceptedFile(f: PickedFile, kind: MediaKind, url: ObjectUrl, now: int): UploadedFile
  {
    UploadedFile("file-" + Decimal.Show(now), f.name, kind, url, f.size, now)
  }

  /** The panel's state. The browser's object-URL registry is modelled by the
      handles still live, the revocations in order, and the next fresh handle. */
  class UploadState {
    var uploadedFile: Option<UploadedFile>
    var isProcessing: bool
    var liveUrls: set<nat>
    var revokedUrls: seq<nat>
    var nextUrl: nat

    /** Every handle is fresh when created, the file on show holds a live one,
        and a handle is revoked at most once and is then no longer live. */
    ghost predicate Valid()
      reads this
    {
      && (forall h :: h in liveUrls ==> h < nextUrl)
      && (uploadedFile.Some? ==> uploadedFile.value.url.BlobUrl? && uploadedFile.value.url.handle in liveUrls)
      && (forall i :: 0 <= i < |revokedUrls| ==> revokedUrls[i] < nextUrl && revokedUrls[i] !in liveUrls)
      && (forall i, j :: 0 <= i < j < |revokedUrls| ==> revokedUrls[i] != revokedUrls[j])
    }

    /** The file picker and the drop zone are rendered only while no file is
        shown, so the panel calls handleFile only then. */
    predicate PickerShown()
      reads this
    {
      uploadedFile.None?
    }

    /** Every object URL ever created is either the shown file's, still live,
        or revoked: none is leaked. */
    ghost predicate ReleasesEveryUrl()
      reads this
    {
      && (forall h :: h in liveUrls ==> uploadedFile.Some? && uploadedFile.value.url.BlobUrl? && h == uploadedFile.value.url.handle)
      && (forall h :: 0 <= h < nextUrl ==> h in liveUrls || h in revokedUrls)
    }

    constructor ()
      ensures Valid() && ReleasesEveryUrl()
      ensures uploadedFile == None && !isProcessing
      ensures liveUrls == {} && revokedUrls == [] && nextUrl == 0
    {
      uploadedFile := None;
      isProcessing := false;
      liveUrls := {};
      revokedUrls := [];
      nextUrl := 0;
    }

    /** handleFile: a rejected file leaves the state as it was and yields the
        notice; an accepted one gets a new object URL and replaces the shown
        file. The URL of the file it replaces is not revoked. */
    method HandleFile(f: PickedFile, now: int) returns (notice: Option<Rejection>)
      requires Valid()
      modifies this
      ensures Valid()
      ensures notice.Some? <==> ValidateFile(f).Err?
      ensures ValidateFile(f).Err? ==>
        notice == Some(ValidateFile(f).error) && unchanged(this)
      ensures ValidateFile(f).Ok? ==>
        && uploadedFile == Some(AcceptedFile(f, ValidateFile(f).value, BlobUrl(old(nextUrl)), now))
        && liveUrls == old(liveUrls) + {old(nextUrl)}
        && nextUrl == old(nextUrl) + 1
        && revokedUrls == old(revokedUrls)
        && isProcessing == old(isProcessing)
      ensures old(PickerShown()) && old(ReleasesEveryUrl()) ==> ReleasesEveryUrl()
    {
      var checked := ValidateFile(f);
      if checked.Err? {
        notice := Some(checked.error);
        return;
      }
      notice := None;
      var url := nextUrl;
      nextUrl := nextUrl + 1;
      liveUrls := liveUrls + {url};
      uploadedFile := Some(AcceptedFile(f, checked.value, BlobUrl(url), now));
    }

    /** clearFile: revokes the shown file's URL, once, and forgets the file. */
    method ClearFile()
      requires Valid()
      modifies this
      ensures Valid()
      ensures uploadedFile == None
      ensures old(uploadedFile).Some? ==>
        && revokedUrls == old(revokedUrls) + [old(uploadedFile).value.url.handle]
        && liveUrls == old(liveUrls) - {old(uploadedFile).value.url.handle}
      ensures old(uploadedFile).None? ==>
        revokedUrls == old(revokedUrls) && liveUrls == old(liveUrls)
      ensures nextUrl == old(nextUrl) && isProcessing == old(isProcessing)
      ensures old(ReleasesEveryUrl()) ==> ReleasesEveryUrl()
    {
      if uploadedFile.Some? {
        var h := uploadedFile.value.url.handle;
        revokedUrls := revokedUrls + [h];
        liveUrls := liveUrls - {h};
      }
      uploadedFile := None;
    }

    /** handleProcessing: without a file it does nothing; otherwise the flag
        is raised for the (unmodelled) delay, the analysis runs on the shown
        file, its result goes to onProcessingComplete, and the flag drops. */
    method HandleProcessing(draws: ScoringDraws, now: int) returns (completed: Option<ProcessingResult>)
      requires Valid()
      modifies this`isProcessing
      ensures Valid()
      ensures uploadedFile.None? ==> completed == None && isProcessing == old(isProcessing)
      ensures uploadedFile.Some? ==>
        completed == Some(SimulateProcessing(uploadedFile.value, draws, now)) && !isProcessing
    {
      if uploadedFile.None? {
        return None;
      }
      isProcessing := true;
      completed := Some(SimulateProcessing(uploadedFile.value, draws, now));
      isProcessing := false;
    }
  }

  /** The panel never does this, since it offers the picker only while no
      file is shown: a call of handleFile made directly with a file on show
      replaces it without revoking its object URL, which stays live after
      clearing revokes the second. */
  method ReplacementKeepsOldUrlLive(t0: int, t1: int)
  {
    var panel := new UploadState();
    var first := PickedFile("a.png", "image/png", 1000);
    var second := PickedFile("b.mp4", "video/mp4", 2000);
    assert "image/png"[..6] == "image/";
    var n1 := panel.HandleFile(first, t0);
    var n2 := panel.HandleFile(second, t1);
    assert n1 == None && n2 == None;
    assert panel.uploadedFile.value.url == BlobUrl(1);
    panel.ClearFile();
    assert panel.revokedUrls == [1];
    assert 0 in panel.liveUrls && panel.uploadedFile == None;
  }

  /** The Math.random() draws that decide the scores and detection counts,
      one per call, in the order the source makes them. */
  datatype ScoringDraws = ScoringDraws(
    floorScore: Draw, floorCount: Draw,
    seatScore: Draw, seatCount: Draw,
    sinkScore: Draw, sinkCount: Draw,
    binScore: Draw, binCount: Draw)

  /** Array.from({ length: count }, ...) of detections carrying one label. */
  function Detections(labelText: string, count: nat): (ds: seq<Detection>)
    ensures |ds| == count
    ensures forall d :: d in ds ==> d.labelText == labelText
  {
    seq(count, _ => Detection(labelText))
  }

  /** A zone as the pipeline produces it: an integer score in [0,99] and
      between least and most detections, all with the zone's label. */
  predicate ZoneShape(z: ZoneResult, labelText: string, least: nat, most: nat)
  {
    && 0 <= z.score <= 99
    && least <= |z.detections| <= most
    && forall d :: d in z.detections ==> d.labelText == labelText
  }

  function ScoreZones(d: ScoringDraws): (z: Zones)
    ensures ZoneShape(z.floor, "dirt_spot", 1, 3)
    ensures ZoneShape(z.toiletSeat, "stain", 1, 2)
    ensures ZoneShape(z.sink, "soap_residue", 0, 1)
    ensures ZoneShape(z.dustbin, "overflow", 0, 1)
  {
    Zones(
      ZoneResult(RandomBelow(d.floorScore, 100), Detections("dirt_spot", RandomBelow(d.floorCount, 3) + 1)),
      ZoneResult(RandomBelow(d.seatScore, 100), Detections("stain", RandomBelow(d.seatCount, 2) + 1)),
      ZoneResult(RandomBelow(d.sinkScore, 100), Detections("soap_residue", RandomBelow(d.sinkCount, 2))),
      ZoneResult(RandomBelow(d.binScore, 100), Detections("overflow", RandomBelow(d.binCount, 2))))
  }

  function ZoneSum(z: Zones): int
  {
    z.floor.score + z.toiletSeat.score + z.sink.score + z.dustbin.score
  }

  /** The overall score: the mean of the four zone scores, floored. */
  function OverallScore(z: Zones): (s: int)
    ensures 4 * s <= ZoneSum(z) < 4 * s + 4
  {
    ZoneSum(z) / 4
  }

  /** The three bands of the status classification. */
  predicate InBand(status: Status, score: int)
  {
    && (status == Clean <==> 70 <= score)
    && (status == ModeratelyDirty <==> 40 <= score < 70)
    && (status == Dirty <==> score < 40)
  }

  function Classify(score: int): (status: Status)
    ensures InBand(status, score)
  {
    if score >= 70 then Clean else if score >= 40 then ModeratelyDirty else Dirty
  }

  /** What every result of the simulated pipeline satisfies. */
  predicate IsPipelineResult(r: ProcessingResult)
  {
    && ZoneShape(r.zones.floor, "dirt_spot", 1, 3)
    && ZoneShape(r.zones.toiletSeat, "stain", 1, 2)
    && ZoneShape(r.zones.sink, "soap_residue", 0, 1)
    && ZoneShape(r.zones.dustbin, "overflow", 0, 1)
    && 4 * r.cleanlinessScore <= ZoneSum(r.zones) < 4 * r.cleanlinessScore + 4
    && InBand(r.status, r.cleanlinessScore)
    && (r.alertTriggered <==> r.cleanlinessScore < 30)
  }

  /** simulateProcessing, after its delay, for the file shown when it started. */
  function SimulateProcessing(file: UploadedFile, draws: ScoringDraws, now: int): (r: ProcessingResult)
    ensures IsPipelineResult(r)
    ensures r.fileId == file.id && r.processedAt == now
  {
    var zones := ScoreZones(draws);
    var overall := OverallScore(zones);
    ProcessingResult("result-" + Decimal.Show(now), file.id, overall, Classify(overall), zones, now, overall < 30)
  }

  /** The overall score of a pipeline result lies in [0,99], and an alert is
      only ever raised for a Dirty result. */
  lemma PipelineScoreAndAlert(r: ProcessingResult)
    requires IsPipelineResult(r)
    ensures 0 <= r.cleanlinessScore <= 99
    ensures r.alertTriggered ==> r.status == Dirty
  {
  }
}

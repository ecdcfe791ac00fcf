/** The records the dashboard passes between its components
    (src/types/index.ts), and the two browser primitives every component
    leans on: a draw of Math.random() and the time value of a Date. */
module Types {

  datatype Option<T> = None | Some(value: T)

  datatype Result<T, E> = Ok(value: T) | Err(error: E)

  /** One value returned by Math.random(): a real in [0, 1). */
  type Draw = r: real | 0.0 <= r < 1.0

  /** Math.floor(Math.random() * n): a uniformly drawn index below n. */
  function RandomBelow(r: Draw, n: nat): (k: nat)
    requires n > 0
    ensures k < n
    ensures k as real <= r * n as real < k as real + 1.0
  {
    MulBelow(r, n as real);
    (r * n as real).Floor
  }

  /** A fraction below 1 of a positive amount stays below that amount. */
  lemma MulBelow(r: real, m: real)
    requires 0.0 <= r < 1.0 && m > 0.0
    ensures 0.0 <= r * m < m
  {
    assert m - r * m == (1.0 - r) * m;
  }

  /** new Date(x).getTime() for a finite x: the time value is x truncated
      toward zero. Dates are modelled by their time value in milliseconds. */
  function TimeValue(x: real): (t: int)
    ensures -1.0 < t as real - x < 1.0
    ensures 0.0 <= x ==> 0 <= t && t as real <= x
    ensures x < 0.0 ==> x <= t as real && t <= 0
  {
    if x >= 0.0 then x.Floor else -((-x).Floor)
  }

  /** The three cleanliness classifications, shared by stations and results. */
  datatype Status = Clean | ModeratelyDirty | Dirty
  {
    /** The string the source stores for the status. */
    function Label(): string
    {
      match this
      case Clean => "Clean"
      case ModeratelyDirty => "Moderately Dirty"
      case Dirty => "Dirty"
    }
  }

  datatype Severity = Low | Medium | High

  /** A synthetic detection. Its bounding box and confidence are floats the
      model leaves out; its label (named labelText, since `label` is a Dafny
      keyword) is what each zone's detections are checked against. */
  datatype Detection = Detection(labelText: string)

  datatype ZoneResult = ZoneResult(score: int, detections: seq<Detection>)

  datatype Zones = Zones(floor: ZoneResult, toiletSeat: ZoneResult, sink: ZoneResult, dustbin: ZoneResult)
  {
    /** Object.values(zones), in declaration order. */
    function Values(): seq<ZoneResult>
    {
      [floor, toiletSeat, sink, dustbin]
    }
  }

  /** ProcessingResult without its float fields processingTime and modelConfidence. */
  datatype ProcessingResult = ProcessingResult(
    id: string,
    fileId: string,
    cleanlinessScore: int,
    status: Status,
    zones: Zones,
    processedAt: int,
    alertTriggered: bool)

  datatype MediaKind = Image | Video

  /** The url of an UploadedFile: an object URL made by URL.createObjectURL
      (an abstract handle) or a plain address. */
  datatype ObjectUrl = BlobUrl(handle: nat) | RemoteUrl(address: string)

  datatype UploadedFile = UploadedFile(
    id: string,
    name: string,
    kind: MediaKind,
    url: ObjectUrl,
    size: nat,
    uploadedAt: int)

  datatype Alert = Alert(
    id: string,
    toiletId: string,
    message: string,
    severity: Severity,
    timestamp: int,
    resolved: bool)

  datatype ZoneScores = ZoneScores(floor: int, toiletSeat: int, sink: int, dustbin: int)

  /** A monitored station. Its score is a real: the periodic refresh adds a
      fractional random delta to it. */
  datatype ToiletZone = ToiletZone(
    id: string,
    name: string,
    location: string,
    lastUpdated: int,
    cleanlinessScore: real,
    status: Status,
    zones: ZoneScores,
    predictedDirtyTime: int,
    alertsActive: bool)

  datatype CleanlinessData = CleanlinessData(timestamp: int, score: int, toiletId: string)
}

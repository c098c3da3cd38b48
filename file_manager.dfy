/** The file manager of the desktop process: the checks of
    `processTRFFile` and `validateTRFFile` with the file system lifted to
    parameters, and the sample-rate guess of `detectSampleRate`. */
module FileManager {
  import opened Common
  import opened Text
  import ElectronTrfParser

  /** `detectSampleRate`: 48000 for fewer than two points, otherwise
      `ceil(maxFreq * 2 * 1.1)`. */
  function DetectSampleRate(points: seq<Point>): int
  {
    if |points| < 2 then 48000
    else Ceil(Max(Frequencies(points)) * 2.0 * 1.1)
  }

  /** With two points or more the guess is the least integer at or above
      2.2 times the highest frequency, so it is at least 2.2 times every
      point's frequency. */
  lemma SampleRateHeadroom(points: seq<Point>)
    ensures |points| < 2 ==> DetectSampleRate(points) == 48000
    ensures |points| >= 2 ==>
      var maxFreq := Max(Frequencies(points));
      && 2.2 * maxFreq <= DetectSampleRate(points) as real < 2.2 * maxFreq + 1.0
      && forall i :: 0 <= i < |points| ==> 2.2 * points[i].frequency <= DetectSampleRate(points) as real
  {
    if |points| >= 2 {
      var fs := Frequencies(points);
      forall i | 0 <= i < |points|
        ensures 2.2 * points[i].frequency <= DetectSampleRate(points) as real
      {
        assert points[i].frequency == fs[i] <= Max(fs);
      }
    }
  }

  datatype FrequencyRange = FrequencyRange(min: real, max: real)

  /** The record `processTRFFile` resolves with. */
  datatype FileRecord = FileRecord(
    fileName: string,
    filePath: string,
    dataPoints: seq<Point>,
    sampleRate: int,
    pointCount: nat,
    frequencyRange: FrequencyRange)

  datatype FileError =
    | ReadFailed
    | NoValidDataPoints
    | StatFailed
    | FileEmpty
    | FileTooLarge

  /** `processTRFFile`. `contents` is the file decoded as UTF-8, `None`
      when it could not be read; `fileName` is `path.basename(filePath)`. */
  function ProcessTRFFile(filePath: string, fileName: string, contents: Option<string>, js: JsNumbers)
    : (r: Result<FileRecord, FileError>)
    ensures contents.None? ==> r == Err(ReadFailed)
    ensures contents.Some? ==>
      var points := ElectronTrfParser.Points(SplitLines(contents.value), js);
      && (r.Err? <==> points == [])
      && (r.Err? ==> r.error == NoValidDataPoints)
      && (r.Ok? ==>
           var rec := r.value;
           && rec.fileName == fileName && rec.filePath == filePath
           && rec.dataPoints == points
           && rec.pointCount == |points|
           && rec.sampleRate == DetectSampleRate(points)
           && rec.frequencyRange.min <= rec.frequencyRange.max
           && (exists i :: 0 <= i < |points| && points[i].frequency == rec.frequencyRange.min)
           && (exists i :: 0 <= i < |points| && points[i].frequency == rec.frequencyRange.max)
           && forall i :: 0 <= i < |points| ==>
                rec.frequencyRange.min <= points[i].frequency <= rec.frequencyRange.max)
  {
    if contents.None? then Err(ReadFailed)
    else
      var dataPoints := ElectronTrfParser.Points(SplitLines(contents.value), js);
      if |dataPoints| == 0 then Err(NoValidDataPoints)
      else
        var fs := Frequencies(dataPoints);
        var range := FrequencyRange(Min(fs), Max(fs));
        AttainedBounds(dataPoints);
        Ok(FileRecord(fileName, filePath, dataPoints, DetectSampleRate(dataPoints), |dataPoints|, range))
  }

  /** The lowest and highest frequency belong to points of the list. */
  lemma AttainedBounds(points: seq<Point>)
    requires |points| > 0
    ensures exists i :: 0 <= i < |points| && points[i].frequency == Min(Frequencies(points))
    ensures exists i :: 0 <= i < |points| && points[i].frequency == Max(Frequencies(points))
  {
    var fs := Frequencies(points);
    var lo :| 0 <= lo < |fs| && fs[lo] == Min(fs);
    var hi :| 0 <= hi < |fs| && fs[hi] == Max(fs);
    assert points[lo].frequency == fs[lo];
    assert points[hi].frequency == fs[hi];
  }

  /** The 100 MB limit of `validateTRFFile`. */
  const MaxFileSize: nat := 100 * 1024 * 1024

  /** `validateTRFFile`: `size` is the size `fs.stat` reports, `None` when
      the file cannot be stat'ed. */
  function ValidateTRFFile(size: Option<nat>): (r: Result<bool, FileError>)
    ensures r.Ok? <==> size.Some? && 0 < size.value <= 104857600
    ensures r.Ok? ==> r.value
    ensures size.None? ==> r == Err(StatFailed)
    ensures size == Some(0) ==> r == Err(FileEmpty)
    ensures size.Some? && size.value > 104857600 ==> r == Err(FileTooLarge)
  {
    if size.None? then Err(StatFailed)
    else if size.value == 0 then Err(FileEmpty)
    else if size.value > MaxFileSize then Err(FileTooLarge)
    else Ok(true)
  }
}

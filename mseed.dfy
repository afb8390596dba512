/** MiniSEED file storage: where a waveform window is written on disk.
    Files live at `ROOT/STATION/YYYY/MM/DD/STATION_HHMMSS.mseed`. */
module MiniSeed {
  import opened Basics
  import opened DateTimes
  import opened Paths

  /** The default storage root. */
  const DefaultDataRoot := "./data"

  /** One trace: its header and its samples. */
  datatype Trace = Trace(network: string, station: string, startTime: DateTime, samplingRate: real, data: seq<real>)

  /** A stream is a list of traces. */
  type Stream = seq<Trace>

  /** The date directories of a start time: year, month, day. */
  function DateParts(t: DateTime): (parts: seq<string>)
    ensures |parts| == 3 && forall i :: 0 <= i < 3 ==> PlainComponent(parts[i])
  {
    var parts := [Pad(t.year, 4), Pad(t.month, 2), Pad(t.day, 2)];
    assert forall i :: 0 <= i < 3 ==> AllDigits(parts[i]) && |parts[i]| > 0;
    DigitsArePlain(parts[0]);
    DigitsArePlain(parts[1]);
    DigitsArePlain(parts[2]);
    parts
  }

  lemma DigitsArePlain(s: string)
    requires AllDigits(s) && |s| > 0
    ensures PlainComponent(s)
  {
    assert !IsDigit('/') && !IsDigit('.');
    assert IsDigit(s[0]);
  }

  /** The file name `STATION_HHMMSS.mseed`. */
  function FileName(stationCode: string, startTime: DateTime): string
  {
    stationCode + "_" + ClockDigits(startTime) + ".mseed"
  }

  lemma FileNamePlain(stationCode: string, startTime: DateTime)
    requires '/' !in stationCode
    ensures PlainComponent(FileName(stationCode, startTime))
  {
    var f := FileName(stationCode, startTime);
    var c := ClockDigits(startTime);
    assert !IsDigit('/');
    assert f == stationCode + ("_" + c + ".mseed");
    assert forall i :: |stationCode| <= i < |f| ==> f[i] == ("_" + c + ".mseed")[i - |stationCode|];
    assert |f| > 1;
  }

  /** `_build_path`: `root / station / "%Y/%m/%d" / "STATION_%H%M%S.mseed"`.
      For a station code without a slash the path lies under the root: the
      root's components, the code (unless it is empty or `.`), the three date
      directories and the file name. */
  function BuildPath(root: Path, stationCode: string, startTime: DateTime): (p: Path)
    ensures '/' !in stationCode ==>
      p == Path(root.absolute, root.parts + Clean([stationCode]) + DateParts(startTime)
                               + [FileName(stationCode, startTime)])
  {
    PathUnderRoot(root, stationCode, startTime);
    Join(Join(Join(root, stationCode), DatePath(startTime)), FileName(stationCode, startTime))
  }

  lemma PathUnderRoot(root: Path, stationCode: string, startTime: DateTime)
    ensures '/' !in stationCode ==>
      Join(Join(Join(root, stationCode), DatePath(startTime)), FileName(stationCode, startTime))
      == Path(root.absolute, root.parts + Clean([stationCode]) + DateParts(startTime)
                             + [FileName(stationCode, startTime)])
  {
    if '/' !in stationCode {
      SplitWithoutSlash(stationCode);
      var d := DateParts(startTime);
      assert DatePath(startTime) == d[0] + "/" + d[1] + "/" + d[2];
      ThreePartPath(d[0], d[1], d[2]);
      FileNamePlain(stationCode, startTime);
      PlainPath(FileName(stationCode, startTime));
    }
  }

  /** Two start times fall on the same file exactly when they agree down to the second. */
  predicate SameSecond(t1: DateTime, t2: DateTime)
  {
    t1.year == t2.year && t1.month == t2.month && t1.day == t2.day
    && t1.hour == t2.hour && t1.minute == t2.minute && t1.second == t2.second
  }

  /** Files are keyed by station and start second: two windows of a station
      (whose code has no slash) get the same path exactly when they start in
      the same second, so the later one overwrites the earlier. */
  lemma PathKeyedBySecond(root: Path, stationCode: string, t1: DateTime, t2: DateTime)
    requires '/' !in stationCode
    ensures BuildPath(root, stationCode, t1) == BuildPath(root, stationCode, t2) <==> SameSecond(t1, t2)
  {
    if SameSecond(t1, t2) {
      assert DateParts(t1) == DateParts(t2);
      assert ClockDigits(t1) == ClockDigits(t2);
    }
    if BuildPath(root, stationCode, t1) == BuildPath(root, stationCode, t2) {
      var n := |root.parts| + |Clean([stationCode])|;
      var p1, p2 := BuildPath(root, stationCode, t1).parts, BuildPath(root, stationCode, t2).parts;
      assert p1[n..n + 3] == DateParts(t1) && p2[n..n + 3] == DateParts(t2);
      assert p1[n + 3] == FileName(stationCode, t1) && p2[n + 3] == FileName(stationCode, t2);
      SameDateParts(t1, t2);
      SameFileName(stationCode, t1, t2);
    }
  }

  lemma SameDateParts(t1: DateTime, t2: DateTime)
    requires DateParts(t1) == DateParts(t2)
    ensures t1.year == t2.year && t1.month == t2.month && t1.day == t2.day
  {
    PadRoundTrip(t1.year, 4);
    PadRoundTrip(t2.year, 4);
    PadRoundTrip(t1.month, 2);
    PadRoundTrip(t2.month, 2);
    PadRoundTrip(t1.day, 2);
    PadRoundTrip(t2.day, 2);
  }

  lemma SameFileName(stationCode: string, t1: DateTime, t2: DateTime)
    requires FileName(stationCode, t1) == FileName(stationCode, t2)
    ensures t1.hour == t2.hour && t1.minute == t2.minute && t1.second == t2.second
  {
    var c1, c2 := ClockDigits(t1), ClockDigits(t2);
    var k := |stationCode| + 1;
    assert FileName(stationCode, t1)[k..k + 6] == c1;
    assert FileName(stationCode, t2)[k..k + 6] == c2;
    assert c1[0..2] == Pad(t1.hour, 2) && c2[0..2] == Pad(t2.hour, 2);
    assert c1[2..4] == Pad(t1.minute, 2) && c2[2..4] == Pad(t2.minute, 2);
    assert c1[4..6] == Pad(t1.second, 2) && c2[4..6] == Pad(t2.second, 2);
    PadRoundTrip(t1.hour, 2);
    PadRoundTrip(t2.hour, 2);
    PadRoundTrip(t1.minute, 2);
    PadRoundTrip(t2.minute, 2);
    PadRoundTrip(t1.second, 2);
    PadRoundTrip(t2.second, 2);
  }

  /** The MiniSEED store: a root directory and the streams written under it. */
  class MSeedStorage {
    const root: Path
    var files: map<Path, Stream>

    /** Without a root the configured data root `./data` is used. */
    constructor (root: Option<Path>)
      ensures this.root == root.GetOr(PathOf(DefaultDataRoot))
      ensures files == map[]
    {
      this.root := root.GetOr(PathOf(DefaultDataRoot));
      files := map[];
    }

    /** `save_stream`: write the stream at its path, replacing any file already there. */
    method SaveStream(stationCode: string, startTime: DateTime, stream: Stream) returns (path: Path)
      modifies this
      ensures path == BuildPath(root, stationCode, startTime)
      ensures files == old(files)[path := stream]
    {
      path := BuildPath(root, stationCode, startTime);
      files := files[path := stream];
    }
  }
}

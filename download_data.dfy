/**
 * Segment preparation for the AudioSet downloader: the label predicates,
 * the millisecond file-name scheme, clipping a segment to the video length,
 * the expected-properties record and ffmpeg option lists, and the outcome of
 * `download_yt_video`.
 */
module DownloadData {
  import opened Builtins
  import A = AudioSetUtils

  // ---------------------------------------------------------------------
  // Label predicates
  // ---------------------------------------------------------------------

  function AsSet<T>(s: seq<T>): set<T>
  {
    set x | x in s
  }

  /** `common_member(a, b)`: `set(a) & set(b)` is non-empty. */
  function CommonMember<T(==)>(a: seq<T>, b: seq<T>): (r: bool)
    ensures r <==> exists x :: x in a && x in b
  {
    var shared := AsSet(a) * AsSet(b);
    if shared != {} then
      // the element that witnesses the existential of the ensures
      var x :| x in shared;
      true
    else
      assert forall x :: x in a && x in b ==> x in shared;
      false
  }

  /** `has_no_common_member(a, b, c, d)`, with both of its `False` branches. */
  function HasNoCommonMember<T(==)>(a: seq<T>, b: seq<T>, c: seq<T>, d: seq<T>): (r: bool)
    ensures !r <==> CommonMember(a, b) || (CommonMember(a, c) && CommonMember(a, d))
  {
    var ab, ac, ad := AsSet(a) * AsSet(b), AsSet(a) * AsSet(c), AsSet(a) * AsSet(d);
    if ab != {} && (ac != {} || ad != {}) then false
    else if ab != {} || (ac != {} && ad != {}) then false
    else true
  }

  // ---------------------------------------------------------------------
  // File names
  // ---------------------------------------------------------------------

  /** `get_media_filename(ytid, ts_start, ts_end)`: YouTube id and the two times in whole milliseconds. */
  function GetMediaFilename(ytid: string, tsStart: real, tsEnd: real): string
  {
    ytid + "_" + IntToString(Trunc(tsStart * 1000.0)) + "_" + IntToString(Trunc(tsEnd * 1000.0))
  }

  /** The last position of `c` in `s`. */
  function LastIndexOf(s: string, c: char): (r: Option<nat>)
    ensures r.None? <==> c !in s
    ensures r.Some? ==> r.value < |s| && s[r.value] == c && c !in s[r.value + 1..]
  {
    if |s| == 0 then None
    else if s[|s| - 1] == c then Some(|s| - 1)
    else
      var r := LastIndexOf(s[..|s| - 1], c);
      assert r.Some? ==> s[r.value + 1..] == s[..|s| - 1][r.value + 1..] + [s[|s| - 1]];
      r
  }

  lemma {:induction false} LastIndexOfSplit(p: string, c: char, t: string)
    requires c !in t
    ensures LastIndexOf(p + [c] + t, c) == Some(|p|)
    decreases |t|
  {
    var s := p + [c] + t;
    if |t| > 0 {
      assert s[|s| - 1] == t[|t| - 1];
      assert s[..|s| - 1] == p + [c] + t[..|t| - 1];
      LastIndexOfSplit(p, c, t[..|t| - 1]);
    }
  }

  /**
   * Reads a media file name back: the YouTube id may itself contain "_",
   * so the two times are the fields after the last two underscores.
   */
  function ParseMediaFilename(name: string): Option<(string, int, int)>
  {
    match LastIndexOf(name, '_')
    case None => None
    case Some(j) =>
      var head := name[..j];
      match LastIndexOf(head, '_')
      case None => None
      case Some(i) =>
        match (ParseDecimal(head[i + 1..]), ParseDecimal(name[j + 1..]))
        case (Some(startMs), Some(endMs)) => Some((head[..i], startMs, endMs))
        case _ => None
  }

  lemma NoUnderscore(n: int)
    ensures '_' !in IntToString(n)
  {
    var s := IntToString(n);
    assert forall i :: 0 <= i < |s| ==> s[i] != '_';
  }

  /** Splitting at the last two underscores recovers the three fields when the last two have none. */
  lemma SplitAtLastTwo(ytid: string, a: string, b: string)
    requires '_' !in a && '_' !in b
    ensures ParseMediaFilename(ytid + "_" + a + "_" + b) == match (ParseDecimal(a), ParseDecimal(b))
      case (Some(x), Some(y)) => Some((ytid, x, y))
      case _ => None
  {
    var name := ytid + "_" + a + "_" + b;
    assert name == (ytid + "_" + a) + ['_'] + b;
    LastIndexOfSplit(ytid + "_" + a, '_', b);
    var j := |ytid + "_" + a|;
    assert name[..j] == ytid + ['_'] + a;
    assert name[j + 1..] == b;
    LastIndexOfSplit(ytid, '_', a);
    var head := name[..j];
    assert head[|ytid| + 1..] == a && head[..|ytid|] == ytid;
  }

  /** The file name determines the id and both millisecond times, whatever characters the id holds. */
  lemma MediaFilenameRoundTrip(ytid: string, tsStart: real, tsEnd: real)
    ensures ParseMediaFilename(GetMediaFilename(ytid, tsStart, tsEnd))
      == Some((ytid, Trunc(tsStart * 1000.0), Trunc(tsEnd * 1000.0)))
  {
    var startMs, endMs := Trunc(tsStart * 1000.0), Trunc(tsEnd * 1000.0);
    NoUnderscore(startMs);
    NoUnderscore(endMs);
    IntToStringRoundTrip(startMs);
    IntToStringRoundTrip(endMs);
    SplitAtLastTwo(ytid, IntToString(startMs), IntToString(endMs));
  }

  /** `os.path.join(output_dir, "audio", className, media_filename + "." + audio_format)`. */
  function AudioFilepath(outputDir: string, className: string, mediaFilename: string, audioFormat: string): string
  {
    Join(Join(Join(outputDir, "audio"), className), mediaFilename + "." + audioFormat)
  }

  /**
   * The audio file sits at `<output_dir>/audio/<label>/<media filename>.<format>`
   * when the directory and the label are plain relative names.
   */
  lemma AudioFilepathUnderOutputDir(outputDir: string, className: string, mediaFilename: string, audioFormat: string)
    requires outputDir != [] && outputDir[|outputDir| - 1] != '/'
    requires className != [] && className[0] != '/' && className[|className| - 1] != '/'
    requires mediaFilename == [] || mediaFilename[0] != '/'
    ensures AudioFilepath(outputDir, className, mediaFilename, audioFormat)
      == outputDir + "/audio/" + className + "/" + mediaFilename + "." + audioFormat
  {
    var d := Join(outputDir, "audio");
    assert d == outputDir + "/audio";
    var l := Join(d, className);
    assert l == d + "/" + className;
    var f := mediaFilename + "." + audioFormat;
    assert f[0] != '/';
    assert Join(l, f) == l + "/" + f;
  }

  function VideoPageUrl(ytid: string): string
  {
    "https://www.youtube.com/watch?v=" + ytid
  }

  // ---------------------------------------------------------------------
  // Clipping, the expected record and the option lists
  // ---------------------------------------------------------------------

  /** The segment after clipping to the video: its duration, its end and `end_past_video_end`. */
  datatype Segment = Segment(duration: real, tsEnd: real, endPastVideoEnd: bool)

  /** `duration = ts_end - ts_start`, re-done against the video length when the segment overruns it. */
  function Clip(tsStart: real, tsEnd: real, videoLength: real): (r: Segment)
    ensures r.endPastVideoEnd <==> tsEnd > videoLength
    ensures r.duration == r.tsEnd - tsStart
    ensures r.endPastVideoEnd ==> r.tsEnd == videoLength && r.tsEnd < tsEnd
    ensures !r.endPastVideoEnd ==> r.tsEnd == tsEnd
  {
    var duration := tsEnd - tsStart;
    if tsEnd > videoLength then
      var duration' := videoLength - tsStart;
      Segment(duration', tsStart + duration', true)
    else Segment(duration, tsEnd, false)
  }

  /** The `audio_info` dictionary. */
  function AudioInfoFor(audioSampleRate: int, audioBitDepth: int, audioCodec: string, duration: real): A.AudioInfo
  {
    A.AudioInfo(audioSampleRate, 2, audioBitDepth, Upper(audioCodec), duration)
  }

  /** `audio_input_args`. */
  function AudioInputArgs(tsStart: real, codec: FloatCodec): seq<string>
  {
    ["-n", "-ss", codec.format(tsStart)]
  }

  /** `audio_output_args`. */
  function AudioOutputArgs(duration: real, audioSampleRate: int, audioBitDepth: int, audioFormat: string,
                           audioCodec: string, codec: FloatCodec): seq<string>
  {
    ["-t", codec.format(duration), "-ar", IntToString(audioSampleRate), "-vn", "-ac", IntToString(2),
     "-sample_fmt", "s" + IntToString(audioBitDepth), "-f", audioFormat, "-acodec", audioCodec]
  }

  /**
   * The input options hold no "-t", so the duration fix of the retry loop
   * always lands on the output options, at the value right after "-t".
   */
  lemma DurationFixLandsInOutput(tsStart: real, duration: real, audioSampleRate: int, audioBitDepth: int,
                                 audioFormat: string, audioCodec: string, codec: FloatCodec, diff: real)
    requires RoundTrips(codec)
    ensures var ia := AudioInputArgs(tsStart, codec);
      var oa := AudioOutputArgs(duration, audioSampleRate, audioBitDepth, audioFormat, audioCodec, codec);
      A.AdjustDuration(ia, oa, diff, codec) == Ok((ia, oa[1 := codec.format(duration + diff)]))
  {
    var ia := AudioInputArgs(tsStart, codec);
    var oa := AudioOutputArgs(duration, audioSampleRate, audioBitDepth, audioFormat, audioCodec, codec);
    FormatIsNotFlag(codec, tsStart);
    assert "-t" !in ia;
    assert A.DurationSlot(oa) == Some(1);
    assert codec.parse(oa[1]) == Some(duration);
  }

  // ---------------------------------------------------------------------
  // download_yt_video
  // ---------------------------------------------------------------------

  /** What `pafy.new(url)` raises. */
  datatype Fault = OSErrorFault | AttributeErrorFault | OtherFault

  /** The resolved video: its length and, if there is a best audio stream, that stream's URL. */
  datatype Video = Video(length: real, bestAudioUrl: Option<string>)

  datatype Lookup = Found(video: Video) | Raises(fault: Fault)

  /** What leaves `download_yt_video`: an exception. */
  datatype Escape = LookupFault(fault: Fault) | EngineError(error: A.Error)

  /** `None`, the audio path (with what ffmpeg did), or an exception. */
  datatype Download = Skipped | Saved(path: string, verdict: A.Verdict, attempts: seq<A.Attempt>) | Escaped(reason: Escape)

  /**
   * `except OSError or AttributeError` evaluates its tuple-less expression
   * to `OSError`, so that is the only fault the clause catches.
   */
  predicate CaughtAtLookup(f: Fault)
  {
    f == OSErrorFault
  }

  /** The ffmpeg call `download_yt_video` makes for stream `url`. */
  function DownloadConfig(ffmpegPath: string, url: string, path: string, numRetries: int,
                          info: A.AudioInfo, endPastVideoEnd: bool, codec: FloatCodec): A.Config
  {
    A.Config(ffmpegPath, ["-i", url], path, "error", numRetries, Some(A.Validation(info, endPastVideoEnd)), codec)
  }

  method ToArray(s: seq<string>) returns (a: array<string>)
    ensures fresh(a) && a[..] == s
  {
    a := new string[|s|](i requires 0 <= i < |s| => s[i]);
  }

  /**
   * `download_yt_video(...)`.  `fetch` stands for `pafy.new`; `initialFile`
   * and `runs` are the output path and the world as ffmpeg meets them.
   */
  method DownloadYtVideo(ytid: string, tsStart: real, tsEnd: real, outputDir: string, ffmpegPath: string,
                         className: string, audioCodec: string, audioFormat: string, audioSampleRate: int,
                         audioBitDepth: int, numRetries: int, fetch: string -> Lookup, codec: FloatCodec,
                         initialFile: A.FileState, runs: seq<A.Run>)
    returns (r: Download)
    requires numRetries <= |runs|
    // the path is built from the requested end, before clipping
    ensures var path := AudioFilepath(outputDir, className, GetMediaFilename(ytid, tsStart, tsEnd), audioFormat);
      r.Saved? ==> r.path == path
    // None exactly when the lookup fails with OSError or there is no audio stream
    ensures r == Skipped <==>
      || (fetch(VideoPageUrl(ytid)).Raises? && CaughtAtLookup(fetch(VideoPageUrl(ytid)).fault))
      || (fetch(VideoPageUrl(ytid)).Found? && fetch(VideoPageUrl(ytid)).video.bestAudioUrl.None?)
    ensures fetch(VideoPageUrl(ytid)).Raises? && !CaughtAtLookup(fetch(VideoPageUrl(ytid)).fault) ==>
      r == Escaped(LookupFault(fetch(VideoPageUrl(ytid)).fault))
    // otherwise the ffmpeg run decides, and running out of retries still yields the path
    ensures fetch(VideoPageUrl(ytid)).Found? && fetch(VideoPageUrl(ytid)).video.bestAudioUrl.Some? ==>
      var v := fetch(VideoPageUrl(ytid)).video;
      var seg := Clip(tsStart, tsEnd, v.length);
      var info := AudioInfoFor(audioSampleRate, audioBitDepth, audioCodec, seg.duration);
      var path := AudioFilepath(outputDir, className, GetMediaFilename(ytid, tsStart, tsEnd), audioFormat);
      var cfg := DownloadConfig(ffmpegPath, v.bestAudioUrl.value, path, numRetries, info, seg.endPastVideoEnd, codec);
      var o := A.Drive(cfg, A.State(AudioInputArgs(tsStart, codec),
                                    AudioOutputArgs(seg.duration, audioSampleRate, audioBitDepth, audioFormat, audioCodec, codec),
                                    initialFile, None), 0, runs);
      r == if o.verdict.Raised? then Escaped(EngineError(o.verdict.error)) else Saved(path, o.verdict, o.log)
  {
    var duration := tsEnd - tsStart;
    var mediaFilename := GetMediaFilename(ytid, tsStart, tsEnd);
    var audioFilepath := AudioFilepath(outputDir, className, mediaFilename, audioFormat);
    var videoPageUrl := VideoPageUrl(ytid);

    var video: Video;
    match fetch(videoPageUrl) {
      case Raises(f) =>
        if CaughtAtLookup(f) {
          return Skipped;
        }
        return Escaped(LookupFault(f));
      case Found(v) =>
        video := v;
    }
    var videoDuration := video.length;

    var endPastVideoEnd := false;
    var tsEnd' := tsEnd;
    if tsEnd > videoDuration {
      duration := videoDuration - tsStart;
      tsEnd' := tsStart + duration;
      endPastVideoEnd := true;
    }
    assert Clip(tsStart, tsEnd, videoDuration) == Segment(duration, tsEnd', endPastVideoEnd);

    if video.bestAudioUrl.None? {
      return Skipped;
    }
    var bestAudioUrl := video.bestAudioUrl.value;

    var audioInfo := AudioInfoFor(audioSampleRate, audioBitDepth, audioCodec, duration);
    var audioInputArgs := ToArray(AudioInputArgs(tsStart, codec));
    var audioOutputArgs := ToArray(AudioOutputArgs(duration, audioSampleRate, audioBitDepth, audioFormat, audioCodec, codec));
    var verdict, _, attempts := A.Ffmpeg(ffmpegPath, A.Str(bestAudioUrl), audioFilepath, audioInputArgs, audioOutputArgs,
                                         "error", numRetries, Some(A.Validation(audioInfo, endPastVideoEnd)), codec,
                                         initialFile, runs);
    if verdict.Raised? {
      return Escaped(EngineError(verdict.error));
    }
    r := Saved(audioFilepath, verdict, attempts);
  }

  /**
   * A clipped segment keeps the requested end in its name: the name read
   * back gives the unclipped end time, not the video length.
   */
  lemma ClippedNameKeepsRequestedEnd(ytid: string, tsStart: real, tsEnd: real, videoLength: real)
    requires tsEnd > videoLength
    ensures Clip(tsStart, tsEnd, videoLength).tsEnd == videoLength
    ensures var parsed := ParseMediaFilename(GetMediaFilename(ytid, tsStart, tsEnd));
      parsed.Some? && parsed.value.2 == Trunc(tsEnd * 1000.0)
  {
    MediaFilenameRoundTrip(ytid, tsStart, tsEnd);
  }
}

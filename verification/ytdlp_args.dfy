/** The yt-dlp command line the worker container runs, built from a
    DownloadSpec, and a parser that reads the spec's relevant content back
    out of such a command line. */
module YtDlpArgs {
  import opened Wrappers
  import opened ApiTypes

  /** The fixed invocation preamble: executable, no-mtime, ignore-errors and
      the output path template. */
  const Preamble: seq<string> := ["yt-dlp", "--no-mtime", "--ignore-errors", "-o", "/data/%(title)s.%(ext)s"]

  /** The option flags the builder emits conditionally. */
  const ConditionalFlags: set<string> := {"--format", "--extract-audio", "--audio-format", "--upload-to", "--s3-bucket"}

  /** `--format <selection>` when a selection is set, nothing otherwise. */
  function FormatArgs(spec: DownloadSpec): seq<string>
  {
    if spec.formatSelection != "" then ["--format", spec.formatSelection] else []
  }

  /** `--extract-audio`, then `--audio-format <codec>` when a codec is named. */
  function PostProcessingArgs(spec: DownloadSpec): seq<string>
  {
    match spec.postProcessing
    case None => []
    case Some(pp) =>
      if pp.extractAudio then
        ["--extract-audio"] + (if pp.audioFormat != "" then ["--audio-format", pp.audioFormat] else [])
      else []
  }

  /** The generic S3 upload directives for the bucket. */
  function UploadDirectives(bucket: string): seq<string>
  {
    ["--upload-to", "s3-generic", "--s3-bucket", bucket]
  }

  /** Upload directives when an S3 destination is present; the object key is not passed. */
  function UploadArgs(spec: DownloadSpec): seq<string>
  {
    match spec.output.s3
    case None => []
    case Some(s3) => UploadDirectives(s3.bucket)
  }

  /** 1 when the condition holds, 0 otherwise. */
  function Count(b: bool): nat
  {
    if b then 1 else 0
  }

  /** Width of the format part, so that later positions can be stated. */
  function FormatWidth(spec: DownloadSpec): nat
  {
    2 * Count(spec.formatSelection != "")
  }

  /** The audio codec handed to yt-dlp, empty when none is passed. */
  function AudioCodec(spec: DownloadSpec): string
  {
    if ExtractsAudio(spec) then spec.postProcessing.value.audioFormat else ""
  }

  /** The yt-dlp argument list: preamble, format selection, post-processing,
      upload directives, and the input URL last. */
  function BuildYtDlpArgs(spec: DownloadSpec): (args: seq<string>)
    ensures |args| == 6 + 2 * Count(spec.formatSelection != "") + Count(ExtractsAudio(spec))
                        + 2 * Count(AudioCodec(spec) != "") + 4 * Count(spec.output.s3.Some?)
    ensures args[..5] == Preamble
    ensures args[|args| - 1] == spec.inputURL
    ensures spec.formatSelection != "" ==> args[5] == "--format" && args[6] == spec.formatSelection
    ensures ExtractsAudio(spec) ==> args[5 + FormatWidth(spec)] == "--extract-audio"
    ensures AudioCodec(spec) != "" ==>
              args[6 + FormatWidth(spec)] == "--audio-format" && args[7 + FormatWidth(spec)] == AudioCodec(spec)
    ensures spec.output.s3.Some? ==>
              args[|args| - 5 .. |args| - 1] == UploadDirectives(spec.output.s3.value.bucket)
    ensures spec.output.s3.None? ==>
              args[..|args| - 1] == Preamble + FormatArgs(spec) + PostProcessingArgs(spec)
  {
    Preamble + FormatArgs(spec) + PostProcessingArgs(spec) + UploadArgs(spec) + [spec.inputURL]
  }

  /** What a yt-dlp command line says about the download: the format
      selection, whether audio is extracted and to which codec, the upload
      bucket if any, and the URL. Empty strings stand for "not passed". */
  datatype ArgView = ArgView(
    format: string,
    extractAudio: bool,
    audioFormat: string,
    bucket: Option<string>,
    url: string)

  /** The part of a spec that reaches the command line. */
  function View(spec: DownloadSpec): ArgView
  {
    ArgView(
      spec.formatSelection,
      ExtractsAudio(spec),
      AudioCodec(spec),
      match spec.output.s3 case None => None case Some(s3) => Some(s3.bucket),
      spec.inputURL)
  }

  /** Reads a command line of the shape the builder produces; None for any other shape. */
  function ParseArgs(args: seq<string>): Option<ArgView>
  {
    if |args| < 6 || args[..5] != Preamble then None
    else
      var rest := args[5..];
      if |rest| >= 2 && rest[0] == "--format" then ParsePostProcessing(rest[1], rest[2..])
      else ParsePostProcessing("", rest)
  }

  function ParsePostProcessing(format: string, rest: seq<string>): Option<ArgView>
  {
    if |rest| >= 2 && rest[0] == "--extract-audio" then
      var tail := rest[1..];
      if |tail| >= 3 && tail[0] == "--audio-format" then ParseUpload(format, true, tail[1], tail[2..])
      else ParseUpload(format, true, "", tail)
    else ParseUpload(format, false, "", rest)
  }

  function ParseUpload(format: string, extract: bool, audio: string, rest: seq<string>): Option<ArgView>
  {
    if |rest| == 5 && rest[..4] == UploadDirectives(rest[3]) then
      Some(ArgView(format, extract, audio, Some(rest[3]), rest[4]))
    else if |rest| == 1 then Some(ArgView(format, extract, audio, None, rest[0]))
    else None
  }

  /** Round trip: parsing the built command line recovers exactly the spec's view. */
  lemma ParseBuildRoundTrip(spec: DownloadSpec)
    ensures ParseArgs(BuildYtDlpArgs(spec)) == Some(View(spec))
  {
  }

  /** Two specs give the same command line exactly when they agree on their
      view: the arguments carry the view and nothing else of the spec. */
  lemma ArgsDetermineView(a: DownloadSpec, b: DownloadSpec)
    ensures BuildYtDlpArgs(a) == BuildYtDlpArgs(b) <==> View(a) == View(b)
  {
  }

  /** The S3 object key never influences the command line. */
  lemma ArgsIgnoreS3Key(spec: DownloadSpec, key: string)
    ensures BuildYtDlpArgs(WithS3Key(spec, key)) == BuildYtDlpArgs(spec)
  {
  }

  /** None of the user-supplied strings that reach the command line is itself
      one of the conditional flags. */
  predicate NoFlagLikeValues(spec: DownloadSpec)
  {
    && spec.formatSelection !in ConditionalFlags
    && AudioCodec(spec) !in ConditionalFlags
    && (spec.output.s3.Some? ==> spec.output.s3.value.bucket !in ConditionalFlags)
    && spec.inputURL !in ConditionalFlags
  }

  /** Which conditional flags each segment of the command line holds. */
  lemma SegmentFlags(spec: DownloadSpec, x: string)
    requires NoFlagLikeValues(spec)
    requires x in ConditionalFlags
    ensures x in FormatArgs(spec) <==> x == "--format" && spec.formatSelection != ""
    ensures x in PostProcessingArgs(spec) <==>
              (x == "--extract-audio" && ExtractsAudio(spec)) || (x == "--audio-format" && AudioCodec(spec) != "")
    ensures x in UploadArgs(spec) <==> (x == "--upload-to" || x == "--s3-bucket") && spec.output.s3.Some?
  {
  }

  /** A conditional flag is in the command line exactly when one of the segments holds it. */
  lemma FlagInSegments(spec: DownloadSpec, x: string)
    requires x in ConditionalFlags
    requires spec.inputURL !in ConditionalFlags
    ensures x in BuildYtDlpArgs(spec) <==> x in FormatArgs(spec) || x in PostProcessingArgs(spec) || x in UploadArgs(spec)
  {
  }

  /** When no user value looks like a flag, each conditional flag occurs in
      the command line exactly when its spec field asks for it. */
  lemma FlagPresence(spec: DownloadSpec)
    requires NoFlagLikeValues(spec)
    ensures "--format" in BuildYtDlpArgs(spec) <==> spec.formatSelection != ""
    ensures "--extract-audio" in BuildYtDlpArgs(spec) <==> ExtractsAudio(spec)
    ensures "--audio-format" in BuildYtDlpArgs(spec) <==> AudioCodec(spec) != ""
    ensures "--upload-to" in BuildYtDlpArgs(spec) <==> spec.output.s3.Some?
    ensures "--s3-bucket" in BuildYtDlpArgs(spec) <==> spec.output.s3.Some?
  {
    forall x | x in ConditionalFlags
      ensures x in BuildYtDlpArgs(spec) <==>
                || (x == "--format" && spec.formatSelection != "")
                || (x == "--extract-audio" && ExtractsAudio(spec))
                || (x == "--audio-format" && AudioCodec(spec) != "")
                || ((x == "--upload-to" || x == "--s3-bucket") && spec.output.s3.Some?)
    {
      FlagInSegments(spec, x);
      SegmentFlags(spec, x);
    }
  }

  /** When no user value looks like a flag, `--audio-format` only ever
      directly follows `--extract-audio` (so it never occurs without it). */
  lemma AudioFormatFollowsExtract(spec: DownloadSpec)
    requires NoFlagLikeValues(spec)
    ensures forall i :: 0 <= i < |BuildYtDlpArgs(spec)| && BuildYtDlpArgs(spec)[i] == "--audio-format" ==>
              0 < i && BuildYtDlpArgs(spec)[i - 1] == "--extract-audio"
  {
    var args := BuildYtDlpArgs(spec);
    var f := FormatArgs(spec);
    var p := PostProcessingArgs(spec);
    var u := UploadArgs(spec);
    var w := 5 + |f|;
    assert args == (Preamble + f) + p + (u + [spec.inputURL]);
    forall i | 0 <= i < |args| && args[i] == "--audio-format"
      ensures 0 < i && args[i - 1] == "--extract-audio"
    {
      if i < w || i >= w + |p| {
        assert false;
      } else {
        assert args[i] == p[i - w];
        assert args[i - 1] == p[i - w - 1];
      }
    }
  }
}

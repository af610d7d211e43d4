/** The command-line front end: argument validation, the stages as the
    script runs them (a failing stage calls `sys.exit(1)`), and `main` with
    its handlers and guaranteed cleanup. */
module Cli {
  import opened Common
  import opened Strings
  import opened Seqs
  import opened Paths
  import opened Stages
  import opened Disk
  import WebApp

  /** What `download_videos` raises on line 53, where `VID_DIR` is not in scope. */
  const UndefinedNameMsg: string := "name 'VID_DIR' is not defined"

  // ---------------------------------------------------------------------
  // Arguments

  /** The tuple `validate_args` returns. */
  datatype CliArgs = CliArgs(singer: string, count: int, duration: nat, output: string)

  /** The check that made `validate_args` exit, with the offending text. */
  datatype ArgError =
    | WrongArgCount(given: nat)
    | BadCount(countText: string)
    | BadDuration(durationText: string)
    | BadOutput(output: string)

  datatype Validated = Valid(args: CliArgs) | Invalid(reason: ArgError)

  /** A count is accepted when it parses and exceeds 10; a duration when it
      parses and exceeds 20 (a small value raises the same `ValueError` as
      text that does not parse). */
  predicate CountOk(text: string) {
    ParseInt(text).Some? && ParseInt(text).value > 10
  }

  predicate DurationOk(text: string) {
    ParseInt(text).Some? && ParseInt(text).value > 20
  }

  /** Every check a four-argument list fails, in the order they are made;
      a list of any other length fails only the count check. */
  function Violations(args: seq<string>): seq<ArgError> {
    if |args| != 4 then [WrongArgCount(|args|)]
    else
      (if CountOk(args[1]) then [] else [BadCount(args[1])])
      + (if DurationOk(args[2]) then [] else [BadDuration(args[2])])
      + (if EndsWith(args[3], ".mp3") then [] else [BadOutput(args[3])])
  }

  /** `validate_args`: the first violated check decides; an accepted list
      yields the parsed values. */
  function ValidateArgs(args: seq<string>): (r: Validated)
    ensures r.Valid? <==> Violations(args) == []
    ensures r.Invalid? ==> r.reason == Violations(args)[0]
    ensures r.Valid? ==>
              && |args| == 4
              && r.args.singer == args[0]
              && ParseInt(args[1]) == Some(r.args.count) && r.args.count > 10
              && ParseInt(args[2]) == Some(r.args.duration as int) && r.args.duration > 20
              && r.args.output == args[3] && EndsWith(r.args.output, ".mp3")
  {
    if |args| != 4 then Invalid(WrongArgCount(|args|))
    else if !CountOk(args[1]) then Invalid(BadCount(args[1]))
    else if !DurationOk(args[2]) then Invalid(BadDuration(args[2]))
    else if !EndsWith(args[3], ".mp3") then Invalid(BadOutput(args[3]))
    else
      var n := ParseInt(args[2]).value;
      Valid(CliArgs(args[0], ParseInt(args[1]).value, n, args[3]))
  }

  lemma DecimalValueOf11()
    ensures ParseInt("11") == Some(11)
  {
    ParseIntRoundTrip(11);
    assert IntToString(11) == "11";
  }

  // ---------------------------------------------------------------------
  // The stages as the script runs them

  /** `download_videos` as written: the directory exists, then reading
      `VID_DIR` raises `NameError` before anything is downloaded. */
  function DownloadAsWritten(dir: string, listing: seq<string>): Result<seq<string>> {
    Err(Error(UndefinedNameMsg))
  }

  /** `download_videos` with `download_dir` in place of `VID_DIR`: the
      recognised files, or `sys.exit(1)` when there are none. */
  function DownloadResult(dir: string, listing: seq<string>): Result<seq<string>> {
    var videos := Acquired(dir, listing);
    if videos == [] then Err(SystemExit(1)) else Ok(videos)
  }

  /** The corrected `download_videos` from its `makedirs` on: the download directory
      exists afterwards, whether yt-dlp's download raises or the listing
      holds nothing. */
  method DownloadVideos(fs: FileSystem, dir: string, m: Media)
    returns (r: Result<seq<string>>)
    modifies fs
    ensures r == if Raises(m, Fetch) then Err(m.interrupt.value.raised) else DownloadResult(dir, m.listing)
    ensures fs.dirs == old(fs.dirs) + {dir} && fs.files == old(fs.files)
  {
    fs.MakeDirs(dir);
    if Raises(m, Fetch) {
      r := Err(m.interrupt.value.raised);
      return;
    }
    var videos := Acquired(dir, m.listing);
    if videos == [] {
      r := Err(SystemExit(1));
    } else {
      r := Ok(videos);
    }
  }

  /** The download stage fails exactly when the listing holds no
      recognised video, and then with SystemExit(1). */
  lemma DownloadOutcome(dir: string, listing: seq<string>)
    ensures var r := DownloadResult(dir, listing);
            && (r.Err? <==> forall n :: n in listing ==> !IsVideoName(n))
            && (r.Err? ==> r.error == SystemExit(1))
  {
    AcquiredSpec(listing);
  }

  function ConvertResult(videos: seq<string>, audioDir: string, probe: string -> ExtractOutcome)
    : Result<seq<string>>
  {
    var audios := Extracted(videos, audioDir, probe, false);
    if audios == [] then Err(SystemExit(1)) else Ok(audios)
  }

  /** `convert_to_audio` from its `makedirs` on: the item is recorded only
      after the container has been closed, so a failure while closing drops it. */
  method ConvertToAudio(fs: FileSystem, videos: seq<string>, audioDir: string,
                        probe: string -> ExtractOutcome)
    returns (r: Result<seq<string>>)
    modifies fs
    ensures r == ConvertResult(videos, audioDir, probe)
    ensures fs.dirs == old(fs.dirs) + {audioDir} && fs.files == old(fs.files)
  {
    fs.MakeDirs(audioDir);
    var audios := ExtractAudio(videos, audioDir, probe, false);
    if audios == [] {
      r := Err(SystemExit(1));
    } else {
      r := Ok(audios);
    }
  }

  function CutResult(audios: seq<string>, durationSec: nat, clipDir: string,
                     decode: string -> Option<Audio>, write: (string, Audio) -> bool)
    : Result<seq<string>>
  {
    var clips := Trimmed(audios, clipDir, durationSec * 1000, decode, write);
    if clips == [] then Err(SystemExit(1)) else Ok(ClipPaths(clips))
  }

  /** `cut_clips` from its `makedirs` on. */
  method CutClips(fs: FileSystem, audios: seq<string>, durationSec: nat, clipDir: string,
                  decode: string -> Option<Audio>, write: (string, Audio) -> bool)
    returns (r: Result<seq<string>>)
    modifies fs
    ensures r == CutResult(audios, durationSec, clipDir, decode, write)
    ensures fs.dirs == old(fs.dirs) + {clipDir} && fs.files == old(fs.files)
  {
    fs.MakeDirs(clipDir);
    var clips := TrimAudio(audios, clipDir, durationSec * 1000, decode, write);
    if clips == [] {
      r := Err(SystemExit(1));
    } else {
      r := Ok(ClipPaths(clips));
    }
  }

  function MergeResult(clips: seq<string>, output: string,
                       decode: string -> Option<Audio>, write: (string, Audio) -> bool)
    : Result<Audio>
  {
    var combined := Merged(clips, decode);
    if |combined| == 0 then Err(SystemExit(1))
    else if !write(output, combined) then Err(Error(ExportFailedMsg))
    else Ok(combined)
  }

  /** `merge_clips`: an empty mashup exits before the export; a failing
      export raises an ordinary exception; the output file holds the mashup
      only when the export succeeded. */
  method MergeClips(fs: FileSystem, clips: seq<string>, output: string,
                    decode: string -> Option<Audio>, write: (string, Audio) -> bool)
    returns (r: Result<Audio>)
    modifies fs
    ensures r == MergeResult(clips, output, decode, write)
    ensures fs.dirs == old(fs.dirs)
    ensures fs.files == if r.Ok? then old(fs.files)[output := r.value] else old(fs.files)
  {
    var combined := Concatenate(clips, decode);
    if |combined| == 0 {
      r := Err(SystemExit(1));
    } else if !write(output, combined) {
      r := Err(Error(ExportFailedMsg));
    } else {
      fs.Export(output, combined);
      r := Ok(combined);
    }
  }

  /** The conversion stage fails exactly when no video's track is kept,
      and then with SystemExit(1). */
  lemma ConvertOutcome(videos: seq<string>, audioDir: string, probe: string -> ExtractOutcome)
    ensures var r := ConvertResult(videos, audioDir, probe);
            && (r.Err? <==> forall i :: 0 <= i < |videos| ==> !Extracts(probe(videos[i]), false))
            && (r.Err? ==> r.error == SystemExit(1))
  {
    ExtractedNone(videos, audioDir, probe, false);
  }

  /** The cutting stage fails exactly when no audio file both decodes and
      has its clip written, and then with SystemExit(1). */
  lemma CutOutcome(audios: seq<string>, durationSec: nat, clipDir: string,
                   decode: string -> Option<Audio>, write: (string, Audio) -> bool)
    ensures var r := CutResult(audios, durationSec, clipDir, decode, write);
            && (r.Err? <==> forall i :: 0 <= i < |audios| ==>
                  !(decode(audios[i]).Some? &&
                    write(ClipPath(clipDir, audios[i]), TrimTo(decode(audios[i]).value, durationSec * 1000))))
            && (r.Err? ==> r.error == SystemExit(1))
  {
    TrimmedNone(audios, clipDir, durationSec * 1000, decode, write);
  }

  /** The merging stage reports an empty mashup exactly when every clip
      fails to decode or decodes to nothing; a success was written and is
      not empty. */
  lemma MergeOutcome(clips: seq<string>, output: string,
                     decode: string -> Option<Audio>, write: (string, Audio) -> bool)
    ensures var r := MergeResult(clips, output, decode, write);
            && (r == Err(SystemExit(1)) <==>
                  forall i :: 0 <= i < |clips| ==> decode(clips[i]).None? || decode(clips[i]).value == [])
            && (r.Ok? ==> |r.value| > 0 && write(output, r.value))
  {
    MergedEmpty(clips, decode);
  }

  // ---------------------------------------------------------------------
  // main

  /** The `try` body of `main` as written: only an interrupt at the start of
      the download changes which exception ends it; yt-dlp's download is
      never reached. */
  function TryBodyAsWritten(a: CliArgs, m: Media): Result<Audio> {
    if Raises(m, Download) then Err(m.interrupt.value.raised)
    else Err(DownloadAsWritten(VideoDir, m.listing).error)
  }

  /** The `try` body of `main` with the download corrected: each stage runs
      only if the one before it returned. */
  function TryBody(a: CliArgs, m: Media): Result<Audio> {
    if Raises(m, Download) || Raises(m, Fetch) then Err(m.interrupt.value.raised)
    else
      var videos := DownloadResult(VideoDir, m.listing);
      if videos.Err? then Err(videos.error)
      else if Raises(m, Convert) then Err(m.interrupt.value.raised)
      else
        var audios := ConvertResult(videos.value, AudioDir, m.probe);
        if audios.Err? then Err(audios.error)
        else if Raises(m, Cut) then Err(m.interrupt.value.raised)
        else
          var clips := CutResult(audios.value, a.duration, ClipDir, m.decode, m.write);
          if clips.Err? then Err(clips.error)
          else if Raises(m, Merge) then Err(m.interrupt.value.raised)
          else MergeResult(clips.value, a.output, m.decode, m.write)
  }

  /** How the process ends. */
  datatype Exit = Completed | Exited(code: int)

  /** The handlers of `main`: `KeyboardInterrupt` and any `Exception` become
      `sys.exit(1)`; a `SystemExit` passes through with its own code. */
  function ExitOf(r: Result<Audio>): (e: Exit)
    ensures e == Completed <==> r.Ok?
    ensures r.Err? && !r.error.SystemExit? ==> e == Exited(1)
    ensures r.Err? && r.error.SystemExit? ==> e == Exited(r.error.code)
  {
    match r
    case Ok(_) => Completed
    case Err(SystemExit(c)) => Exited(c)
    case Err(KeyboardInterrupt) => Exited(1)
    case Err(Error(_)) => Exited(1)
  }

  /** The whole script: rejected arguments exit 1 before the `try`. */
  function CliRun(argv: seq<string>, m: Media): Exit {
    match ValidateArgs(argv)
    case Invalid(_) => Exited(1)
    case Valid(a) => ExitOf(TryBody(a, m))
  }

  function CliRunAsWritten(argv: seq<string>, m: Media): Exit {
    match ValidateArgs(argv)
    case Invalid(_) => Exited(1)
    case Valid(a) => ExitOf(TryBodyAsWritten(a, m))
  }

  /** Whether the body gets past `download_videos` into `convert_to_audio`. */
  predicate ReachesConvert(m: Media) {
    && !Raises(m, Download) && !Raises(m, Fetch)
    && DownloadResult(VideoDir, m.listing).Ok? && !Raises(m, Convert)
  }

  /** Whether the body gets past `convert_to_audio` into `cut_clips`. */
  predicate ReachesCut(m: Media) {
    && ReachesConvert(m)
    && ConvertResult(DownloadResult(VideoDir, m.listing).value, AudioDir, m.probe).Ok?
    && !Raises(m, Cut)
  }

  /** The staging directories the body creates: each stage makes its own
      directory, and a stage runs only if the one before it returned. */
  function Created(m: Media): set<string> {
    (if Raises(m, Download) then {} else {VideoDir})
    + (if ReachesConvert(m) then {AudioDir} else {})
    + (if ReachesCut(m) then {ClipDir} else {})
  }

  /** The `try` body, run against the filesystem. */
  method TryMain(fs: FileSystem, a: CliArgs, m: Media) returns (r: Result<Audio>)
    modifies fs
    ensures r == TryBody(a, m)
    ensures fs.dirs == old(fs.dirs) + Created(m)
    ensures fs.files == if r.Ok? then old(fs.files)[a.output := r.value] else old(fs.files)
  {
    if Raises(m, Download) { r := Err(m.interrupt.value.raised); return; }
    var videos := DownloadVideos(fs, VideoDir, m);
    if videos.Err? { r := Err(videos.error); return; }

    if Raises(m, Convert) { r := Err(m.interrupt.value.raised); return; }
    assert ReachesConvert(m);
    var audios := ConvertToAudio(fs, videos.value, AudioDir, m.probe);
    if audios.Err? { r := Err(audios.error); return; }

    if Raises(m, Cut) { r := Err(m.interrupt.value.raised); return; }
    assert ReachesCut(m);
    var clips := CutClips(fs, audios.value, a.duration, ClipDir, m.decode, m.write);
    if clips.Err? { r := Err(clips.error); return; }

    if Raises(m, Merge) { r := Err(m.interrupt.value.raised); return; }
    r := MergeClips(fs, clips.value, a.output, m.decode, m.write);
  }

  /** `main`: rejected arguments leave the filesystem alone; otherwise,
      whatever the stages raise, no staging directory exists afterwards. */
  method RunMain(fs: FileSystem, argv: seq<string>, m: Media) returns (exit: Exit)
    modifies fs
    ensures exit == CliRun(argv, m)
    ensures ValidateArgs(argv).Invalid? ==> fs.dirs == old(fs.dirs) && fs.files == old(fs.files)
    ensures ValidateArgs(argv).Valid? ==>
              var a := ValidateArgs(argv).args;
              var r := TryBody(a, m);
              && fs.dirs == old(fs.dirs) - {VideoDir, AudioDir, ClipDir}
              && fs.files == if r.Ok? then old(fs.files)[a.output := r.value] else old(fs.files)
  {
    var v := ValidateArgs(argv);
    if v.Invalid? {
      exit := Exited(1);
      return;
    }
    var r := TryMain(fs, v.args, m);
    RemoveStagingDirs(fs, StagingDirs);
    exit := ExitOf(r);
  }

  // ---------------------------------------------------------------------
  // Properties of the script

  /** Unless something outside the model raises `SystemExit` with another
      code, the script either completes or exits with status 1. */
  lemma ExitStatus(argv: seq<string>, m: Media)
    requires m.interrupt.None? || !m.interrupt.value.raised.SystemExit?
             || m.interrupt.value.raised.code == 1
    ensures CliRun(argv, m) == Completed || CliRun(argv, m) == Exited(1)
  {
    if ValidateArgs(argv).Valid? {
      var a := ValidateArgs(argv).args;
      StageErrors(a, m);
    }
  }

  /** Every exception the body raises on its own is `SystemExit(1)` or the
      failing export; anything else came from outside. */
  lemma StageErrors(a: CliArgs, m: Media)
    ensures var r := TryBody(a, m);
            r.Err? ==> || r.error == SystemExit(1)
                       || r.error == Error(ExportFailedMsg)
                       || (m.interrupt.Some? && r.error == m.interrupt.value.raised)
  {
    if !Raises(m, Download) && !Raises(m, Fetch) {
      var videos := DownloadResult(VideoDir, m.listing);
      if videos.Ok? && !Raises(m, Convert) {
        var audios := ConvertResult(videos.value, AudioDir, m.probe);
        if audios.Ok? && !Raises(m, Cut) {
          var clips := CutResult(audios.value, a.duration, ClipDir, m.decode, m.write);
          if clips.Ok? && !Raises(m, Merge) {
            assert TryBody(a, m) == MergeResult(clips.value, a.output, m.decode, m.write);
          }
        }
      }
    }
  }

  /** A failing download decides how the body ends: the later stages'
      oracles, their interrupts and the arguments do not matter. */
  lemma DownloadFailureDecides(a: CliArgs, m: Media, a': CliArgs, m': Media)
    requires m'.listing == m.listing
    requires !Raises(m, Download) && !Raises(m', Download)
    requires !Raises(m, Fetch) && !Raises(m', Fetch)
    requires DownloadResult(VideoDir, m.listing).Err?
    ensures TryBody(a, m) == TryBody(a', m') == Err(SystemExit(1))
  {
  }

  /** A failing conversion decides how the body ends in the same way. */
  lemma ConvertFailureDecides(a: CliArgs, m: Media, a': CliArgs, m': Media)
    requires m'.listing == m.listing && m'.probe == m.probe
    requires ReachesConvert(m) && ReachesConvert(m')
    requires ConvertResult(DownloadResult(VideoDir, m.listing).value, AudioDir, m.probe).Err?
    ensures TryBody(a, m) == TryBody(a', m') == Err(SystemExit(1))
  {
  }

  /** A failing cut decides how the body ends: an interrupt of the merge
      stage and the output name do not matter. */
  lemma CutFailureDecides(a: CliArgs, m: Media, a': CliArgs, m': Media)
    requires a'.duration == a.duration
    requires m'.listing == m.listing && m'.probe == m.probe
    requires m'.decode == m.decode && m'.write == m.write
    requires ReachesCut(m) && ReachesCut(m')
    requires var audios := ConvertResult(DownloadResult(VideoDir, m.listing).value, AudioDir, m.probe);
             CutResult(audios.value, a.duration, ClipDir, m.decode, m.write).Err?
    ensures TryBody(a, m) == TryBody(a', m') == Err(SystemExit(1))
  {
  }

  /** Each staging directory is created only after the one before it, and a
      successful body has created all three. */
  lemma CreatedInOrder(a: CliArgs, m: Media)
    ensures ClipDir in Created(m) ==> AudioDir in Created(m)
    ensures AudioDir in Created(m) ==> VideoDir in Created(m)
    ensures TryBody(a, m).Ok? ==> Created(m) == {VideoDir, AudioDir, ClipDir}
  {
  }

  /** As written, the script never completes. */
  lemma AsWrittenNeverCompletes(argv: seq<string>, m: Media)
    ensures CliRunAsWritten(argv, m) != Completed
  {
  }

  /** Without close failures the corrected script builds exactly the
      mashup the web app builds from the same media, and fails exactly when
      the web app does. */
  lemma AgreesWithWebApp(a: CliArgs, m: Media)
    requires forall v :: m.probe(v) != CloseFails
    ensures TryBody(a, m).Ok? <==> WebApp.Mashup(a.duration, a.output, m).Ok?
    ensures TryBody(a, m).Ok? ==> TryBody(a, m).value == WebApp.Mashup(a.duration, a.output, m).value
  {
    if !Raises(m, Download) && !Raises(m, Fetch) {
      var videos := DownloadResult(VideoDir, m.listing);
      var webVideos := WebApp.DownloadResult(VideoDir, m.listing);
      assert videos.Ok? <==> webVideos.Ok?;
      if videos.Ok? && !Raises(m, Convert) {
        assert videos.value == webVideos.value;
        ExtractedWithoutCloseFailures(videos.value, AudioDir, m.probe);
        var audios := ConvertResult(videos.value, AudioDir, m.probe);
        var webAudios := WebApp.ConvertResult(webVideos.value, AudioDir, m.probe);
        assert audios.Ok? <==> webAudios.Ok?;
        if audios.Ok? && !Raises(m, Cut) {
          var clips := CutResult(audios.value, a.duration, ClipDir, m.decode, m.write);
          var webClips := WebApp.CutResult(webAudios.value, a.duration, ClipDir,
                                           m.decode, m.write);
          assert clips.Ok? <==> webClips.Ok?;
          if clips.Ok? && !Raises(m, Merge) {
            assert TryBody(a, m) == MergeResult(clips.value, a.output, m.decode, m.write);
            assert WebApp.Mashup(a.duration, a.output, m)
                == WebApp.MergeResult(webClips.value, a.output, m.decode, m.write);
          }
        }
      }
    }
  }

  lemma WitnessArgs()
    ensures ValidateArgs(WitnessArgv) == Valid(CliArgs("singer", 11, 21, "out.mp3"))
  {
    DecimalValueOf11();
    assert ParseInt("21") == Some(21) by {
      ParseIntRoundTrip(21);
      assert IntToString(21) == "21";
    }
    assert EndsWith("out.mp3", ".mp3");
  }

  /** One recognised video whose track is written, whose audio and clip
      decode to twenty-one seconds, and every write succeeding. */
  const WitnessMedia: Media :=
    Media(["a.mp4"], v => Written, p => Some(Silence()), (p, s) => true, None)
  const WitnessArgv: seq<string> := ["singer", "11", "21", "out.mp3"]

  /** Twenty-one seconds of silence. */
  function Silence(): (r: Audio)
    ensures |r| == 21000
  {
    seq(21000, i => 0)
  }

  /** On that input the corrected script completes and the script as
      written exits 1. */
  lemma CorrectedCompletes()
    ensures CliRun(WitnessArgv, WitnessMedia) == Completed
    ensures CliRunAsWritten(WitnessArgv, WitnessMedia) == Exited(1)
  {
    WitnessArgs();
    WitnessBody();
  }

  lemma WitnessBody()
    ensures TryBody(CliArgs("singer", 11, 21, "out.mp3"), WitnessMedia).Ok?
  {
    var m := WitnessMedia;
    WitnessListing();
    WitnessCooperative();
    WebApp.FullMashup(21, "out.mp3", m);
    AgreesWithWebApp(CliArgs("singer", 11, 21, "out.mp3"), m);
  }

  lemma WitnessCooperative()
    ensures WebApp.Cooperative(21, WitnessMedia)
  {
    assert TrimTo(Silence(), 21000) == Silence();
  }

  lemma WitnessListing()
    ensures AcquiredNames(WitnessMedia.listing) != []
  {
    assert IsVideoName("a.mp4") by {
      assert Lower("a.mp4") == "a.mp4";
    }
    AcquiredSpec(WitnessMedia.listing);
    assert "a.mp4" in WitnessMedia.listing;
  }
}

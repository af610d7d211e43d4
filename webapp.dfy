/** The web front end: form validation, the four stages with their error
    messages, and `run_mashup` with its guaranteed cleanup. */
module WebApp {
  import opened Common
  import opened Strings
  import opened Seqs
  import opened Paths
  import opened Stages
  import opened Disk

  const OutputMp3: string := "output.mp3"

  const NoVideosMsg: string := "No videos downloaded. Check your internet or singer name."
  const NoAudioMsg: string := "No audio files created after conversion."
  const NoClipsMsg: string := "No clipped files created."
  const EmptyMergeMsg: string := "Merged audio is empty."

  // ---------------------------------------------------------------------
  // The stages as the web app runs them

  /** `download_videos` after the download itself: the recognised files or
      an exception when there are none. */
  function DownloadResult(dir: string, listing: seq<string>): Result<seq<string>> {
    var videos := Acquired(dir, listing);
    if videos == [] then Err(Error(NoVideosMsg)) else Ok(videos)
  }

  /** `download_videos` from its `makedirs` on: the download directory
      exists afterwards, whether yt-dlp's download raises or the listing
      holds nothing. */
  method DownloadVideos(fs: FileSystem, dir: string, m: Media)
    returns (r: Result<seq<string>>)
    modifies fs
    ensures r == if Raises(m, Fetch) then Err(m.interrupt.value.raised) else DownloadResult(dir, m.listing)
    ensures fs.dirs == old(fs.dirs) + {dir} && fs.files == old(fs.files)
  {
    fs.MakeDirs(dir);
    if Raises(m, Fetch) {
      r := Err(m.interrupt.value.raised);
      return;
    }
    var videos := Acquired(dir, m.listing);
    if videos == [] {
      r := Err(Error(NoVideosMsg));
    } else {
      r := Ok(videos);
    }
  }

  /** The download stage fails exactly when the listing holds no
      recognised video, and then with Error(NoVideosMsg). */
  lemma DownloadOutcome(dir: string, listing: seq<string>)
    ensures var r := DownloadResult(dir, listing);
            && (r.Err? <==> forall n :: n in listing ==> !IsVideoName(n))
            && (r.Err? ==> r.error == Error(NoVideosMsg))
  {
    AcquiredSpec(listing);
  }

  function ConvertResult(videos: seq<string>, audioDir: string, probe: string -> ExtractOutcome)
    : Result<seq<string>>
  {
    var audios := Extracted(videos, audioDir, probe, true);
    if audios == [] then Err(Error(NoAudioMsg)) else Ok(audios)
  }

  /** `convert_to_audio` from its `makedirs` on: the item is recorded before
      the container is closed, so a failure while closing keeps it. */
  method ConvertToAudio(fs: FileSystem, videos: seq<string>, audioDir: string,
                        probe: string -> ExtractOutcome)
    returns (r: Result<seq<string>>)
    modifies fs
    ensures r == ConvertResult(videos, audioDir, probe)
    ensures fs.dirs == old(fs.dirs) + {audioDir} && fs.files == old(fs.files)
  {
    fs.MakeDirs(audioDir);
    var audios := ExtractAudio(videos, audioDir, probe, true);
    if audios == [] {
      r := Err(Error(NoAudioMsg));
    } else {
      r := Ok(audios);
    }
  }

  function CutResult(audios: seq<string>, durationSec: nat, clipDir: string,
                     decode: string -> Option<Audio>, write: (string, Audio) -> bool)
    : Result<seq<string>>
  {
    var clips := Trimmed(audios, clipDir, durationSec * 1000, decode, write);
    if clips == [] then Err(Error(NoClipsMsg)) else Ok(ClipPaths(clips))
  }

  /** `cut_clips` from its `makedirs` on. */
  method CutClips(fs: FileSystem, audios: seq<string>, durationSec: nat, clipDir: string,
                  decode: string -> Option<Audio>, write: (string, Audio) -> bool)
    returns (r: Result<seq<string>>)
    modifies fs
    ensures r == CutResult(audios, durationSec, clipDir, decode, write)
    ensures fs.dirs == old(fs.dirs) + {clipDir} && fs.files == old(fs.files)
  {
    fs.MakeDirs(clipDir);
    var clips := TrimAudio(audios, clipDir, durationSec * 1000, decode, write);
    if clips == [] {
      r := Err(Error(NoClipsMsg));
    } else {
      r := Ok(ClipPaths(clips));
    }
  }

  function MergeResult(clips: seq<string>, output: string,
                       decode: string -> Option<Audio>, write: (string, Audio) -> bool)
    : Result<Audio>
  {
    var combined := Merged(clips, decode);
    if |combined| == 0 then Err(Error(EmptyMergeMsg))
    else if !write(output, combined) then Err(Error(ExportFailedMsg))
    else Ok(combined)
  }

  /** `merge_clips`: the output file holds the mashup only when the export
      succeeded. */
  method MergeClips(fs: FileSystem, clips: seq<string>, output: string,
                    decode: string -> Option<Audio>, write: (string, Audio) -> bool)
    returns (r: Result<Audio>)
    modifies fs
    ensures r == MergeResult(clips, output, decode, write)
    ensures fs.dirs == old(fs.dirs)
    ensures fs.files == if r.Ok? then old(fs.files)[output := r.value] else old(fs.files)
  {
    var combined := Concatenate(clips, decode);
    if |combined| == 0 {
      r := Err(Error(EmptyMergeMsg));
    } else if !write(output, combined) {
      r := Err(Error(ExportFailedMsg));
    } else {
      fs.Export(output, combined);
      r := Ok(combined);
    }
  }

  /** The conversion stage fails exactly when no video's track is kept,
      and then with Error(NoAudioMsg). */
  lemma ConvertOutcome(videos: seq<string>, audioDir: string, probe: string -> ExtractOutcome)
    ensures var r := ConvertResult(videos, audioDir, probe);
            && (r.Err? <==> forall i :: 0 <= i < |videos| ==> !Extracts(probe(videos[i]), true))
            && (r.Err? ==> r.error == Error(NoAudioMsg))
  {
    ExtractedNone(videos, audioDir, probe, true);
  }

  /** The cutting stage fails exactly when no audio file both decodes and
      has its clip written, and then with Error(NoClipsMsg). */
  lemma CutOutcome(audios: seq<string>, durationSec: nat, clipDir: string,
                   decode: string -> Option<Audio>, write: (string, Audio) -> bool)
    ensures var r := CutResult(audios, durationSec, clipDir, decode, write);
            && (r.Err? <==> forall i :: 0 <= i < |audios| ==>
                  !(decode(audios[i]).Some? &&
                    write(ClipPath(clipDir, audios[i]), TrimTo(decode(audios[i]).value, durationSec * 1000))))
            && (r.Err? ==> r.error == Error(NoClipsMsg))
  {
    TrimmedNone(audios, clipDir, durationSec * 1000, decode, write);
  }

  /** The merging stage reports an empty mashup exactly when every clip
      fails to decode or decodes to nothing; a success was written and is
      not empty. */
  lemma MergeOutcome(clips: seq<string>, output: string,
                     decode: string -> Option<Audio>, write: (string, Audio) -> bool)
    ensures var r := MergeResult(clips, output, decode, write);
            && (r == Err(Error(EmptyMergeMsg)) <==>
                  forall i :: 0 <= i < |clips| ==> decode(clips[i]).None? || decode(clips[i]).value == [])
            && (r.Ok? ==> |r.value| > 0 && write(output, r.value))
  {
    MergedEmpty(clips, decode);
  }

  /** The `try` body of `run_mashup`: each stage runs only if the one before
      it returned, and the first exception is the outcome. */
  function Mashup(durationSec: nat, output: string, m: Media): Result<Audio> {
    if Raises(m, Download) || Raises(m, Fetch) then Err(m.interrupt.value.raised)
    else
      var videos := DownloadResult(VideoDir, m.listing);
      if videos.Err? then Err(videos.error) else MashupFromConvert(videos.value, durationSec, output, m)
  }

  /** The rest of the body once `download_videos` has returned. */
  function MashupFromConvert(videos: seq<string>, durationSec: nat, output: string, m: Media)
    : Result<Audio>
  {
    if Raises(m, Convert) then Err(m.interrupt.value.raised)
    else
      var audios := ConvertResult(videos, AudioDir, m.probe);
      if audios.Err? then Err(audios.error) else MashupFromCut(audios.value, durationSec, output, m)
  }

  /** The rest of the body once `convert_to_audio` has returned. */
  function MashupFromCut(audios: seq<string>, durationSec: nat, output: string, m: Media)
    : Result<Audio>
  {
    if Raises(m, Cut) then Err(m.interrupt.value.raised)
    else
      var clips := CutResult(audios, durationSec, ClipDir, m.decode, m.write);
      if clips.Err? then Err(clips.error) else MashupFromMerge(clips.value, output, m)
  }

  /** The rest of the body once `cut_clips` has returned. */
  function MashupFromMerge(clips: seq<string>, output: string, m: Media): Result<Audio> {
    if Raises(m, Merge) then Err(m.interrupt.value.raised)
    else MergeResult(clips, output, m.decode, m.write)
  }

  /** Whether the body gets past `download_videos` into `convert_to_audio`. */
  predicate ReachesConvert(m: Media) {
    && !Raises(m, Download) && !Raises(m, Fetch)
    && DownloadResult(VideoDir, m.listing).Ok? && !Raises(m, Convert)
  }

  /** Whether the body gets past `convert_to_audio` into `cut_clips`. */
  predicate ReachesCut(m: Media) {
    && ReachesConvert(m)
    && ConvertResult(DownloadResult(VideoDir, m.listing).value, AudioDir, m.probe).Ok?
    && !Raises(m, Cut)
  }

  /** The staging directories the body creates: each stage makes its own
      directory, and a stage runs only if the one before it returned. */
  function Created(m: Media): set<string> {
    (if Raises(m, Download) then {} else {VideoDir})
    + (if ReachesConvert(m) then {AudioDir} else {})
    + (if ReachesCut(m) then {ClipDir} else {})
  }

  /** The `try` body, run against the filesystem. */
  method TryMashup(fs: FileSystem, durationSec: nat, output: string, m: Media)
    returns (r: Result<Audio>)
    modifies fs
    ensures r == Mashup(durationSec, output, m)
    ensures fs.dirs == old(fs.dirs) + Created(m)
    ensures fs.files == if r.Ok? then old(fs.files)[output := r.value] else old(fs.files)
  {
    if Raises(m, Download) { r := Err(m.interrupt.value.raised); return; }
    var videos := DownloadVideos(fs, VideoDir, m);
    if videos.Err? { r := Err(videos.error); return; }
    assert Mashup(durationSec, output, m) == MashupFromConvert(videos.value, durationSec, output, m);

    if Raises(m, Convert) { r := Err(m.interrupt.value.raised); return; }
    var audios := ConvertToAudio(fs, videos.value, AudioDir, m.probe);
    if audios.Err? { r := Err(audios.error); return; }
    assert Mashup(durationSec, output, m) == MashupFromCut(audios.value, durationSec, output, m);

    if Raises(m, Cut) { r := Err(m.interrupt.value.raised); return; }
    var clips := CutClips(fs, audios.value, durationSec, ClipDir, m.decode, m.write);
    if clips.Err? { r := Err(clips.error); return; }
    assert Mashup(durationSec, output, m) == MashupFromMerge(clips.value, output, m);

    if Raises(m, Merge) { r := Err(m.interrupt.value.raised); return; }
    r := MergeClips(fs, clips.value, output, m.decode, m.write);
  }

  /** `run_mashup`: whatever the stages do, no staging directory exists
      afterwards, and the stages' exception (if any) is the outcome. */
  method RunMashup(fs: FileSystem, durationSec: nat, output: string, m: Media)
    returns (r: Result<Audio>)
    modifies fs
    ensures r == Mashup(durationSec, output, m)
    ensures fs.dirs == old(fs.dirs) - {VideoDir, AudioDir, ClipDir}
    ensures fs.files == if r.Ok? then old(fs.files)[output := r.value] else old(fs.files)
  {
    r := TryMashup(fs, durationSec, output, m);
    RemoveStagingDirs(fs, StagingDirs);
  }

  /** A run succeeds only when nothing interrupted it and every stage
      produced something; the mashup exported is then the concatenation of
      the clips cut from the audio of the downloaded videos. */
  lemma MashupOk(durationSec: nat, output: string, m: Media)
    requires Mashup(durationSec, output, m).Ok?
    ensures m.interrupt.None?
    ensures var videos := Acquired(VideoDir, m.listing);
            var audios := Extracted(videos, AudioDir, m.probe, true);
            var clips := Trimmed(audios, ClipDir, durationSec * 1000, m.decode, m.write);
            && videos != [] && audios != [] && clips != []
            && Mashup(durationSec, output, m).value == Merged(ClipPaths(clips), m.decode)
            && |Mashup(durationSec, output, m).value| > 0
  {
    if m.interrupt.Some? {
      match m.interrupt.value.at
      case Download =>
      case Fetch =>
      case Convert =>
      case Cut =>
      case Merge =>
    }
  }

  /** A failing download decides the outcome: the later stages' oracles,
      their interrupts, the duration and the output name do not matter. */
  lemma DownloadFailureDecides(durationSec: nat, output: string, m: Media,
                               durationSec': nat, output': string, m': Media)
    requires m'.listing == m.listing
    requires !Raises(m, Download) && !Raises(m', Download)
    requires !Raises(m, Fetch) && !Raises(m', Fetch)
    requires DownloadResult(VideoDir, m.listing).Err?
    ensures Mashup(durationSec, output, m) == Mashup(durationSec', output', m') == Err(Error(NoVideosMsg))
  {
  }

  /** A failing conversion decides the outcome in the same way. */
  lemma ConvertFailureDecides(durationSec: nat, output: string, m: Media,
                              durationSec': nat, output': string, m': Media)
    requires m'.listing == m.listing && m'.probe == m.probe
    requires ReachesConvert(m) && ReachesConvert(m')
    requires ConvertResult(DownloadResult(VideoDir, m.listing).value, AudioDir, m.probe).Err?
    ensures Mashup(durationSec, output, m) == Mashup(durationSec', output', m') == Err(Error(NoAudioMsg))
  {
  }

  /** A failing cut decides the outcome: an interrupt of the merge stage and
      the output name do not matter. */
  lemma CutFailureDecides(durationSec: nat, output: string, m: Media, output': string, m': Media)
    requires m'.listing == m.listing && m'.probe == m.probe
    requires m'.decode == m.decode && m'.write == m.write
    requires ReachesCut(m) && ReachesCut(m')
    requires var audios := ConvertResult(DownloadResult(VideoDir, m.listing).value, AudioDir, m.probe);
             CutResult(audios.value, durationSec, ClipDir, m.decode, m.write).Err?
    ensures Mashup(durationSec, output, m) == Mashup(durationSec, output', m') == Err(Error(NoClipsMsg))
  {
  }

  /** Each staging directory is created only after the one before it, and a
      successful run has created all three. */
  lemma CreatedInOrder(durationSec: nat, output: string, m: Media)
    ensures ClipDir in Created(m) ==> AudioDir in Created(m)
    ensures AudioDir in Created(m) ==> VideoDir in Created(m)
    ensures Mashup(durationSec, output, m).Ok? ==> Created(m) == {VideoDir, AudioDir, ClipDir}
  {
  }

  /** Conversely, a run without interruption in which every stage produces
      something and the write succeeds exports the merged clips. */
  lemma MashupCompletes(durationSec: nat, output: string, m: Media)
    requires m.interrupt.None?
    requires var videos := Acquired(VideoDir, m.listing);
             var audios := Extracted(videos, AudioDir, m.probe, true);
             var clips := Trimmed(audios, ClipDir, durationSec * 1000, m.decode, m.write);
             var merged := Merged(ClipPaths(clips), m.decode);
             && videos != [] && audios != [] && clips != []
             && |merged| > 0 && m.write(output, merged)
    ensures Mashup(durationSec, output, m)
         == Ok(Merged(ClipPaths(Trimmed(Extracted(Acquired(VideoDir, m.listing), AudioDir, m.probe, true),
                                        ClipDir, durationSec * 1000, m.decode, m.write)), m.decode))
  {
  }

  /** Media on which nothing fails: no interruption, every track is
      written, every audio file decodes to at least `durationSec` seconds,
      every clip reads back as written and every write succeeds. */
  ghost predicate Cooperative(durationSec: nat, m: Media) {
    && m.interrupt.None?
    && (forall v :: m.probe(v) == Written)
    && (forall v :: m.decode(AudioPath(AudioDir, v)).Some?
                 && |m.decode(AudioPath(AudioDir, v)).value| >= durationSec * 1000)
    && (forall v :: m.decode(ClipPath(ClipDir, AudioPath(AudioDir, v)))
                 == Some(TrimTo(m.decode(AudioPath(AudioDir, v)).value, durationSec * 1000)))
    && (forall p, s :: m.write(p, s))
  }

  /** When every downloaded video has a track of at least `durationSec`
      seconds, every write succeeds and each clip is read back as written,
      the mashup holds every video's clip at full length. */
  lemma FullMashup(durationSec: nat, output: string, m: Media)
    requires Cooperative(durationSec, m) && durationSec > 0
    requires AcquiredNames(m.listing) != []
    ensures Mashup(durationSec, output, m).Ok?
    ensures |Mashup(durationSec, output, m).value| == |AcquiredNames(m.listing)| * (durationSec * 1000)
  {
    var ms := durationSec * 1000;
    var videos := Acquired(VideoDir, m.listing);
    ExtractedAll(videos, AudioDir, m.probe, true);
    var audios := Extracted(videos, AudioDir, m.probe, true);
    FullClips(videos, audios, ms, m);
    var paths := ClipPaths(Trimmed(audios, ClipDir, ms, m.decode, m.write));
    MergedUniform(paths, m.decode, ms);
    assert |paths| * ms >= ms by {
      assert |paths| >= 1 && ms >= 1;
    }
    MashupCompletes(durationSec, output, m);
  }

  /** The trimming part of `FullMashup`: every audio file of a video yields
      a clip that reads back at exactly `ms` milliseconds. */
  lemma FullClips(videos: seq<string>, audios: seq<string>, ms: nat, m: Media)
    requires |audios| == |videos|
    requires forall i :: 0 <= i < |audios| ==> audios[i] == AudioPath(AudioDir, videos[i])
    requires forall v :: m.decode(AudioPath(AudioDir, v)).Some?
                      && |m.decode(AudioPath(AudioDir, v)).value| >= ms
    requires forall v :: m.decode(ClipPath(ClipDir, AudioPath(AudioDir, v)))
                      == Some(TrimTo(m.decode(AudioPath(AudioDir, v)).value, ms))
    requires forall p, s :: m.write(p, s)
    ensures var paths := ClipPaths(Trimmed(audios, ClipDir, ms, m.decode, m.write));
            && |paths| == |audios|
            && forall i :: 0 <= i < |paths| ==>
                 m.decode(paths[i]).Some? && |m.decode(paths[i]).value| == ms
  {
    TrimmedAll(audios, ClipDir, ms, m.decode, m.write);
    var clips := Trimmed(audios, ClipDir, ms, m.decode, m.write);
    var paths := ClipPaths(clips);
    forall i | 0 <= i < |paths|
      ensures m.decode(paths[i]).Some? && |m.decode(paths[i]).value| == ms
    {
      assert paths[i] == ClipPath(ClipDir, AudioPath(AudioDir, videos[i]));
    }
  }

  // ---------------------------------------------------------------------
  // The form handler

  /** One entry of the `errors` list, in the order the handler checks. */
  datatype FormError =
    | SingerMissing
    | CountNotInteger
    | CountTooSmall
    | DurationNotInteger
    | DurationTooShort
    | EmailInvalid
  {
    function Message(): string {
      match this
      case SingerMissing => "Singer name is required."
      case CountNotInteger => "Number of videos must be a valid integer."
      case CountTooSmall => "Number of videos must be greater than 10."
      case DurationNotInteger => "Duration must be a valid integer."
      case DurationTooShort => "Duration must be greater than 20 seconds."
      case EmailInvalid => "Enter a valid email address."
    }

    /** The form field the entry is about: singer, count, duration, e-mail. */
    function Field(): nat {
      match this
      case SingerMissing => 0
      case CountNotInteger => 1
      case CountTooSmall => 1
      case DurationNotInteger => 2
      case DurationTooShort => 2
      case EmailInvalid => 3
    }
  }

  /** `request.form.get(key, "")`. */
  function FormField(form: map<string, string>, key: string): string {
    if key in form then form[key] else ""
  }

  function Singer(form: map<string, string>): string { Strip(FormField(form, "singer_name")) }
  function CountText(form: map<string, string>): string { FormField(form, "num_videos") }
  function DurationText(form: map<string, string>): string { FormField(form, "duration") }
  function Email(form: map<string, string>): string { Strip(FormField(form, "email")) }

  /** The conditions under which the form is accepted, on the stripped
      singer and e-mail and what `int()` made of the count and duration
      (`None` where it raised `ValueError`). */
  predicate Accepts(singer: string, count: Option<int>, duration: Option<int>, email: string) {
    && singer != []
    && count.Some? && count.value > 10
    && duration.Some? && duration.value > 20
    && '@' in email
  }

  predicate FormAccepted(form: map<string, string>) {
    Accepts(Singer(form), ParseInt(CountText(form)), ParseInt(DurationText(form)), Email(form))
  }

  /** At most one entry per field, fields in the order they are checked. */
  predicate Ascending(errors: seq<FormError>) {
    forall i, j :: 0 <= i < j < |errors| ==> errors[i].Field() < errors[j].Field()
  }

  /** The entry each check contributes, if any. */
  function SingerCheck(singer: string): Option<FormError> {
    if singer == [] then Some(SingerMissing) else None
  }

  function CountCheck(count: Option<int>): Option<FormError> {
    if count.None? then Some(CountNotInteger) else if count.value <= 10 then Some(CountTooSmall) else None
  }

  function DurationCheck(duration: Option<int>): Option<FormError> {
    if duration.None? then Some(DurationNotInteger)
    else if duration.value <= 20 then Some(DurationTooShort) else None
  }

  function EmailCheck(email: string): Option<FormError> {
    if email == [] || '@' !in email then Some(EmailInvalid) else None
  }

  /** The `errors` list the validation block builds. */
  function FormErrors(singer: string, count: Option<int>, duration: Option<int>, email: string)
    : seq<FormError>
  {
    Emit(SingerCheck(singer)) + Emit(CountCheck(count))
      + Emit(DurationCheck(duration)) + Emit(EmailCheck(email))
  }

  /** At most one entry per field, in the order singer, count, duration, e-mail. */
  lemma FormErrorsOrdered(singer: string, count: Option<int>, duration: Option<int>, email: string)
    ensures Ascending(FormErrors(singer, count, duration, email))
    ensures |FormErrors(singer, count, duration, email)| <= 4
  {
    var a := Emit(SingerCheck(singer));
    var b := Emit(CountCheck(count));
    var c := Emit(DurationCheck(duration));
    var d := Emit(EmailCheck(email));
    AscendingAppend(a, b, 1);
    AscendingAppend(a + b, c, 2);
    AscendingAppend(a + b + c, d, 3);
  }

  /** Entries about earlier fields followed by entries about later ones. */
  lemma AscendingAppend(xs: seq<FormError>, ys: seq<FormError>, k: nat)
    requires Ascending(xs) && Ascending(ys)
    requires forall i :: 0 <= i < |xs| ==> xs[i].Field() < k
    requires forall j :: 0 <= j < |ys| ==> ys[j].Field() >= k
    ensures Ascending(xs + ys)
  {
    var zs := xs + ys;
    forall i, j | 0 <= i < j < |zs| ensures zs[i].Field() < zs[j].Field() {
      if j < |xs| {
        assert zs[i] == xs[i] && zs[j] == xs[j];
      } else if i < |xs| {
        assert zs[i] == xs[i] && zs[j] == ys[j - |xs|];
      } else {
        assert zs[i] == ys[i - |xs|] && zs[j] == ys[j - |xs|];
      }
    }
  }

  /** Each entry is present exactly when its rule is violated, and the list
      is empty exactly when the form is accepted. */
  lemma FormErrorsSpec(singer: string, count: Option<int>, duration: Option<int>, email: string)
    ensures var errors := FormErrors(singer, count, duration, email);
            && (errors == [] <==> Accepts(singer, count, duration, email))
            && (SingerMissing in errors <==> singer == [])
            && (CountNotInteger in errors <==> count.None?)
            && (CountTooSmall in errors <==> count.Some? && count.value <= 10)
            && (DurationNotInteger in errors <==> duration.None?)
            && (DurationTooShort in errors <==> duration.Some? && duration.value <= 20)
            && (EmailInvalid in errors <==> '@' !in email)
  {
  }

  datatype FormRequest = FormRequest(singer: string, count: int, duration: nat, email: string)

  /** The validation block of `index`, on the values read from the form:
      every violated rule appends one entry, and only a form without entries
      yields a request. */
  method ValidateForm(singer: string, countText: string, durationText: string, email: string)
    returns (errors: seq<FormError>, request: Option<FormRequest>)
    ensures errors == FormErrors(singer, ParseInt(countText), ParseInt(durationText), email)
    ensures request.Some? <==> Accepts(singer, ParseInt(countText), ParseInt(durationText), email)
    ensures request.Some? ==> request.value == FormRequest(singer,
              ParseInt(countText).value, ParseInt(durationText).value, email)
  {
    var n := ParseInt(countText);
    var duration := ParseInt(durationText);
    errors := [];
    if singer == [] {
      errors := errors + [SingerMissing];
    }
    assert errors == Emit(SingerCheck(singer));
    if n.None? {
      errors := errors + [CountNotInteger];
    } else if n.value <= 10 {
      errors := errors + [CountTooSmall];
    }
    assert errors == Emit(SingerCheck(singer)) + Emit(CountCheck(n));
    if duration.None? {
      errors := errors + [DurationNotInteger];
    } else if duration.value <= 20 {
      errors := errors + [DurationTooShort];
    }
    assert errors == Emit(SingerCheck(singer)) + Emit(CountCheck(n)) + Emit(DurationCheck(duration));
    if email == [] || '@' !in email {
      errors := errors + [EmailInvalid];
    }
    FormErrorsSpec(singer, n, duration, email);
    if errors == [] {
      request := Some(FormRequest(singer, n.value, duration.value, email));
    } else {
      request := None;
    }
  }

  /** What the handler renders. */
  datatype Page =
    | ShowErrors(errors: seq<string>)   // the form is rejected
    | ShowError(error: string)          // the mashup raised
    | ShowSuccess(message: string)      // the mashup was sent
    | Uncaught(raised: Exception)       // not an `Exception`: leaves the handler

  function Messages(errors: seq<FormError>): seq<string> {
    Map(errors, (e: FormError) => e.Message())
  }

  /** The page for a run's outcome, e-mail delivery assumed to succeed. */
  function OutcomePage(r: Result<Audio>, email: string): Page {
    match r
    case Ok(_) => ShowSuccess("Mashup sent successfully to " + email + "!")
    case Err(e) => if e.IsException() then ShowError(e.msg) else Uncaught(e)
  }

  /** The POST branch of `index`: the mashup runs only for an accepted form.
      After a successful run the exported mp3 is removed again. */
  method Index(fs: FileSystem, form: map<string, string>, m: Media) returns (page: Page)
    modifies fs
    ensures !FormAccepted(form) ==>
              && page == ShowErrors(Messages(FormErrors(Singer(form), ParseInt(CountText(form)),
                                                        ParseInt(DurationText(form)), Email(form))))
              && page.errors != []
              && fs.dirs == old(fs.dirs) && fs.files == old(fs.files)
    ensures FormAccepted(form) ==>
              var r := Mashup(ParseInt(DurationText(form)).value, OutputMp3, m);
              && page == OutcomePage(r, Email(form))
              && fs.dirs == old(fs.dirs) - {VideoDir, AudioDir, ClipDir}
              && fs.files == if r.Ok? then old(fs.files) - {OutputMp3} else old(fs.files)
  {
    var errors, request := ValidateForm(Singer(form), CountText(form), DurationText(form), Email(form));
    if errors != [] {
      page := ShowErrors(Messages(errors));
      return;
    }
    var req := request.value;
    var r := RunMashup(fs, req.duration, OutputMp3, m);
    if r.Ok? {
      // zipping and sending the mashup are not modelled
      fs.Remove(OutputMp3);
    }
    page := OutcomePage(r, req.email);
  }
}

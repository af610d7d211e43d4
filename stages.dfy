/** The four stages both front ends share: listing the downloads, extracting
    audio, trimming clips and concatenating them. The media libraries are
    oracles: `probe` stands for moviepy opening a video and writing its
    track, `decode` for pydub reading an mp3, `write` for pydub writing one. */
module Stages {
  import opened Common
  import opened Strings
  import opened Seqs
  import opened Order
  import opened Paths

  /** Where an exception from outside the model can arise. `Download`,
      `Convert`, `Cut` and `Merge` are the starts of the four stages, before
      each creates its directory (a missing library, a keyboard interrupt);
      `Fetch` is yt-dlp's download itself, after the download directory
      exists. */
  datatype Stage = Download | Fetch | Convert | Cut | Merge

  /** An exception raised from outside the model at one of those points. */
  datatype Interrupt = Interrupt(at: Stage, raised: Exception)

  /** What moviepy does with one video file. */
  datatype ExtractOutcome =
    | OpenFails    // opening the container raises
    | NoAudio      // the container has no audio track
    | WriteFails   // writing the track raises
    | CloseFails   // the track was written, then closing the container raised
    | Written      // the track was written and the container closed

  /** Everything the outside world decides during one run. */
  datatype Media = Media(
    listing: seq<string>,               // directory entries after the download
    probe: string -> ExtractOutcome,    // per video path
    decode: string -> Option<Audio>,    // per mp3 path; None when decoding raises
    write: (string, Audio) -> bool,    // per target path; false when writing raises
    interrupt: Option<Interrupt>)

  predicate Raises(m: Media, s: Stage) {
    m.interrupt.Some? && m.interrupt.value.at == s
  }

  // ---------------------------------------------------------------------
  // Staging directories and the export failure, the same in both front ends

  const VideoDir: string := "temp_videos"
  const AudioDir: string := "temp_audio"
  const ClipDir: string := "temp_clips"
  const StagingDirs: seq<string> := [VideoDir, AudioDir, ClipDir]

  /** pydub's own message when writing the mashup fails is not modelled. */
  const ExportFailedMsg: string := "mp3 export failed"

  // ---------------------------------------------------------------------
  // Acquisition

  /** A recognised container: the lowercased name ends in `.mp4`, `.webm` or `.mkv`. */
  predicate IsVideoName(name: string) {
    var l := Lower(name);
    EndsWith(l, ".mp4") || EndsWith(l, ".webm") || EndsWith(l, ".mkv")
  }

  /** The recognised names of the listing, in sorted order. */
  function AcquiredNames(listing: seq<string>): seq<string> {
    Filter(SortStrings(listing), IsVideoName)
  }

  /** The downloaded videos: `dir/name` for each recognised name. */
  function Acquired(dir: string, listing: seq<string>): (r: seq<string>)
    ensures |r| == |AcquiredNames(listing)|
    ensures forall k :: 0 <= k < |r| ==> r[k] == Join(dir, AcquiredNames(listing)[k])
  {
    Map(AcquiredNames(listing), n => Join(dir, n))
  }

  /** The acquisition result is sorted by name, holds exactly the recognised
      entries of the directory (as many times as they are listed), and is
      empty only when no entry is recognised. */
  lemma AcquiredSpec(listing: seq<string>)
    ensures Sorted(AcquiredNames(listing))
    ensures forall n :: n in AcquiredNames(listing) ==> n in listing && IsVideoName(n)
    ensures forall n :: IsVideoName(n) ==> multiset(AcquiredNames(listing))[n] == multiset(listing)[n]
    ensures AcquiredNames(listing) == [] <==> forall n :: n in listing ==> !IsVideoName(n)
  {
    var sorted := SortStrings(listing);
    SortStringsSorted(listing);
    FilterSorted(sorted, IsVideoName);
    forall n | IsVideoName(n)
      ensures multiset(AcquiredNames(listing))[n] == multiset(listing)[n]
    {
      FilterMultiset(sorted, IsVideoName, n);
    }
    forall n | n in AcquiredNames(listing) ensures n in listing {
      assert n in multiset(sorted);
    }
    if exists n :: n in listing && IsVideoName(n) {
      var n :| n in listing && IsVideoName(n);
      FilterMultiset(sorted, IsVideoName, n);
      assert n in multiset(AcquiredNames(listing));
    } else if AcquiredNames(listing) != [] {
      assert AcquiredNames(listing)[0] in AcquiredNames(listing);
    }
  }

  // ---------------------------------------------------------------------
  // Extraction

  /** Whether a video yields an audio file. `keepOnCloseFailure` says whether
      the item was already recorded when closing the container raised. */
  predicate Extracts(o: ExtractOutcome, keepOnCloseFailure: bool) {
    o.Written? || (o.CloseFails? && keepOnCloseFailure)
  }

  function ExtractFn(audioDir: string, probe: string -> ExtractOutcome, keepOnCloseFailure: bool)
    : string -> Option<string>
  {
    v => if Extracts(probe(v), keepOnCloseFailure) then Some(AudioPath(audioDir, v)) else None
  }

  function Extracted(videos: seq<string>, audioDir: string, probe: string -> ExtractOutcome,
                     keepOnCloseFailure: bool): seq<string>
  {
    FilterMap(videos, ExtractFn(audioDir, probe, keepOnCloseFailure))
  }

  /** The extraction loop: each video whose track is written contributes
      `audio_dir/<stem>.mp3`; any other video is skipped. */
  method ExtractAudio(videos: seq<string>, audioDir: string, probe: string -> ExtractOutcome,
                      keepOnCloseFailure: bool) returns (audio: seq<string>)
    ensures audio == Extracted(videos, audioDir, probe, keepOnCloseFailure)
  {
    audio := [];
    for i := 0 to |videos|
      invariant audio == FilterMap(videos[..i], ExtractFn(audioDir, probe, keepOnCloseFailure))
    {
      var vpath := videos[i];
      var apath := AudioPath(audioDir, vpath);
      var outcome := probe(vpath);
      if Extracts(outcome, keepOnCloseFailure) {
        audio := audio + [apath];
      }
      assert videos[..i + 1][..i] == videos[..i];
    }
    assert videos[..|videos|] == videos;
  }

  /** The extraction output is an order-preserving subsequence of the
      videos, each mapped to its audio path, and it keeps exactly the videos
      whose track was written. */
  lemma ExtractedSpec(videos: seq<string>, audioDir: string, probe: string -> ExtractOutcome,
                      keepOnCloseFailure: bool)
    ensures var out := Extracted(videos, audioDir, probe, keepOnCloseFailure);
            var idx := KeptIndices(videos, ExtractFn(audioDir, probe, keepOnCloseFailure));
            && |idx| == |out|
            && (forall k :: 0 <= k < |out| ==> out[k] == AudioPath(audioDir, videos[idx[k]]))
            && (forall i :: 0 <= i < |videos| ==>
                  (i in idx <==> Extracts(probe(videos[i]), keepOnCloseFailure)))
  {
    FilterMapKept(videos, ExtractFn(audioDir, probe, keepOnCloseFailure));
  }

  /** Whether a close failure keeps the item only matters when some close fails. */
  lemma {:induction false} ExtractedWithoutCloseFailures(videos: seq<string>, audioDir: string,
                                                         probe: string -> ExtractOutcome)
    requires forall i :: 0 <= i < |videos| ==> !probe(videos[i]).CloseFails?
    ensures Extracted(videos, audioDir, probe, false) == Extracted(videos, audioDir, probe, true)
  {
    if videos != [] {
      var init := videos[..|videos| - 1];
      assert forall i :: 0 <= i < |init| ==> init[i] == videos[i];
      ExtractedWithoutCloseFailures(init, audioDir, probe);
    }
  }

  /** Extraction yields nothing exactly when no video's track is kept. */
  lemma ExtractedNone(videos: seq<string>, audioDir: string, probe: string -> ExtractOutcome,
                      keepOnCloseFailure: bool)
    ensures Extracted(videos, audioDir, probe, keepOnCloseFailure) == [] <==>
            forall i :: 0 <= i < |videos| ==> !Extracts(probe(videos[i]), keepOnCloseFailure)
  {
    FilterMapEmpty(videos, ExtractFn(audioDir, probe, keepOnCloseFailure));
  }

  /** When every track is written, every video yields its audio path. */
  lemma ExtractedAll(videos: seq<string>, audioDir: string, probe: string -> ExtractOutcome,
                     keepOnCloseFailure: bool)
    requires forall i :: 0 <= i < |videos| ==> probe(videos[i]).Written?
    ensures var out := Extracted(videos, audioDir, probe, keepOnCloseFailure);
            && |out| == |videos|
            && forall k :: 0 <= k < |out| ==> out[k] == AudioPath(audioDir, videos[k])
  {
    FilterMapTotal(videos, ExtractFn(audioDir, probe, keepOnCloseFailure));
  }

  // ---------------------------------------------------------------------
  // Trimming

  /** A file written into the clip directory. */
  datatype Clip = Clip(path: string, audio: Audio)

  /** `seg[:ms] if len(seg) >= ms else seg`: the first `min(len, ms)`
      milliseconds, never padded. */
  function TrimTo(seg: Audio, ms: nat): (r: Audio)
    ensures |r| == Min(|seg|, ms)
    ensures r == seg[..|r|]
  {
    if |seg| >= ms then seg[..ms] else seg
  }

  function TrimItem(clipDir: string, ms: nat, decode: string -> Option<Audio>,
                    write: (string, Audio) -> bool, apath: string): Option<Clip>
  {
    var cpath := ClipPath(clipDir, apath);
    match decode(apath)
    case None => None
    case Some(seg) =>
      var chunk := TrimTo(seg, ms);
      if write(cpath, chunk) then Some(Clip(cpath, chunk)) else None
  }

  function TrimFn(clipDir: string, ms: nat, decode: string -> Option<Audio>,
                  write: (string, Audio) -> bool): string -> Option<Clip>
  {
    a => TrimItem(clipDir, ms, decode, write, a)
  }

  function Trimmed(audios: seq<string>, clipDir: string, ms: nat,
                   decode: string -> Option<Audio>, write: (string, Audio) -> bool): seq<Clip>
  {
    FilterMap(audios, TrimFn(clipDir, ms, decode, write))
  }

  function ClipPaths(clips: seq<Clip>): seq<string> {
    Map(clips, (c: Clip) => c.path)
  }

  /** The trimming loop: each audio file that decodes and whose clip exports
      contributes that clip; any other file is skipped. */
  method TrimAudio(audios: seq<string>, clipDir: string, ms: nat,
                   decode: string -> Option<Audio>, write: (string, Audio) -> bool)
    returns (clips: seq<Clip>)
    ensures clips == Trimmed(audios, clipDir, ms, decode, write)
  {
    clips := [];
    for i := 0 to |audios|
      invariant clips == FilterMap(audios[..i], TrimFn(clipDir, ms, decode, write))
    {
      var apath := audios[i];
      var cpath := ClipPath(clipDir, apath);
      var seg := decode(apath);
      if seg.Some? {
        var chunk := TrimTo(seg.value, ms);
        if write(cpath, chunk) {
          clips := clips + [Clip(cpath, chunk)];
        }
      }
      assert audios[..i + 1][..i] == audios[..i];
    }
    assert audios[..|audios|] == audios;
  }

  /** Each clip is named `clip_dir/clip_<basename>` after its source, in
      source order; it is the first `min(len, ms)` milliseconds of the decoded
      source; and exactly the sources that decode and write are kept. */
  lemma TrimmedSpec(audios: seq<string>, clipDir: string, ms: nat,
                    decode: string -> Option<Audio>, write: (string, Audio) -> bool)
    ensures var out := Trimmed(audios, clipDir, ms, decode, write);
            var idx := KeptIndices(audios, TrimFn(clipDir, ms, decode, write));
            && |idx| == |out|
            && (forall k :: 0 <= k < |out| ==>
                  && out[k].path == ClipPath(clipDir, audios[idx[k]])
                  && decode(audios[idx[k]]).Some?
                  && |out[k].audio| == Min(|decode(audios[idx[k]]).value|, ms)
                  && out[k].audio == decode(audios[idx[k]]).value[..|out[k].audio|])
            && (forall i :: 0 <= i < |audios| ==>
                  (i in idx <==>
                     decode(audios[i]).Some? &&
                     write(ClipPath(clipDir, audios[i]), TrimTo(decode(audios[i]).value, ms))))
  {
    FilterMapKept(audios, TrimFn(clipDir, ms, decode, write));
  }

  /** Trimming yields nothing exactly when no source both decodes and has
      its clip written. */
  lemma TrimmedNone(audios: seq<string>, clipDir: string, ms: nat,
                    decode: string -> Option<Audio>, write: (string, Audio) -> bool)
    ensures Trimmed(audios, clipDir, ms, decode, write) == [] <==>
            forall i :: 0 <= i < |audios| ==>
              !(decode(audios[i]).Some? &&
                write(ClipPath(clipDir, audios[i]), TrimTo(decode(audios[i]).value, ms)))
  {
    FilterMapEmpty(audios, TrimFn(clipDir, ms, decode, write));
  }

  /** When every source decodes to at least `ms` milliseconds and every
      write succeeds, each source yields a clip of exactly `ms` milliseconds. */
  lemma TrimmedAll(audios: seq<string>, clipDir: string, ms: nat,
                   decode: string -> Option<Audio>, write: (string, Audio) -> bool)
    requires forall i :: 0 <= i < |audios| ==>
               decode(audios[i]).Some? && |decode(audios[i]).value| >= ms
    requires forall i :: 0 <= i < |audios| ==>
               write(ClipPath(clipDir, audios[i]), TrimTo(decode(audios[i]).value, ms))
    ensures var out := Trimmed(audios, clipDir, ms, decode, write);
            && |out| == |audios|
            && forall k :: 0 <= k < |out| ==>
                 out[k] == Clip(ClipPath(clipDir, audios[k]), decode(audios[k]).value[..ms])
  {
    var f := TrimFn(clipDir, ms, decode, write);
    assert forall i :: 0 <= i < |audios| ==> f(audios[i]).Some?;
    FilterMapTotal(audios, f);
  }

  // ---------------------------------------------------------------------
  // Merging

  /** The in-order concatenation of the clips that decode. */
  function Merged(clips: seq<string>, decode: string -> Option<Audio>): Audio {
    Flatten(FilterMap(clips, decode))
  }

  /** The merging loop: `combined += segment` for each clip that decodes. */
  method Concatenate(clips: seq<string>, decode: string -> Option<Audio>) returns (combined: Audio)
    ensures combined == Merged(clips, decode)
  {
    combined := [];
    for i := 0 to |clips|
      invariant combined == Flatten(FilterMap(clips[..i], decode))
    {
      var seg := decode(clips[i]);
      if seg.Some? {
        combined := combined + seg.value;
      }
      assert clips[..i + 1][..i] == clips[..i];
      FlattenEmit(FilterMap(clips[..i], decode), decode(clips[i]));
    }
    assert clips[..|clips|] == clips;
  }

  /** The merged length is the sum of the decoded clips' lengths, and a clip
      added at the end contributes exactly its own audio. */
  lemma MergedSpec(clips: seq<string>, decode: string -> Option<Audio>, last: string)
    ensures |Merged(clips, decode)| == SumLengths(FilterMap(clips, decode))
    ensures Merged(clips + [last], decode)
         == Merged(clips, decode) + (if decode(last).Some? then decode(last).value else [])
  {
    FlattenLength(FilterMap(clips, decode));
    assert (clips + [last])[..|clips|] == clips;
    FlattenEmit(FilterMap(clips, decode), decode(last));
  }

  /** Clips that all decode to `n` milliseconds merge to `|clips| * n`. */
  lemma MergedUniform(clips: seq<string>, decode: string -> Option<Audio>, n: nat)
    requires forall i :: 0 <= i < |clips| ==>
               decode(clips[i]).Some? && |decode(clips[i]).value| == n
    ensures |Merged(clips, decode)| == |clips| * n
  {
    FilterMapTotal(clips, decode);
    var decoded := FilterMap(clips, decode);
    SumLengthsUniform(decoded, n);
    FlattenLength(decoded);
  }

  /** The merged audio is empty exactly when every clip fails to decode or
      decodes to nothing. */
  lemma {:induction false} MergedEmpty(clips: seq<string>, decode: string -> Option<Audio>)
    ensures |Merged(clips, decode)| == 0 <==>
            forall i :: 0 <= i < |clips| ==> decode(clips[i]).None? || decode(clips[i]).value == []
  {
    if clips != [] {
      var init := clips[..|clips| - 1];
      var last := clips[|clips| - 1];
      assert clips == init + [last];
      MergedSpec(init, decode, last);
      MergedEmpty(init, decode);
      assert forall i :: 0 <= i < |init| ==> init[i] == clips[i];
    }
  }
}

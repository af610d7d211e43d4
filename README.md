# YouTube mashup maker: a Dafny model of the pipeline

The repository builds an audio "mashup" for a singer. It searches YouTube and
downloads a number of videos. It extracts each video's audio track and cuts
the first N seconds of every track. It then concatenates the clips into one
mp3. There are two front ends:

- `app.py` is a Flask form. It validates the form, lists every problem it
  finds, runs the pipeline, and mails the result. It also chooses an SMTP
  server for an address.
- `MASHUP.py` is a command-line script. It validates four arguments, stops
  at the first problem, and runs the same pipeline with `sys.exit(1)` on
  every stage failure.

Both front ends share one rule: the three staging directories `temp_videos`,
`temp_audio` and `temp_clips` are removed on every way out.

The model replaces every library call with an oracle carried in
`Stages.Media`:

| oracle | stands for |
|---|---|
| `listing` | the directory entries after yt-dlp's download |
| `probe` | moviepy opening a video and writing its track |
| `decode` | pydub reading an mp3 |
| `write` | pydub exporting an mp3 |
| `interrupt` | an exception raised from outside, either at the start of a stage before it creates its directory (a missing library, Ctrl-C) or from yt-dlp's download itself, after the download directory exists (`Stages.Fetch`) |

Audio is a sequence of samples, one per millisecond, as pydub measures it.
Python's exceptions are `Common.Exception`: `Error` is any `Exception`
subclass, while `SystemExit` and `KeyboardInterrupt` are not caught by
`except Exception`.

Modules:

- `Strings`: ASCII `lower`, `strip`, `split(c)[-1]`, and `int()` on decimal text.
- `Seqs`: skip-and-continue loops (`FilterMap`), comprehensions, and concatenation.
- `Order`: Python's string order and `sorted`.
- `Paths`: `os.path.join`, `basename` and `splitext`, plus the names derived for audio files and clips.
- `Stages`: the four stages and their loops.
- `Disk`: a `FileSystem` class holding the existing directories and the exported files.
- `Smtp`: the provider table and `get_smtp_settings`.
- `WebApp`: `download_videos` … `merge_clips`, `run_mashup`, and the form handler of `app.py`.
- `Cli`: `validate_args`, the stages, and `main` of `MASHUP.py`.

Each loop is a method proved equal to a function on its inputs:

- `ExtractAudio`, `TrimAudio` and `Concatenate` in `Stages`;
- `RemoveStagingDirs` in `Disk`.

`WebApp.ValidateForm` is straight-line code. Its appends are proved equal to
the error list `WebApp.FormErrors`. Each stage method (`DownloadVideos`,
`ConvertToAudio`, `CutClips`, `MergeClips`) runs its loop and carries out the
stage's effect on the `FileSystem`. The staging stages create their
directory; the merge exports the output file. A companion function
(`DownloadResult`, `ConvertResult`, `CutResult`, `MergeResult`) gives the
stage's outcome, and the `try` bodies are specified by these functions.

The lemmas beside each function state what the source promises. A stage's
output is an order-preserving subsequence of its input, given by
`KeptIndices`. Exactly the items that succeed are kept. A clip is a prefix of
its source of length `min(len, ms)`. The mashup is the in-order
concatenation of the clips that decode. Cleanup happens whatever the stages
raise.

Behaviour worth knowing about:

- The command-line script stops at the first violation, in the order count,
  duration, extension (`Cli.ValidateArgs`). Only the web form reports all of
  them (`WebApp.FormErrors`). The script never checks the singer, and the
  form never checks an output name.
- Acquisition sorts the file names with `sorted` (`Order.SortStrings`). The
  result follows download order only because yt-dlp's autonumber prefix is
  zero-padded.
- The staging directories have fixed names, so two runs share them.
- A failed run leaves the file table as it was. An output file that existed
  before is not removed (`WebApp.RunMashup`, `Cli.RunMain`).
- A stage failure has no error type of its own. In `app.py` it is an
  `Exception` with a fixed message; in `MASHUP.py` it is `sys.exit(1)`.
- A later stage, and the staging directory it creates, is reached only when
  every earlier stage returned (`WebApp.Created`, `Cli.Created`).

## Model

| member | source | states |
|---|---|---|
| Strings.Lower | app.py:80 | same length; each ASCII capital becomes its lowercase letter, every other character is unchanged, and no capital is left |
| Strings.LowerIdempotent | app.py:24 | lowering an already lowered string changes nothing |
| Strings.AfterLast | app.py:24 | `split("@")[-1]` holds no separator and is a suffix of the input; it is the whole input when there is no separator, otherwise the character before it is the separator |
| Strings.AfterLastOfJoin | app.py:24 | for `a + "@" + b` with no `@` in `b`, the text after the last `@` is exactly `b` |
| Strings.StripLeftSpec | app.py:180 | the left-stripped text is a suffix that starts with a non-space (or is empty), and everything removed is whitespace |
| Strings.StripRightSpec | app.py:183 | the right-stripped text is a prefix that ends with a non-space (or is empty), and everything removed is whitespace |
| Strings.Strip | app.py:180 | definition of `strip()`; its properties are in StripLeftSpec, StripRightSpec and StripSpec |
| Strings.StripSpec | app.py:180-183 | `strip()` is empty exactly when the input is all whitespace; otherwise it starts and ends with a non-space |
| Strings.ParseInt | app.py:189-200 | `int()` succeeds exactly on an optional sign followed by one or more digits; a digit string yields its decimal value; `+d` yields the value of `d` and `-d` its negation; a negative value needs a leading `-` |
| Strings.ParseIntRoundTrip | app.py:190 | `int(str(n)) == n` for every integer |
| Seqs.Filter | app.py:77-81 | the comprehension is no longer than its input, and holds exactly the input elements that pass the test |
| Seqs.FilterMultiset | app.py:77-81 | each element that passes keeps its number of occurrences; no other element occurs |
| Seqs.FilterMap | app.py:99-108 | a skip-and-continue loop yields at most one value per input item |
| Seqs.KeptIndices | app.py:99-108 | the kept positions are in range, strictly increasing, and are exactly the positions whose item succeeds |
| Seqs.FilterMapKept | app.py:99-108 | the loop's k-th output is the value produced by the item at the k-th kept position |
| Seqs.FilterMapAppend | app.py:99-108 | skipping is local: the output for `xs + ys` is the output for `xs` followed by the output for `ys` |
| Seqs.FilterMapEmpty | app.py:110-111 | the loop's output is empty exactly when no item succeeds |
| Seqs.FilterMapTotal | app.py:99-108 | when every item succeeds, nothing is skipped and the k-th output comes from the k-th item |
| Seqs.FlattenSnoc | app.py:151 | `combined += seg` appends `seg` at the end |
| Seqs.FlattenEmit | app.py:149-153 | a clip that fails to decode leaves `combined` unchanged; one that decodes is appended |
| Seqs.FlattenLength | app.py:155 | the length of the concatenation is the sum of the lengths |
| Seqs.SumLengthsUniform | app.py:124-130 | clips of one common length sum to count times that length |
| Seqs.Map | app.py:77-78 | a mapping comprehension keeps length and maps each position |
| Order.StrLe | app.py:79 | definition of Python's `<=` on `str`, by code point; its properties are in StrLeTotal, StrLeTransitive and StrLeAntisymmetric |
| Order.StrLeTotal | app.py:79 | any two strings are ordered one way or the other |
| Order.StrLeTransitive | app.py:79 | the string order is transitive |
| Order.StrLeAntisymmetric | app.py:79 | strings ordered both ways are equal |
| Order.Insert | app.py:79 | inserting adds exactly one occurrence of the element |
| Order.InsertSorted | app.py:79 | inserting into a sorted list keeps it sorted |
| Order.SortStrings | app.py:79 | `sorted` returns a permutation of its input |
| Order.SortStringsSorted | app.py:79 | `sorted` returns an ordered list |
| Order.FilterSorted | app.py:77-81 | keeping some names of a sorted list leaves it sorted |
| Paths.Join | app.py:78 | definition of `os.path.join` (an absolute name replaces the directory; a `/` is inserted only when missing); its properties are in BasenameJoin |
| Paths.Basename | app.py:101 | the basename has no `/` and is a suffix of the path |
| Paths.Stem | app.py:101 | `splitext(b)[0]` is a prefix of `b`; it is `b` itself, or it is followed by a `.` after which no `.` occurs; it is `b` itself exactly when `b` has no `.` or only dots precede its last `.` |
| Paths.AudioPath | app.py:101-102 | definition of `audio_dir/<stem>.mp3` for a video path; its properties are in AudioOfDownload and ClipOfVideo |
| Paths.ClipPath | app.py:128 | definition of `clip_dir/clip_<basename>` for an audio path; its properties are in ClipOfVideo |
| Paths.BasenameJoin | app.py:78 | a name without `/` joined onto any directory is its own basename again |
| Paths.StemOfName | app.py:101 | `splitext` removes exactly the last extension when a non-dot precedes it |
| Paths.ClipOfVideo | app.py:102-128 | the clip of a video's audio file is `clip_dir/clip_<stem>.mp3` |
| Paths.AudioOfDownload | app.py:101-102 | a download `dir/<title>.<ext>` is extracted to `audio_dir/<title>.mp3` |
| Stages.IsVideoName | app.py:80 | definition: the lowercased name ends in `.mp4`, `.webm` or `.mkv`; its properties are in AcquiredSpec |
| Stages.AcquiredNames | app.py:79-80 | definition: the recognised names of the sorted listing; its properties are in AcquiredSpec |
| Stages.Acquired | app.py:77-81 | one path per recognised name, each being the name joined onto the download directory, in order |
| Stages.AcquiredSpec | app.py:77-83 | the recognised names are sorted, are all in the listing and recognised, keep their multiplicity, and are empty exactly when no entry is recognised |
| Stages.Extracted | app.py:99-108 | definition of the extraction loop's result; its properties are in ExtractedSpec, ExtractedNone, ExtractedAll and ExtractedWithoutCloseFailures |
| Stages.ExtractAudio | app.py:97-108 | the extraction loop returns the extraction function of its inputs |
| Stages.ExtractedSpec | app.py:99-108 | the extracted paths are an order-preserving subsequence of the videos, each the video's `audio_dir/<stem>.mp3`, kept exactly when its track is recorded |
| Stages.ExtractedWithoutCloseFailures | MASHUP.py:95-101 | appending inside or after the `with` block only differs when closing a container fails |
| Stages.ExtractedNone | app.py:110-111 | extraction yields nothing exactly when no video's track is recorded |
| Stages.ExtractedAll | app.py:99-106 | when every track is written, every video yields its audio path in order |
| Stages.TrimTo | app.py:130 | the chunk has length `min(len(seg), ms)` and is a prefix of `seg`; it is never padded |
| Stages.TrimItem | app.py:127-132 | definition of one iteration of `cut_clips`: decode, take the prefix, export, record; its properties are in TrimmedSpec |
| Stages.Trimmed | app.py:126-134 | definition of the trimming loop's result; its properties are in TrimmedSpec, TrimmedNone and TrimmedAll |
| Stages.TrimAudio | app.py:123-134 | the trimming loop returns the trimming function of its inputs |
| Stages.TrimmedSpec | app.py:126-134 | each clip is named `clip_dir/clip_<basename>` after its source, in source order; it is the source's prefix of length `min(len, ms)`; exactly the sources that decode and export are kept |
| Stages.TrimmedNone | app.py:136-137 | trimming yields nothing exactly when no source both decodes and exports |
| Stages.TrimmedAll | app.py:124-132 | sources of at least `ms` that all export yield clips of exactly their first `ms` |
| Stages.Merged | app.py:148-153 | definition of the merging loop's result; its properties are in MergedSpec, MergedUniform and MergedEmpty |
| Stages.Concatenate | app.py:148-153 | the merging loop returns the concatenation of the clips that decode |
| Stages.MergedSpec | app.py:148-155 | the merged length is the sum of the decoded lengths; a clip added last contributes exactly its own audio |
| Stages.MergedUniform | app.py:148-155 | clips that all decode to `n` ms merge to `count * n` ms |
| Stages.MergedEmpty | app.py:155-156 | the merge is empty exactly when every clip fails to decode or decodes to nothing |
| Disk.FileSystem.MakeDirs | app.py:62 | the directory exists afterwards; nothing else changes |
| Disk.FileSystem.RemoveTree | app.py:174 | the directory no longer exists; exported files are untouched |
| Disk.FileSystem.Export | app.py:158 | the file now holds the audio; directories are untouched |
| Disk.FileSystem.Remove | app.py:224 | the file no longer exists; directories are untouched |
| Disk.RemoveStagingDirs | app.py:171-174 | afterwards none of the listed directories exists, every other directory is as before, and no file changes |
| Smtp.ProvidersUseSubmission | app.py:11-21 | every provider in the table uses port 587 and an `smtp.` host |
| Smtp.MailDomain | app.py:24 | an address without `@` is its own (lowercased) domain |
| Smtp.GetSmtpSettings | app.py:23-27 | port 587 and an `smtp.` host always; the table entry for a known domain; `smtp.<domain>` otherwise |
| Smtp.SettingsOfAddress | app.py:23-27 | the settings of `local@domain` depend only on the lowercased domain |
| WebApp.DownloadResult | app.py:77-86 | definition of `download_videos`' outcome; its properties are in DownloadOutcome |
| WebApp.DownloadVideos | app.py:62-86 | creates the download directory and changes nothing else; returns the exception of yt-dlp's download if it raises, otherwise the download outcome |
| WebApp.DownloadOutcome | app.py:77-86 | `download_videos` fails exactly when no listed file is a recognised video, with its fixed message |
| WebApp.ConvertResult | app.py:97-113 | definition of `convert_to_audio`'s outcome; its properties are in ConvertOutcome |
| WebApp.ConvertToAudio | app.py:90-113 | creates the audio directory, changes nothing else, and returns the extraction of the videos (keeping an item whose container fails to close) or the stage's exception |
| WebApp.ConvertOutcome | app.py:110-113 | `convert_to_audio` fails exactly when no video's track is recorded, with its fixed message |
| WebApp.CutResult | app.py:123-139 | definition of `cut_clips`' outcome; its properties are in CutOutcome |
| WebApp.CutClips | app.py:116-139 | creates the clip directory, changes nothing else, and returns the clips' paths for `duration_sec * 1000` ms or the stage's exception |
| WebApp.CutOutcome | app.py:136-139 | `cut_clips` fails exactly when no audio file decodes and exports, with its fixed message |
| WebApp.MergeResult | app.py:148-158 | definition of `merge_clips`' outcome; its properties are in MergeOutcome |
| WebApp.MergeClips | app.py:142-158 | returns the merged audio, an empty-merge exception or the export failure; the output file holds the mashup exactly on success, and nothing else changes |
| WebApp.MergeOutcome | app.py:155-158 | `merge_clips` reports an empty merge exactly when no clip contributes audio; a success is non-empty and was exported |
| WebApp.Mashup | app.py:166-170 | definition of the `try` body's outcome, continued by MashupFromConvert, MashupFromCut and MashupFromMerge; its properties are in MashupOk, MashupCompletes and the *FailureDecides lemmas |
| WebApp.MashupFromConvert | app.py:168-170 | definition of the rest of the body once the download returned |
| WebApp.MashupFromCut | app.py:169-170 | definition of the rest of the body once the conversion returned |
| WebApp.MashupFromMerge | app.py:170 | definition of the last stage of the body |
| WebApp.Created | app.py:62-122 | definition of the staging directories the body creates: each only when every earlier stage returned and the start of its own stage was not interrupted (an error in yt-dlp's download still leaves the download directory) |
| WebApp.TryMashup | app.py:166-170 | the `try` body returns the first exception or the exported mashup; the directories afterwards are exactly the old ones plus `Created`; the output file is written only on success |
| WebApp.RunMashup | app.py:161-174 | whatever the stages do, none of the three staging directories exists afterwards, other directories are as before, and the stages' outcome is passed on |
| WebApp.MashupOk | app.py:166-170 | a successful run had no interruption and non-empty stages, and exports the non-empty concatenation of the clips cut from the audio of the downloaded videos |
| WebApp.DownloadFailureDecides | app.py:83-170 | when the download fails, the outcome is its exception whatever the later oracles, interrupts, duration and output are |
| WebApp.ConvertFailureDecides | app.py:110-170 | when the conversion fails, the outcome is its exception whatever the later oracles, interrupts, duration and output are |
| WebApp.CutFailureDecides | app.py:136-170 | when cutting fails, the outcome is its exception whatever the merge interrupt and output are |
| WebApp.CreatedInOrder | app.py:62-122 | the clip directory is created only with the audio directory, that one only with the video directory, and a successful run has created all three |
| WebApp.MashupCompletes | app.py:166-170 | an uninterrupted run whose stages all produce something and whose export succeeds returns the merged clips |
| WebApp.FullMashup | app.py:124-158 | when nothing fails and every track lasts `duration` seconds, the mashup is `videos * duration * 1000` ms long |
| WebApp.FullClips | app.py:126-134 | when nothing fails, every audio file yields a clip that reads back at exactly `ms` |
| WebApp.FormField | app.py:180-183 | definition of `request.form.get(key, "")` |
| WebApp.Singer | app.py:180 | definition: the stripped singer field |
| WebApp.CountText | app.py:181 | definition: the raw count field |
| WebApp.DurationText | app.py:182 | definition: the raw duration field |
| WebApp.Email | app.py:183 | definition: the stripped e-mail field |
| WebApp.Accepts | app.py:187-204 | definition of an accepted form on parsed values: a singer, a count above 10, a duration above 20, an `@` in the e-mail; its properties are in FormErrorsSpec |
| WebApp.FormAccepted | app.py:180-204 | definition: the form's fields, read and parsed, are accepted; its properties are in Index |
| WebApp.FormErrors | app.py:186-202 | definition of the error list, one optional entry per field; its properties are in FormErrorsOrdered and FormErrorsSpec |
| WebApp.FormErrorsOrdered | app.py:186-202 | at most one entry per field, in the order singer, count, duration, e-mail, so at most four |
| WebApp.FormErrorsSpec | app.py:186-204 | each message is present exactly when its rule is violated, both failure kinds of a number are told apart, and the list is empty exactly when the form is accepted |
| WebApp.ValidateForm | app.py:180-205 | builds exactly the error list of the form and returns a request exactly when the form is accepted, carrying the parsed values |
| WebApp.Index | app.py:179-235 | a rejected form shows its non-empty error list and touches nothing; an accepted form runs the mashup on the parsed duration, shows its outcome, removes every staging directory, and after a success removes the exported `output.mp3` again |
| WebApp.OutcomePage | app.py:228-235 | definition of the page after a run: success, the message of an `Exception`, or an exception that leaves the handler; its properties are in Index |
| Cli.CountOk | MASHUP.py:15-21 | definition: the count parses and exceeds 10; its properties are in ValidateArgs |
| Cli.DurationOk | MASHUP.py:24-30 | definition: the duration parses and exceeds 20; its properties are in ValidateArgs |
| Cli.Violations | MASHUP.py:5-35 | definition of every check an argument list fails, in order; its properties are in ValidateArgs |
| Cli.ValidateArgs | MASHUP.py:5-37 | the arguments are accepted exactly when no check fails; a rejection names the first failing check in the order count, duration, extension; an acceptance carries the parsed values |
| Cli.DownloadAsWritten | MASHUP.py:49-53 | definition: after `makedirs`, reading `VID_DIR` raises `NameError`; its properties are in AsWrittenNeverCompletes |
| Cli.DownloadResult | MASHUP.py:64-75 | definition of the corrected download's outcome; its properties are in DownloadOutcome |
| Cli.DownloadVideos | MASHUP.py:49-75 | the corrected download creates the download directory and changes nothing else; returns the exception of yt-dlp's download if it raises, otherwise the download outcome |
| Cli.DownloadOutcome | MASHUP.py:64-75 | the corrected download fails exactly when no listed file is a recognised video, and then exits with status 1 |
| Cli.ConvertResult | MASHUP.py:85-110 | definition of `convert_to_audio`'s outcome; its properties are in ConvertOutcome |
| Cli.ConvertToAudio | MASHUP.py:78-110 | creates the audio directory, changes nothing else, and returns the extraction of the videos (dropping an item whose container fails to close) or the stage's exit |
| Cli.ConvertOutcome | MASHUP.py:105-107 | `convert_to_audio` exits 1 exactly when no video's track is recorded |
| Cli.CutResult | MASHUP.py:120-143 | definition of `cut_clips`' outcome; its properties are in CutOutcome |
| Cli.CutClips | MASHUP.py:113-143 | creates the clip directory, changes nothing else, and returns the clips' paths for `duration_sec * 1000` ms or the stage's exit |
| Cli.CutOutcome | MASHUP.py:138-140 | `cut_clips` exits 1 exactly when no audio file decodes and exports |
| Cli.MergeResult | MASHUP.py:154-167 | definition of `merge_clips`' outcome; its properties are in MergeOutcome |
| Cli.MergeClips | MASHUP.py:146-167 | returns the merged audio, an exit 1 when empty, or the export failure; the output file holds the mashup exactly on success, and nothing else changes |
| Cli.MergeOutcome | MASHUP.py:163-167 | `merge_clips` exits 1 exactly when no clip contributes audio; a success is non-empty and was exported |
| Cli.ExitOf | MASHUP.py:194-199 | the process completes exactly on success; `KeyboardInterrupt` and every `Exception` give status 1; a `SystemExit` keeps its own code |
| Cli.TryBodyAsWritten | MASHUP.py:188-189 | definition of the `try` body as written: it ends at the download; its properties are in AsWrittenNeverCompletes |
| Cli.TryBody | MASHUP.py:188-192 | definition of the corrected `try` body's outcome; its properties are in StageErrors, AgreesWithWebApp and the *FailureDecides lemmas |
| Cli.CliRun | MASHUP.py:172-205 | definition of the corrected script's exit; its properties are in ExitStatus and RunMain |
| Cli.CliRunAsWritten | MASHUP.py:172-205 | definition of the script's exit as written; its properties are in AsWrittenNeverCompletes and CorrectedCompletes |
| Cli.Created | MASHUP.py:49-120 | definition of the staging directories the corrected body creates: each only when every earlier stage returned and the start of its own stage was not interrupted (an error in yt-dlp's download still leaves the download directory) |
| Cli.TryMain | MASHUP.py:188-192 | the `try` body returns the first exception or the exported mashup; the directories afterwards are exactly the old ones plus `Created`; the output file is written only on success |
| Cli.RunMain | MASHUP.py:172-205 | rejected arguments exit 1 with nothing touched; otherwise no staging directory exists afterwards, whatever the stages raise |
| Cli.ExitStatus | MASHUP.py:188-199 | unless something outside raises `SystemExit` with another code, the script completes or exits with status 1 |
| Cli.StageErrors | MASHUP.py:188-192 | every exception the body raises by itself is `SystemExit(1)` or the export failure |
| Cli.DownloadFailureDecides | MASHUP.py:70-192 | when the corrected download fails, the body exits 1 whatever the later oracles, interrupts and arguments are |
| Cli.ConvertFailureDecides | MASHUP.py:105-192 | when the conversion fails, the body exits 1 whatever the later oracles, interrupts and arguments are |
| Cli.CutFailureDecides | MASHUP.py:138-192 | when cutting fails, the body exits 1 whatever the merge interrupt and output name are |
| Cli.CreatedInOrder | MASHUP.py:49-120 | the clip directory is created only with the audio directory, that one only with the video directory, and a successful body has created all three |
| Cli.AsWrittenNeverCompletes | MASHUP.py:49-53 | as written, the script never completes |
| Cli.AgreesWithWebApp | MASHUP.py:95-101 | without close failures the corrected script builds the same mashup as the web app and fails exactly when it does |
| Cli.CorrectedCompletes | MASHUP.py:53 | on one recognised video with cooperative media, the corrected script completes while the script as written exits 1 |

## Left out

- Downloading (yt-dlp), reading videos (moviepy), and decoding and exporting mp3 (pydub) are oracles. Their formats, codecs and options are not modelled.
- Mailing the result is not modelled: `send_email`, the SMTP session, and zipping `output.zip`. Its errors and their pages are not modelled either. `WebApp.Index` assumes delivery succeeds.
- Rendering templates and the GET branch of the form are left out.
- The number of videos only shapes the YouTube search query. The `listing` oracle stands for what the search downloaded, so the parsed count is checked but not used afterwards.
- `print` output and the float total duration of the script are left out.
- Interrupts: an exception from outside is modelled at the start of a stage, before the stage creates its directory, and at yt-dlp's download, after the download directory exists. The start of a stage includes a missing library, which in the script is `print` plus `sys.exit(1)`. An exception anywhere else, for example in the middle of a loop, is not modelled.
- `shutil.rmtree` and `os.remove` always succeed in the model. In the source, an `rmtree` that raises inside `finally` (app.py:174, MASHUP.py:204) replaces the pending exception or result. The model does not capture that.
- Files written inside the staging directories are not tracked. Exported output files are tracked only by their content.
- The output path is assumed to lie outside the staging directories.
- Strings.ParseInt: models `int()` on ASCII decimal text with an optional sign only. It rejects the surrounding whitespace, underscores and non-ASCII digits that Python accepts.
- Strings.Lower: lowers ASCII letters only, where Python lowers all of Unicode.
- Strings.StripSpec: treats only ASCII whitespace (9–13 and 28–32) as space, where Python also strips other Unicode whitespace.
- Order.SortStrings: orders by code point, as Python does for `str`. It does not model collation or an operating system's listing order.
- WebApp.MergeClips: pydub's message when the export fails is replaced by a fixed text. The same holds for Cli.MergeClips.
- WebApp.CutClips: the duration is a `nat`, so a negative duration is not modelled. Validation rejects it anyway. The same holds for Cli.CutClips.
- Cli.DownloadOutcome: the script as written never reaches the listing because of the finding below. The model runs the corrected download.

## Findings

| source | as written | input that shows it | evidently intended | confidence | as-written member | corrected member |
|---|---|---|---|---|---|---|
| MASHUP.py:53 | `download_videos` builds the output template with `VID_DIR`. That name is local to `main`, so after `os.makedirs` the function raises `NameError`. `main` then reports an unexpected error and exits 1 without downloading. | `"singer" 11 21 out.mp3`, with one video `a.mp4` whose track and clip decode | use the parameter `download_dir`, as `app.py:66` does | high, not executed | Cli.AsWrittenNeverCompletes | Cli.CorrectedCompletes |

The as-written download is `Cli.DownloadAsWritten`. `Cli.CliRunAsWritten` runs it, and `Cli.AsWrittenNeverCompletes` shows that this run never ends in `Completed`. The corrected download is `Cli.DownloadResult`, run by the method `Cli.DownloadVideos`, and `Cli.RunMain` uses it. `Cli.CorrectedCompletes` shows that on the input above the corrected script completes while the as-written one exits 1. `Cli.AgreesWithWebApp` shows that the corrected script otherwise builds the web app's mashup.

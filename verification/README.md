# Enhanced Video Transcriber, modelled in Dafny

`video.py` takes a video (a URL fetched with yt-dlp, or a local file) or a
live microphone recording. It extracts the audio with ffmpeg and transcribes
it with Whisper. When asked, it also labels speakers with pyannote. It then
saves the transcription as text, JSON, SubRip subtitles and PDF. This
project models the deterministic logic between those outside tools:

- **Text** (`text.dfy`): the Python string operations the program relies on.
  These are `str.strip`, `str.split()`, `' '.join`, ASCII `lower`, `str(n)`
  and `format(n, '0Nd')`. Each comes with lemmas about what it computes.
  For example, splitting the join of whitespace-free words gives the words
  back, and a padded number reads back as the number.
- **SrtTime** (`srt_time.dfy`): `seconds_to_srt_time` on exact reals. Python's
  float `//` and `%` and `int()` are written with `Floor`. The stamp is
  `floor(1000·seconds)` milliseconds, with minutes and seconds below 60,
  and it parses back to its clock.
- **Titles** (`titles.dfy`): the sanitising regex shared by `extract_audio` and
  `save_all_formats`, the URL test, the yes-answer set of both prompts,
  `Path.stem`, and path joining.
- **Transcripts** (`transcripts.dfy`): the records passed between steps.
  This covers the success rule of `transcribe_audio` and the `detect_speakers`
  loop. It also covers how `transcribe_with_speakers` assembles its record.
- **Subtitles** (`srt.dfy`): `export_to_srt`, written as methods that append
  the strings the program writes. They are proved equal to a rendering of
  cues given by functions. A record with a `segments` key gives one cue per
  segment, even when the list is empty. Any other record gives one cue per
  ten words of its text, three seconds each.
- **Exports** (`exports.dfy`): `save_all_formats`. All four renderers are tried
  independently. A key is in the result exactly when its renderer finished,
  and it maps to its fixed path. `process_audio_file` succeeds exactly when
  some renderer finished.
- **Pipeline** (`pipeline.dfy`): the class `Transcriber`. Its state is the set
  of existing paths and the `PATH` directory list, and its methods follow the
  program's order:
  - ffmpeg resolution: the tools folder first, then the system binary, then
    the Windows download;
  - download, extraction, transcription and export;
  - cleanup: `process_video` removes the extracted audio in a `finally`, so
    also on an interrupt. A live session has no `finally`: it removes the
    recording on a normal return without a yes answer, and an interrupt
    while processing or at the keep prompt leaves the recording in place.

  Each state-changing method states the whole new state. Two consequences
  show in those contracts. ffmpeg runs with `-y` and may leave a partial
  `.wav` behind when it fails; `process_video` then returns before its
  cleanup, so the partial file stays. A renderer that fails after opening
  its file leaves that file behind, although it is not reported. And the
  file yt-dlp downloads stays even when the listing of the downloads folder
  returns another file or none. The listing may meet an older download
  first; that older video is then transcribed under the new video's title
  (`Pipeline.StalePick`).

  Every outside party is a parameter of the method that meets it: yt-dlp,
  ffmpeg, Whisper, pyannote, the renderers and the person answering prompts.

One might expect the word fallback of the subtitle export to apply to an
empty segment list. The code (video.py:313) tests whether the `segments` key
is present, so an empty list gives an empty file. The model follows the
code. `Subtitles.SegmentCuesMeaning` states it. `Subtitles.SpeakersWithoutSegments`
shows a consequence: a speaker-annotated record built from a Whisper result
without segments gets `segments: []`, and so an empty subtitle file.

## Model

| member | source | states |
|---|---|---|
| Text.Strip | video.py:515-518 | the stripped text is empty exactly when the input is all white space; otherwise it starts and ends with a visible character; it is a slice of the input whose removed borders are white space |
| Text.SplitGivesWords | video.py:325 | every element `split()` returns is a non-empty word without white space |
| Text.SplitVisible | video.py:325 | the words laid end to end are the text with its white space removed: every visible character, in order, and nothing else |
| Text.SplitBlank | video.py:325 | there are no words exactly when the text is all white space |
| Text.SplitFirst | video.py:325 | the first word is the run of visible characters after the leading white space; it ends at white space or at the end of the text; the other words are those of the text after it |
| Text.SplitJoin | video.py:325-329 | splitting the single-space join of whitespace-free words gives back exactly those words |
| Text.LowerMeaning | video.py:444 | lower-casing keeps the length, leaves no capital `A`-`Z`, turns each capital into its small letter and keeps every other character; lower-casing twice is lower-casing once |
| Text.DecimalRoundTrip | video.py:334 | `str(n)` is all digits, starts with `0` only for 0, and reads back as `n` |
| Text.ZeroPaddedSpec | video.py:349 | `format(n, '0wd')` is all digits, reads back as `n`, and has width `w` when `n < 10^w`, otherwise the width of `str(n)` |
| SrtTime.ToClock | video.py:345-348 | the clock of a time; what it computes is stated by `SrtTime.ToClockSpec` |
| SrtTime.SecondsToSrtTime | video.py:343-349 | the SubRip stamp of a time; what it denotes is stated by `SrtTime.SecondsToSrtTimeMeaning` |
| SrtTime.ToClockSpec | video.py:345-348 | hours, minutes, seconds and milliseconds have minutes and seconds below 60 and milliseconds below 1000, and together make `floor(1000·seconds)` milliseconds |
| SrtTime.SecondsToSrtTimeMeaning | video.py:343-349 | the stamp parses back to the computed clock, and the time it denotes is at most `seconds` and less than one millisecond below it (truncation, never rounding up) |
| SrtTime.FormatParse | video.py:349 | a clock in range formatted as `HH:MM:SS,mmm` reads back as the same clock |
| SrtTime.FormatWidths | video.py:349 | the stamp is the padded hours followed by ten characters, twelve in all below 100 hours |
| SrtTime.ToClockMonotonic | video.py:345-348 | a later time never gives an earlier stamp |
| SrtTime.ZeroStamp | video.py:343-349 | 0 seconds is `00:00:00,000` |
| SrtTime.OneHourOneMinuteStamp | video.py:343-349 | 3661.25 seconds is `01:01:01,250` |
| Titles.SafeTitle | video.py:460 | same length; no character of `<>:"/\|?*` remains; each of them becomes `_` and every other character is kept in place |
| Titles.SafeTitleIdempotent | video.py:550 | sanitising an already sanitised title changes nothing |
| Titles.SafeTitleKeepsSafe | video.py:550 | a title without unsafe characters is kept unchanged |
| Titles.IsUrl | video.py:626 | the URL test; what it accepts is stated by `Titles.IsUrlMeaning` |
| Titles.IsUrlMeaning | video.py:626 | a source is a URL exactly when it starts with `http://`, `https://` or `www.`, letter case included; so `HTTPS://...`, a local path holding `http://` and the empty string are not |
| Titles.IsYes | video.py:444 | the yes test of both prompts; what it accepts is stated by `Titles.IsYesMeaning` |
| Titles.IsYesMeaning | video.py:444 | an answer is a yes exactly when it lower-cases to `s`, `sim`, `y` or `yes`; an empty answer is a no |
| Titles.BaseName | video.py:635 | the last path component is a suffix of the path, holds no `/`, and is the longest such: it is the whole path or follows a `/` |
| Titles.LastDot | video.py:635 | the index of the last `.`, or -1 when there is none |
| Titles.Stem | video.py:635 | the stem holds no `/` and is a prefix of the last component; the cut suffix is empty exactly when no `.` lies after the first and before the last character, and otherwise is a `.` and at least one character, with no further `.` |
| Titles.JoinPath | video.py:551 | `/` joining; what it builds is stated by `Titles.JoinPathName` |
| Titles.JoinPathName | video.py:551 | joining a folder and a real name (not empty, not `.`, no `/`) gives the folder, a `/`, and that name as the last component |
| Transcripts.TranscribeResult | video.py:509-524 | a result comes back exactly when the audio exists, Whisper ran and its text is not blank; it keeps Whisper's text, segments and language, and the language defaults to `unknown` |
| Transcripts.TranscribedTextVisible | video.py:515-521 | a successful transcription has a visible character in its text |
| Transcripts.DetectSpeakers | video.py:246-283 | no list when diarisation could not run; otherwise one entry per track, in order, with the track's label and times and duration end minus start |
| Transcripts.WithSpeakers | video.py:293-307 | no speakers or an empty list leaves the transcription unchanged; otherwise the record has the language, the text, the segments (`[]` when absent) and the speakers |
| Subtitles.CueLines | video.py:319-321 | three writes per cue |
| Subtitles.FlatAt | video.py:319-321 | blocks of three writes laid end to end put block `k` at writes `3k` to `3k+2` |
| Subtitles.RenderAt | video.py:319-321 | a file of `n` cues has `3n` writes, and cue `k` is writes `3k`, `3k+1` and `3k+2` |
| Subtitles.Chunks | video.py:328-329 | `ceil(W/10)` chunks for `W` words |
| Subtitles.ChunkAt | video.py:328-329 | chunk `k` is words `10k` up to `min(10k+10, W)`, one to ten words, exactly ten unless it is the last |
| Subtitles.ChunksConcat | video.py:325-329 | the chunks laid end to end give back the words: none lost, repeated or reordered |
| Subtitles.WordCues | video.py:328-336 | one cue per chunk, all with non-negative times |
| Subtitles.Cues | video.py:313-336 | every cue has a time that can be encoded, and cues are numbered 1, 2, 3, ... without gaps |
| Subtitles.ExportToSrt | video.py:309-341 | the writes are those of the segment branch for a record with a `segments` key and of the word branch otherwise |
| Subtitles.WriteSegmentCues | video.py:313-321 | the segment loop writes exactly the rendering of one cue per segment: number `i`, both times encoded, stripped text |
| Subtitles.WriteWordCues | video.py:322-336 | the word loop writes exactly the rendering of one cue per ten-word chunk |
| Subtitles.WriteWordCue | video.py:328-336 | one pass of the word loop appends exactly the three writes of cue `i/10` |
| Subtitles.SegmentCueLines | video.py:315-321 | the writes of segment cue `i` are its number, its encoded start and end, and its stripped text |
| Subtitles.WordCueAt | video.py:328-333 | word cue `k` is numbered `k+1`, spans seconds `3k` to `3k+3` and holds words `10k` up to `10k+10` joined by spaces |
| Subtitles.WordCueLines | video.py:328-336 | the writes of word cue `i/10` are its number, its stamps and its chunk |
| Subtitles.SegmentCuesMeaning | video.py:313-321 | with a `segments` key there is one cue per segment with its times and stripped text, and an empty list gives an empty file |
| Subtitles.WordCuesMeaning | video.py:322-336 | without a `segments` key there are `ceil(W/10)` cues; cue `k` spans `[3k, 3k+3]` and splitting its text gives back words `10k` up to `min(10k+10, W)` |
| Subtitles.SpeakersWithoutSegments | video.py:298-303 | a speaker-annotated record built from a result without segments has `segments: []` and so an empty subtitle file |
| Exports.ExportPath | video.py:550-556 | where a renderer writes; what it builds is stated by `Exports.ExportFileName` and `Exports.UntitledExport` |
| Exports.ExportFileName | video.py:550-556 | a title that sanitises to a real name exports to `transcriptions/<safe title><suffix>`, whose last component is the safe title and the suffix |
| Exports.UntitledExport | video.py:550-556 | an empty title exports to `transcriptions_transcription.txt`, next to the `transcriptions` folder and not inside it |
| Exports.KeysAndPathsDistinct | video.py:554-581 | different renderers have different keys and different paths, so no export overwrites another |
| Exports.RecordStep | video.py:565-581 | trying one more renderer records it exactly when it finishes, with its path, and leaves the other entries alone |
| Exports.RecordedAll | video.py:582 | after all four tries, a key is present exactly when its renderer finished, and it maps to that renderer's path |
| Exports.SaveAllFormats | video.py:548-582 | keys are among txt, json, srt and pdf; a key is present exactly when its renderer finished, whatever the others did; it maps to the title's base path plus the fixed suffix; a saved SubRip file holds the writes of `export_to_srt`; the files created are those of the finished renderers and of the failed ones that had opened their file |
| Exports.ResultPaths | video.py:548-582 | the paths in the result are exactly the files of the renderers that finished |
| Exports.SavedIffSomeRenderer | video.py:616 | the run counts as saved exactly when at least one renderer finished |
| Pipeline.Outcome | video.py:589-594 | the exported record exists exactly when the plain transcription succeeded, and its times can be encoded |
| Pipeline.Transcriber.constructor | video.py:42-55 | the six folders exist afterwards and `PATH` is untouched |
| Pipeline.Transcriber.SetupFfmpeg | video.py:105-152 | the tools folder's binary wins and puts the folder first on `PATH`; otherwise a working system ffmpeg; otherwise on Windows a successful download, which adds `ffmpeg.exe` and `ffprobe.exe` and also puts the folder first; otherwise nothing, with the state unchanged |
| Pipeline.Transcriber.DownloadFfmpegWindows | video.py:154-182 | on success `ffmpeg.exe` and `ffprobe.exe` are in the tools folder and the binary's path is returned; otherwise nothing changes |
| Pipeline.Transcriber.DownloadVideo | video.py:423-455 | a video and its title (default `video`) exactly when the information came, the duration is not null, a float duration is zero (any other float makes the `:02d` printing raise, which ends the download with nothing), an integer duration over 3600 s was confirmed by a yes answer, and the listing returned an existing file; past the checks the download's own file is added whatever the listing returns, and nothing is added before them |
| Pipeline.Transcriber.ExtractAudio | video.py:457-478 | the audio path is `extracted_audio/<safe title>.wav`; a file is there afterwards when ffmpeg wrote one, even when it then failed; the path is returned exactly when ffmpeg exits with status 0 and a file is at that path, possibly one from an earlier run |
| Pipeline.Transcriber.TranscribeAudio | video.py:480-540 | the tools folder goes first on `PATH` when it exists, and the result is `TranscribeResult` of the audio's existence and Whisper's outcome |
| Pipeline.Transcriber.TranscribeWithSpeakers | video.py:285-307 | diarisation runs exactly when the transcription succeeds; the result is the transcription combined with the speaker turns |
| Pipeline.Transcriber.ProcessAudioFile | video.py:584-619 | true exactly when the transcription succeeded and some renderer finished; when it succeeded the files gain exactly the exports' files, otherwise they are unchanged; the tools folder goes first on `PATH` when it exists; a saved SubRip file holds the cues of the exported record |
| Pipeline.Transcriber.ExportTranscription | video.py:611-617 | the files gain exactly the exports' files, `PATH` is untouched, and the call succeeds exactly when some renderer finished |
| Pipeline.Transcriber.OpenSource | video.py:626-635 | a URL is downloaded and titled by yt-dlp; any other source must exist and is titled by its stem; only the download's file is added, also when the listing returns nothing |
| Pipeline.Transcriber.ProcessAndRemove | video.py:645-654 | the result of processing, or an escaping interrupt; the files are those processing leaves (the old ones when interrupted), minus the audio file, and `PATH` is that processing leaves |
| Pipeline.Transcriber.ProcessVideo | video.py:621-654 | each way out is characterised exactly: no source; no ffmpeg; no audio when ffmpeg fails or leaves no file (a file from an earlier run counts); otherwise processing. For each, the new files and `PATH` are given: a URL with no listed file keeps the download's file, a failed extraction keeps any partial `.wav`, and after processing the audio file is removed whether processing succeeds, fails or is interrupted |
| Pipeline.Transcriber.LiveRecordingSession | video.py:656-686 | nothing happens without a recording; on a normal return the result is that of processing it, and the files are those processing leaves with the recording kept exactly when the stripped, lower-cased answer is a yes; an interrupt while processing, or an interrupt or end of input at the keep prompt, escapes and keeps the recording; the files and `PATH` are given for each case |
| Pipeline.StalePick | video.py:447-452 | the listing can return an older download: the new video's file is added, yet `process_video` goes on with the older file under the new video's title |
| Pipeline.PromptsDiffer | video.py:679 | the keep-recording prompt strips the answer and the long-video prompt does not, so `" y"` is a yes only for the first |

## Left out

- Dependency installation through pip (video.py:57-103) is process I/O and is not modelled.
- Probing ffmpeg with `ffmpeg -version` and the Windows zip download are not modelled. Their outcomes are the booleans `systemWorks` and `downloadWorks`.
- Microphone capture (`record_audio_live`) is device I/O with a callback thread. Its outcome is the optional time stamp `recorded`.
- Whisper, pyannote, yt-dlp, the directory listing of the downloads folder and the ffmpeg extraction are foreign calls. Their outcomes are parameters (`WhisperResult`, `Track` lists, `Fetch`, the extraction booleans). The file the download leaves is `Fetch.written`; the file the listing meets first, possibly one from an earlier download, is `Fetch.found`.
- The content of the text, JSON and PDF exports is not modelled, nor the `datetime.now()` metadata. Only whether each renderer finishes is modelled, as an oracle `Format -> bool`.
- The interactive menu, `main` and the `translate_text` stub are UI glue and are not modelled. The reading of the recording mode and duration is also left out.
- Console output is not modelled, including the per-speaker totals `detect_speakers` prints.
- `isinstance(..., str)` branches are not modelled: the record is always Whisper's dictionary.
- Floating-point artefacts of `//`, `%` and `int()` are not modelled: times are exact reals.
- SrtTime.SecondsToSrtTime: requires a non-negative time; Whisper never reports a negative one.
- Subtitles.Cues: requires the record's segment times to be non-negative, and so does every member built on it (`Exportable`, `TimedWhisper`).
- Text.Lower: lower-cases ASCII letters only; the answers compared with it are ASCII words.
- Text.Strip: white space is the Unicode white-space set of `str.isspace`, given as an explicit list of code points.
- Titles.BaseName: `/` is the only separator, and a trailing `/` gives an empty name, where `pathlib` would drop it.
- Titles.JoinPath: joining does not normalise `..` or absolute names.
- Which failing renderer leaves a file behind is an oracle (`World.leftovers`); what a partial file holds is not modelled.
- Pipeline.Transcriber.ProcessVideo: an interrupt is modelled only while the audio is processed. Where inside processing it arrives, and which exports it leaves behind, is not modelled. Any other exception in processing is caught by `process_audio_file` and counts as a failed run.
- Pipeline.Transcriber.LiveRecordingSession: the recording and the title's time stamp are parameters. An interrupt while processing is modelled as arriving before processing changes anything. `os.remove` failures in cleanup are not modelled.

/** The request lifecycle of video.py's `EnhancedVideoTranscriber`: finding
    ffmpeg (`setup_ffmpeg`), getting a video (`download_video`, a local
    path), extracting its audio (`extract_audio`), transcribing it
    (`transcribe_audio`, `transcribe_with_speakers`), exporting
    (`process_audio_file`) and cleaning up (`process_video`,
    `live_recording_session`). The file system is the set of paths that
    exist, relative to the application directory; `PATH` is a list of
    directories. Every outside party (yt-dlp, ffmpeg, Whisper, pyannote, the
    renderers, the microphone, the person answering prompts) is a parameter. */
module Pipeline {
  import opened Wrappers
  import opened Text
  import opened Titles
  import opened Transcripts
  import opened Subtitles
  import opened Exports

  /** The folders `setup_folders` creates (`transcriptions` is
      Exports.TranscriptsDir). */
  const DownloadsDir := "video_downloads"
  const AudioDir := "extracted_audio"
  const ToolsDir := "video_tools"
  const ModelsDir := "translation_models"
  const RecordingsDir := "live_recordings"

  const Folders: set<string> := {DownloadsDir, AudioDir, TranscriptsDir, ToolsDir, ModelsDir, RecordingsDir}

  /** The two files the Windows download moves into the tools folder. */
  const DownloadedTools: set<string> := {ToolsDir + "/ffmpeg.exe", ToolsDir + "/ffprobe.exe"}

  /** Where `extract_audio` writes the audio of `title`. */
  function AudioPath(title: string): string {
    AudioDir + "/" + SafeTitle(title) + ".wav"
  }

  /** Where `record_audio_live` saves a recording made at `stamp`. */
  function RecordingPath(stamp: string): string {
    RecordingsDir + "/recording_" + stamp + ".wav"
  }

  /** A duration as yt-dlp reports it: an integer or a float number of
      seconds, depending on the site. */
  datatype Duration = IntSeconds(n: int) | FloatSeconds(x: real)

  /** What yt-dlp reports about a video: `title` is `None` when the key is
      missing, `duration` is `None` when the key holds null (a missing key
      counts as `IntSeconds(0)`). */
  datatype VideoInfo = VideoInfo(title: Option<string>, duration: Option<Duration>)

  /** Everything `download_video` learns from outside: the information
      (`None` when `extract_info` raises), the answer typed at the long-video
      prompt, the file `ydl.download` leaves in the downloads folder (`None`
      when it leaves none), and the first file with a video suffix the
      directory listing meets, in its own order (`None` when the download
      raises or no file matches). The listing may meet an older download
      first. */
  datatype Fetch = Fetch(info: Option<VideoInfo>, answer: string, written: Option<string>,
                         found: Option<string>) {

    /** The download and the listing stay in the downloads folder. */
    predicate Valid() {
      && (written.Some? ==> DownloadsDir + "/" <= written.value)
      && (found.Some? ==> DownloadsDir + "/" <= found.value)
    }
  }

  /** The files once `ydl.download` ran. */
  function Downloaded(files: set<string>, fetch: Fetch): set<string> {
    if fetch.written.Some? then files + {fetch.written.value} else files
  }

  /** The listing returns a file: one it meets exists after the download. */
  predicate Picked(files: set<string>, fetch: Fetch) {
    fetch.found.Some? && fetch.found.value in Downloaded(files, fetch)
  }

  /** `download_video` goes on to download: the information came, the
      duration is not null, a non-zero float duration did not stop the
      `:02d` formatting of its seconds, and a video over one hour was
      confirmed. */
  predicate Proceeds(fetch: Fetch) {
    && fetch.info.Some?
    && fetch.info.value.duration.Some?
    && match fetch.info.value.duration.value
       case FloatSeconds(x) => x == 0.0
       case IntSeconds(n) => n > 3600 ==> IsYes(fetch.answer)
  }

  /** The source `process_video` can go on with: a URL that `download_video`
      fetched, or an existing file. */
  predicate SourceFound(files: set<string>, source: string, fetch: Fetch) {
    if IsUrl(source) then Proceeds(fetch) && Picked(files, fetch) else source in files
  }

  /** The files once the source is open: whatever the download of a URL
      leaves is added, whether or not the listing then returns it. */
  function Opened(files: set<string>, source: string, fetch: Fetch): set<string> {
    if IsUrl(source) && Proceeds(fetch) then Downloaded(files, fetch) else files
  }

  /** The listing can return an older download: here the new video lands in
      `new.webm`, the listing meets `old.mp4` first, and `process_video`
      goes on with the old file under the new video's title. */
  lemma StalePick()
    ensures var files := {DownloadsDir + "/old.mp4"};
            var fetch := Fetch(Some(VideoInfo(Some("New talk"), Some(IntSeconds(60)))), "",
                               Some(DownloadsDir + "/new.webm"), Some(DownloadsDir + "/old.mp4"));
            && fetch.Valid()
            && SourceFound(files, "https://youtu.be/x", fetch)
            && Transcriber.SourceTitle("https://youtu.be/x", fetch) == "New talk"
            && fetch.found.value != fetch.written.value
            && Opened(files, "https://youtu.be/x", fetch) == files + {fetch.written.value}
  {
    var fetch := Fetch(Some(VideoInfo(Some("New talk"), Some(IntSeconds(60)))), "",
                       Some(DownloadsDir + "/new.webm"), Some(DownloadsDir + "/old.mp4"));
    assert IsUrl("https://youtu.be/x") by {
      assert "https://" <= "https://youtu.be/x";
    }
    assert (DownloadsDir + "/old.mp4")[16] == 'o' && (DownloadsDir + "/new.webm")[16] == 'n';
  }

  /** What the rest of the run meets: whether `ffmpeg -version` works,
      whether the Windows download works, whether the extraction exits with
      status 0 and whether it writes the audio file, Whisper's and the
      diariser's outcome, which renderers finish and which failing renderers
      leave a file behind. */
  datatype World = World(systemFfmpeg: bool, ffmpegDownload: bool,
                         extractExits: bool, extractWrites: bool,
                         whisper: Option<WhisperResult>, diarizer: Option<seq<Track>>,
                         renders: Format -> bool, leftovers: Format -> bool)

  /** Whisper never reports a negative time. */
  predicate TimedWhisper(w: World) {
    w.whisper.Some? && w.whisper.value.segments.Some? ==> SegmentsTimed(w.whisper.value.segments.value)
  }

  /** `speakers_info` as `detect_speakers` returns it. */
  function Diarize(diarizer: Option<seq<Track>>): Option<seq<SpeakerTurn>> {
    if diarizer.Some? then Some(Turns(diarizer.value)) else None
  }

  /** The record `process_audio_file` exports, if any. */
  function Outcome(audioExists: bool, detect: bool, w: World): (r: Option<Transcribed>)
    ensures r.Some? <==> TranscribeResult(audioExists, w.whisper).Some?
    ensures TimedWhisper(w) && r.Some? ==> Exportable(r.value.data)
  {
    match TranscribeResult(audioExists, w.whisper)
    case None => None
    case Some(t) => if detect then Some(WithSpeakers(t, Diarize(w.diarizer))) else Some(t)
  }

  /** The files the exports of `title` create: those of the renderers that
      finish and those failing renderers leave. */
  function Outputs(title: string, w: World): set<string> {
    Exported(title, w.renders) + Exported(title, w.leftovers)
  }

  /** The files after `process_audio_file` on `audio`: the exports are
      added when the transcription succeeds. */
  function FilesAfterProcessing(files: set<string>, audio: string, title: string, detect: bool, w: World): set<string> {
    if Outcome(audio in files, detect, w).Some? then files + Outputs(title, w) else files
  }

  /** `PATH` after `transcribe_audio`: the tools folder first when it exists. */
  function PathAfterProcessing(files: set<string>, searchPath: seq<string>): seq<string> {
    if ToolsDir in files then [ToolsDir] + searchPath else searchPath
  }

  /** The title of a live recording made at `stamp`. */
  function LiveTitle(stamp: string): string {
    "Gravação_" + stamp
  }

  /** An extracted audio file is never a downloaded video. */
  lemma AudioNotOpened(files: set<string>, source: string, fetch: Fetch, title: string)
    requires fetch.Valid()
    ensures AudioPath(title) in Opened(files, source, fetch) <==> AudioPath(title) in files
  {
    if IsUrl(source) && Proceeds(fetch) && fetch.written.Some? {
      assert AudioPath(title)[0] == 'e' && fetch.written.value[0] == 'v';
    }
  }

  /** Nor one of the downloaded ffmpeg programs. */
  lemma AudioNotTools(title: string)
    ensures AudioPath(title) !in DownloadedTools
  {
    assert AudioPath(title)[0] == 'e';
    assert (ToolsDir + "/ffmpeg.exe")[0] == 'v' && (ToolsDir + "/ffprobe.exe")[0] == 'v';
  }

  /** How `process_video` ends: it returns a value, or an exception (a
      keyboard interrupt) escapes while the audio is being processed. */
  datatype Completion = Returned(ok: bool) | Raised

  /** How a live session ends once there is a recording: normally, by an
      interrupt while the recording is processed, or by an interrupt or end
      of input at the keep prompt. */
  datatype LiveStop = Finished | WhileProcessing | AtKeepPrompt

  /** How far `process_video` got. */
  datatype Stage = NoSource | NoFfmpeg | NoAudio | Processed

  class Transcriber {
    /** The paths that exist. */
    var files: set<string>
    /** `os.environ['PATH']`, directory by directory. */
    var searchPath: seq<string>
    /** `self.system == 'windows'`. */
    const windows: bool

    /** The ffmpeg binary in the tools folder. */
    function ToolsBinary(): string {
      ToolsDir + "/" + (if windows then "ffmpeg.exe" else "ffmpeg")
    }

    /** Whether `setup_ffmpeg` finds ffmpeg, from the files before it. */
    predicate FfmpegFound(before: set<string>, systemWorks: bool, downloadWorks: bool) {
      ToolsBinary() in before || systemWorks || (windows && downloadWorks)
    }

    /** The files after `setup_ffmpeg`: the download adds the two programs. */
    function FilesAfterSetup(before: set<string>, systemWorks: bool, downloadWorks: bool): set<string> {
      if ToolsBinary() !in before && !systemWorks && windows && downloadWorks then before + DownloadedTools
      else before
    }

    /** `PATH` after `setup_ffmpeg`: the tools folder first when ffmpeg comes
        from there. */
    function PathAfterSetup(before: set<string>, searchPath: seq<string>, systemWorks: bool, downloadWorks: bool)
      : seq<string>
    {
      if ToolsBinary() in before || (!systemWorks && windows && downloadWorks) then [ToolsDir] + searchPath
      else searchPath
    }

    /** The files once `process_video` extracted the audio of `source`. */
    function Extracted(before: set<string>, source: string, fetch: Fetch, w: World): set<string> {
      var setUp := FilesAfterSetup(Opened(before, source, fetch), w.systemFfmpeg, w.ffmpegDownload);
      if w.extractWrites then setUp + {AudioPath(SourceTitle(source, fetch))} else setUp
    }

    /** `__init__` with `setup_folders`: the six folders exist afterwards. */
    constructor (windows: bool, existing: set<string>, searchPath: seq<string>)
      ensures this.windows == windows
      ensures files == existing + Folders && this.searchPath == searchPath
    {
      this.windows := windows;
      files := existing + Folders;
      this.searchPath := searchPath;
    }

    /** `setup_ffmpeg` (video.py:105-152): the tools folder's binary first
        (putting the folder at the front of `PATH`), then a working system
        ffmpeg, then on Windows a download into the tools folder (again
        putting it at the front of `PATH`), else nothing. */
    method SetupFfmpeg(systemWorks: bool, downloadWorks: bool) returns (cmd: Option<string>)
      modifies this
      ensures old(ToolsBinary() in files) ==>
                cmd == Some(ToolsBinary()) && files == old(files) && searchPath == [ToolsDir] + old(searchPath)
      ensures !old(ToolsBinary() in files) && systemWorks ==>
                cmd == Some("ffmpeg") && files == old(files) && searchPath == old(searchPath)
      ensures !old(ToolsBinary() in files) && !systemWorks && windows && downloadWorks ==>
                && cmd == Some(ToolsBinary())
                && files == old(files) + DownloadedTools
                && searchPath == [ToolsDir] + old(searchPath)
      ensures !old(ToolsBinary() in files) && !systemWorks && !(windows && downloadWorks) ==>
                cmd == None && files == old(files) && searchPath == old(searchPath)
      ensures cmd.Some? && cmd.value != "ffmpeg" ==> cmd.value == ToolsBinary() && cmd.value in files
      ensures cmd.Some? <==> FfmpegFound(old(files), systemWorks, downloadWorks)
      ensures files == FilesAfterSetup(old(files), systemWorks, downloadWorks)
      ensures searchPath == PathAfterSetup(old(files), old(searchPath), systemWorks, downloadWorks)
    {
      var ffmpegPath := ToolsBinary();
      if ffmpegPath in files {
        searchPath := [ToolsDir] + searchPath;
        return Some(ffmpegPath);
      }
      if systemWorks {
        return Some("ffmpeg");
      }
      if windows {
        WindowsBinary();
        var downloaded := DownloadFfmpegWindows(downloadWorks);
        if downloaded.Some? {
          searchPath := [ToolsDir] + searchPath;
          return downloaded;
        }
      }
      return None;
    }

    /** On Windows the tools binary is `ffmpeg.exe`, one of the downloaded files. */
    lemma WindowsBinary()
      requires windows
      ensures ToolsBinary() == ToolsDir + "/ffmpeg.exe" && ToolsBinary() in DownloadedTools
    {
      assert ToolsDir + "/" + "ffmpeg.exe" == ToolsDir + "/ffmpeg.exe";
    }

    /** `download_ffmpeg_windows`: on success both programs are in the tools
        folder and the path of `ffmpeg.exe` is returned. */
    method DownloadFfmpegWindows(works: bool) returns (path: Option<string>)
      requires windows
      modifies this
      ensures searchPath == old(searchPath)
      ensures works ==> files == old(files) + DownloadedTools && path == Some(ToolsBinary())
      ensures !works ==> files == old(files) && path == None
    {
      WindowsBinary();
      if works {
        files := files + DownloadedTools;
        path := Some(ToolsDir + "/ffmpeg.exe");
      } else {
        path := None;
      }
    }

    /** `download_video` (video.py:423-455): the video file the listing
        returns and the title (default "video"), or nothing when the
        information fails, the duration is null, a non-zero float duration
        makes the printing of its seconds raise, a video over an hour is not
        confirmed (the answer is lower-cased but not stripped) or the
        listing returns nothing. Once past the checks, the download's file
        stays whatever the listing returns. */
    method DownloadVideo(fetch: Fetch) returns (r: Option<(string, string)>)
      modifies this
      ensures searchPath == old(searchPath)
      ensures r.Some? <==> Proceeds(fetch) && Picked(old(files), fetch)
      ensures r.Some? ==> r.value == (fetch.found.value, fetch.info.value.title.GetOr("video"))
      ensures r.Some? ==> r.value.0 in files
      ensures files == if Proceeds(fetch) then Downloaded(old(files), fetch) else old(files)
    {
      if fetch.info.None? {
        return None;
      }
      var title := fetch.info.value.title.GetOr("video");
      var duration := fetch.info.value.duration;
      if duration.None? {
        return None;
      }
      match duration.value {
        case FloatSeconds(x) =>
          if x != 0.0 {
            return None;
          }
        case IntSeconds(n) =>
          if n > 3600 {
            var response := fetch.answer;
            if Lower(response) !in YesAnswers {
              return None;
            }
          }
      }
      if fetch.written.Some? {
        files := files + {fetch.written.value};
      }
      if fetch.found.None? || fetch.found.value !in files {
        return None;
      }
      r := Some((fetch.found.value, title));
    }

    /** `extract_audio` (video.py:457-478): the audio goes to
        `extracted_audio/<safe title>.wav`; `writes` says whether ffmpeg
        leaves a file there, complete or, when it fails, partial. The path is
        returned when ffmpeg exits with status 0 and a file is at that path,
        even one left by an earlier run. */
    method ExtractAudio(video: string, title: string, exits: bool, writes: bool) returns (audio: Option<string>)
      modifies this
      ensures searchPath == old(searchPath)
      ensures files == if writes then old(files) + {AudioPath(title)} else old(files)
      ensures audio == if exits && AudioPath(title) in files then Some(AudioPath(title)) else None
    {
      var audioPath := AudioDir + "/" + SafeTitle(title) + ".wav";
      if writes {
        files := files + {audioPath};
      }
      if !exits {
        return None;
      }
      if audioPath in files {
        return Some(audioPath);
      }
      return None;
    }

    /** `transcribe_audio` (video.py:480-540): the tools folder goes to the
        front of `PATH` when it exists, then the result is Whisper's when the
        audio exists and the text is not blank. */
    method TranscribeAudio(audio: string, whisper: Option<WhisperResult>) returns (r: Option<Transcribed>)
      modifies this
      ensures files == old(files)
      ensures searchPath == PathAfterProcessing(old(files), old(searchPath))
      ensures r == TranscribeResult(audio in old(files), whisper)
    {
      if ToolsDir in files {
        searchPath := [ToolsDir] + searchPath;
      }
      if whisper.None? {
        return None;
      }
      if audio !in files {
        return None;
      }
      var result := whisper.value;
      var text := Strip(result.text.GetOr(""));
      var language := result.language.GetOr("unknown");
      if text != [] {
        return Some(Transcribed(Transcript(result.text.value, result.language, result.segments, None), language));
      }
      return None;
    }

    /** `transcribe_with_speakers` (video.py:285-307): nothing, and no
        diarisation, when the transcription fails; otherwise the plain
        transcription, extended with the speaker turns when there are any. */
    method TranscribeWithSpeakers(audio: string, whisper: Option<WhisperResult>, diarizer: Option<seq<Track>>)
      returns (r: Option<Transcribed>, diarized: bool)
      modifies this
      ensures files == old(files)
      ensures searchPath == PathAfterProcessing(old(files), old(searchPath))
      ensures diarized <==> TranscribeResult(audio in old(files), whisper).Some?
      ensures r.None? <==> !diarized
      ensures r.Some? ==> r.value == WithSpeakers(TranscribeResult(audio in old(files), whisper).value, Diarize(diarizer))
    {
      var transcription := TranscribeAudio(audio, whisper);
      if transcription.None? {
        return None, false;
      }
      var speakers := DetectSpeakers(diarizer);
      r := Some(WithSpeakers(transcription.value, speakers));
      diarized := true;
    }

    /** `process_audio_file` (video.py:584-619): transcribe (with speakers
        when asked), then export; true exactly when the transcription
        succeeded and at least one export was saved. The files the exports
        create are added, and a saved SubRip file holds the cues of the
        exported record. */
    method ProcessAudioFile(audio: string, title: string, detect: bool, w: World)
      returns (ok: bool, subtitles: Option<seq<string>>)
      requires TimedWhisper(w)
      modifies this
      ensures searchPath == PathAfterProcessing(old(files), old(searchPath))
      ensures ok <==> Outcome(audio in old(files), detect, w).Some? && exists f: Format :: w.renders(f)
      ensures files == FilesAfterProcessing(old(files), audio, title, detect, w)
      ensures subtitles.Some? <==> Outcome(audio in old(files), detect, w).Some? && w.renders(Srt)
      ensures subtitles.Some? ==> subtitles.value == SrtWrites(Outcome(audio in old(files), detect, w).value.data)
    {
      ghost var outcome := Outcome(audio in files, detect, w);
      var transcription: Option<Transcribed>;
      if detect {
        var diarized;
        transcription, diarized := TranscribeWithSpeakers(audio, w.whisper, w.diarizer);
      } else {
        transcription := TranscribeAudio(audio, w.whisper);
      }
      assert transcription == outcome;
      if transcription.None? {
        return false, None;
      }
      ok, subtitles := ExportTranscription(title, transcription.value.data, w);
    }

    /** The export step of `process_audio_file` (video.py:611-617): all four
        renderers are tried and the call succeeds when one of them saved its
        file. */
    method ExportTranscription(title: string, data: Transcript, w: World)
      returns (ok: bool, subtitles: Option<seq<string>>)
      requires Exportable(data)
      modifies this
      ensures searchPath == old(searchPath)
      ensures files == old(files) + Outputs(title, w)
      ensures ok <==> exists f: Format :: w.renders(f)
      ensures subtitles == if w.renders(Srt) then Some(SrtWrites(data)) else None
    {
      var results, written;
      results, subtitles, written := SaveAllFormats(title, data, w.renders, w.leftovers);
      SavedIffSomeRenderer(results, w.renders);
      files := files + written;
      ok := Saved(results);
    }

    /** The title `process_video` uses: yt-dlp's, or the file's stem. */
    static function SourceTitle(source: string, fetch: Fetch): string {
      if IsUrl(source) && fetch.info.Some? then fetch.info.value.title.GetOr("video") else Stem(source)
    }

    /** `process_video` (video.py:621-654). A source is a URL by its prefix
        and is downloaded, otherwise it must be an existing file. Then ffmpeg
        must be found and the audio extracted, each failure returning false
        before any processing; a failed extraction keeps whatever file ffmpeg
        left. Once extracted, the audio file is removed whether processing
        succeeds, fails, or is interrupted (`interrupted`: a keyboard
        interrupt arrives before processing changes anything). */
    method ProcessVideo(source: string, detect: bool, fetch: Fetch, w: World, interrupted: bool)
      returns (c: Completion, stage: Stage, audio: Option<string>)
      requires fetch.Valid() && TimedWhisper(w)
      modifies this
      ensures stage == NoSource <==> !SourceFound(old(files), source, fetch)
      ensures stage == NoFfmpeg <==>
                SourceFound(old(files), source, fetch) && !FfmpegFound(old(files), w.systemFfmpeg, w.ffmpegDownload)
      ensures stage == NoAudio <==>
                && SourceFound(old(files), source, fetch) && FfmpegFound(old(files), w.systemFfmpeg, w.ffmpegDownload)
                && !(w.extractExits && (w.extractWrites || AudioPath(SourceTitle(source, fetch)) in old(files)))
      ensures stage != Processed ==> c == Returned(false) && audio.None?
      ensures stage == Processed ==>
                && audio == Some(AudioPath(SourceTitle(source, fetch)))
                && c == (if interrupted then Raised
                         else Returned(Outcome(true, detect, w).Some? && exists f: Format :: w.renders(f)))
      ensures stage == NoSource ==> files == Opened(old(files), source, fetch) && searchPath == old(searchPath)
      ensures stage == NoFfmpeg ==> files == Opened(old(files), source, fetch) && searchPath == old(searchPath)
      ensures stage == NoAudio ==>
                && files == Extracted(old(files), source, fetch, w)
                && searchPath == PathAfterSetup(Opened(old(files), source, fetch), old(searchPath),
                                                w.systemFfmpeg, w.ffmpegDownload)
      ensures stage == Processed ==>
                var extracted := Extracted(old(files), source, fetch, w);
                var setUpPath := PathAfterSetup(Opened(old(files), source, fetch), old(searchPath),
                                                 w.systemFfmpeg, w.ffmpegDownload);
                && files == (if interrupted then extracted
                             else FilesAfterProcessing(extracted, audio.value, SourceTitle(source, fetch), detect, w))
                            - {audio.value}
                && searchPath == if interrupted then setUpPath else PathAfterProcessing(extracted, setUpPath)
      ensures audio.Some? ==> audio.value !in files
    {
      audio := None;
      ghost var before := files;
      var video, title := OpenSource(source, fetch);
      if video.None? {
        return Returned(false), NoSource, None;
      }
      var videoPath := video.value;
      var ffmpegCmd := SetupFfmpeg(w.systemFfmpeg, w.ffmpegDownload);
      if ffmpegCmd.None? {
        return Returned(false), NoFfmpeg, None;
      }
      AudioNotOpened(before, source, fetch, title);
      AudioNotTools(title);
      audio := ExtractAudio(videoPath, title, w.extractExits, w.extractWrites);
      assert files == Extracted(before, source, fetch, w);
      if audio.None? {
        return Returned(false), NoAudio, None;
      }
      stage := Processed;
      c := ProcessAndRemove(audio.value, title, detect, w, interrupted);
    }

    /** The `try`/`finally` of `process_video` (video.py:645-654): the audio
        file is processed, and removed afterwards whether processing returns
        or is interrupted. */
    method ProcessAndRemove(audio: string, title: string, detect: bool, w: World, interrupted: bool)
      returns (c: Completion)
      requires TimedWhisper(w) && audio in files
      modifies this
      ensures c == if interrupted then Raised
                   else Returned(Outcome(true, detect, w).Some? && exists f: Format :: w.renders(f))
      ensures files == (if interrupted then old(files) else FilesAfterProcessing(old(files), audio, title, detect, w))
                       - {audio}
      ensures searchPath == if interrupted then old(searchPath) else PathAfterProcessing(old(files), old(searchPath))
    {
      if interrupted {
        c := Raised;
      } else {
        var ok, subtitles := ProcessAudioFile(audio, title, detect, w);
        c := Returned(ok);
      }
      files := files - {audio};
    }

    /** The first step of `process_video` (video.py:626-635): a URL is
        downloaded, any other source must be an existing file and is titled
        by its stem. The tools binary is neither added nor removed. */
    method OpenSource(source: string, fetch: Fetch) returns (video: Option<string>, title: string)
      requires fetch.Valid()
      modifies this
      ensures searchPath == old(searchPath)
      ensures video.Some? <==> SourceFound(old(files), source, fetch)
      ensures video.Some? ==> title == SourceTitle(source, fetch)
      ensures files == Opened(old(files), source, fetch)
      ensures ToolsBinary() in files <==> old(ToolsBinary() in files)
    {
      if IsUrl(source) {
        if fetch.written.Some? {
          DownloadedIsNotTool(fetch.written.value);
        }
        var downloaded := DownloadVideo(fetch);
        if downloaded.None? {
          return None, "";
        }
        return Some(downloaded.value.0), downloaded.value.1;
      }
      if source !in files {
        return None, "";
      }
      return Some(source), Stem(source);
    }

    /** A downloaded video is never the tools folder's ffmpeg. */
    lemma DownloadedIsNotTool(path: string)
      requires DownloadsDir + "/" <= path
      ensures path != ToolsBinary()
    {
      assert path[6] == 'd' && ToolsBinary()[6] == 't';
    }

    /** `live_recording_session` (video.py:656-686) after the recording:
        nothing happens without a recording; otherwise it is processed like
        any audio file and removed unless the stripped, lower-cased answer is
        a yes. `recorded` is the time stamp of a recording, `None` when
        `record_audio_live` captured nothing or failed. There is no
        `finally`: a keyboard interrupt while processing, or an interrupt or
        end of input at the keep prompt, escapes and leaves the recording in
        place (`stop`; an interrupt while processing arrives before it
        changes anything). */
    method LiveRecordingSession(recorded: Option<string>, titleStamp: string, detect: bool, w: World,
                                keepAnswer: string, stop: LiveStop)
      returns (c: Completion)
      requires TimedWhisper(w)
      modifies this
      ensures recorded.None? ==> c == Returned(false) && files == old(files) && searchPath == old(searchPath)
      ensures recorded.Some? && stop == Finished ==>
                c == Returned(Outcome(true, detect, w).Some? && exists f: Format :: w.renders(f))
      ensures recorded.Some? && stop != Finished ==> c == Raised
      ensures recorded.Some? ==>
                (RecordingPath(recorded.value) in files <==> stop != Finished || IsYes(Strip(keepAnswer)))
      ensures recorded.Some? ==>
                var recording := RecordingPath(recorded.value);
                var before := old(files) + {recording};
                var processed := FilesAfterProcessing(before, recording, LiveTitle(titleStamp), detect, w);
                && files == (if stop == WhileProcessing then before
                             else if stop == AtKeepPrompt || IsYes(Strip(keepAnswer)) then processed
                             else processed - {recording})
                && searchPath == if stop == WhileProcessing then old(searchPath)
                                 else PathAfterProcessing(before, old(searchPath))
    {
      if recorded.None? {
        return Returned(false);
      }
      var audioPath := RecordingsDir + "/recording_" + recorded.value + ".wav";
      files := files + {audioPath};
      if stop == WhileProcessing {
        return Raised;
      }
      var title := "Gravação_" + titleStamp;
      var ok, subtitles := ProcessAudioFile(audioPath, title, detect, w);
      if stop == AtKeepPrompt {
        return Raised;
      }
      var keepAudio := Lower(Strip(keepAnswer));
      if keepAudio !in YesAnswers {
        files := files - {audioPath};
      }
      c := Returned(ok);
    }
  }

  /** The two prompts differ: the long-video prompt does not strip the
      answer, the keep-recording prompt does, so " y" only counts for the
      second. */
  lemma PromptsDiffer()
    ensures IsYes(Strip(" y")) && !IsYes(" y")
  {
    assert Lower(" y") == " y";
    assert Strip(" y") == "y" by {
      assert IsSpace(' ');
      assert StripStart(" y") == "y";
    }
    assert Lower("y") == "y";
  }
}

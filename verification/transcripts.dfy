/** The data the transcription steps of video.py pass around: what Whisper
    returns, what pyannote's diarisation yields, and the record handed to the
    exporters (`transcribe_audio`, `detect_speakers`,
    `transcribe_with_speakers`). Whisper and pyannote themselves are not
    modelled: their outcome is a parameter, `None` standing for "could not be
    imported or raised". */
module Transcripts {
  import opened Text
  import opened Wrappers

  /** One timed piece of Whisper's output (`{'start', 'end', 'text'}`). */
  datatype Segment = Segment(start: real, end: real, text: string)

  /** What `model.transcribe` returns; a key it leaves out is `None`. */
  datatype WhisperResult = WhisperResult(text: Option<string>, language: Option<string>,
                                         segments: Option<seq<Segment>>)

  /** One element of `diarization.itertracks(yield_label=True)`: a turn and its label. */
  datatype Track = Track(start: real, end: real, speaker: string)

  /** One entry of `speakers_info`. */
  datatype SpeakerTurn = SpeakerTurn(speaker: string, start: real, end: real, duration: real)

  /** The record the exporters receive: Whisper's result as it came, or the
      combined record with a `language` and a `speakers` key. A key the
      record does not have is `None`. */
  datatype Transcript = Transcript(text: string, language: Option<string>,
                                   segments: Option<seq<Segment>>,
                                   speakers: Option<seq<SpeakerTurn>>)

  /** The pair `(transcription_data, language)` of a successful transcription. */
  datatype Transcribed = Transcribed(data: Transcript, language: string)

  /** `transcribe_audio` once the tools folder is on `PATH` (video.py:480-540).
      `engine` is what Whisper produced, `None` when it could not be imported
      or raised. The audio must exist, and the text with its surrounding
      white space removed must be non-empty; the record keeps Whisper's text
      as it came and the language defaults to "unknown". */
  function TranscribeResult(audioExists: bool, engine: Option<WhisperResult>): (r: Option<Transcribed>)
    ensures r.Some? <==> audioExists && engine.Some? && !Blank(engine.value.text.GetOr(""))
    ensures r.Some? ==>
              && r.value.data.text == engine.value.text.value
              && r.value.data.segments == engine.value.segments
              && r.value.data.language == engine.value.language
              && r.value.data.speakers.None?
              && r.value.language == engine.value.language.GetOr("unknown")
  {
    if !audioExists || engine.None? then None
    else
      var result := engine.value;
      if Strip(result.text.GetOr("")) == [] then None
      else Some(Transcribed(Transcript(result.text.value, result.language, result.segments, None),
                            result.language.GetOr("unknown")))
  }

  /** A transcription that succeeds carries text with a visible character. */
  lemma TranscribedTextVisible(audioExists: bool, engine: Option<WhisperResult>)
    requires TranscribeResult(audioExists, engine).Some?
    ensures exists i :: 0 <= i < |TranscribeResult(audioExists, engine).value.data.text|
                        && !IsSpace(TranscribeResult(audioExists, engine).value.data.text[i])
  {
    var t := engine.value.text.value;
    assert !Blank(t);
  }

  /** The entry `speakers_info` holds for one diarisation track. */
  function TurnOf(t: Track): SpeakerTurn {
    SpeakerTurn(t.speaker, t.start, t.end, t.end - t.start)
  }

  /** `speakers_info` for a whole diarisation, in the diariser's order. */
  function Turns(tracks: seq<Track>): seq<SpeakerTurn> {
    seq(|tracks|, i requires 0 <= i < |tracks| => TurnOf(tracks[i]))
  }

  /** `detect_speakers` (video.py:246-283): one entry per diarisation track,
      in order, whose duration is its end minus its start; `None` when the
      diariser could not run. The per-speaker totals it prints are not
      returned. */
  method DetectSpeakers(diarization: Option<seq<Track>>) returns (info: Option<seq<SpeakerTurn>>)
    ensures info.Some? <==> diarization.Some?
    ensures info.Some? ==>
              && |info.value| == |diarization.value|
              && forall i :: 0 <= i < |info.value| ==>
                   && info.value[i].speaker == diarization.value[i].speaker
                   && info.value[i].start == diarization.value[i].start
                   && info.value[i].end == diarization.value[i].end
                   && info.value[i].duration == info.value[i].end - info.value[i].start
    ensures info.Some? ==> info.value == Turns(diarization.value)
  {
    if diarization.None? {
      return None;
    }
    var tracks := diarization.value;
    var turns: seq<SpeakerTurn> := [];
    var i := 0;
    while i < |tracks|
      invariant 0 <= i <= |tracks|
      invariant turns == Turns(tracks[..i])
    {
      var turn := tracks[i];
      turns := turns + [SpeakerTurn(turn.speaker, turn.start, turn.end, turn.end - turn.start)];
      i := i + 1;
    }
    assert tracks[..i] == tracks;
    info := Some(turns);
  }

  /** The record `transcribe_with_speakers` returns once the plain
      transcription `t` succeeded (video.py:293-307). */
  function WithSpeakers(t: Transcribed, speakers: Option<seq<SpeakerTurn>>): (r: Transcribed)
    ensures r.language == t.language && r.data.text == t.data.text
    ensures speakers.None? || speakers.value == [] ==> r == t
    ensures speakers.Some? && speakers.value != [] ==>
              && r.data.speakers == speakers
              && r.data.language == Some(t.language)
              && r.data.segments == Some(t.data.segments.GetOr([]))
  {
    if speakers.Some? && speakers.value != [] then
      Transcribed(Transcript(t.data.text, Some(t.language), Some(t.data.segments.GetOr([])), speakers),
                  t.language)
    else t
  }
}

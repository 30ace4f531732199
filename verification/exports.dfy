/** `save_all_formats` (video.py:548-582): the four exports of one
    transcription, tried one after the other, and the success rule of
    `process_audio_file` (video.py:616). What each renderer writes is not
    modelled here, only whether it finished, except for the SubRip file,
    whose content the Subtitles module gives. */
module Exports {
  import opened Titles
  import opened Transcripts
  import opened Subtitles
  import opened Wrappers

  /** The four renderers, in the order they are tried. */
  datatype Format = Txt | Json | Srt | Pdf

  /** The key of a renderer in the returned dictionary. */
  function Key(f: Format): string {
    match f
    case Txt => "txt"
    case Json => "json"
    case Srt => "srt"
    case Pdf => "pdf"
  }

  const Keys: set<string> := {"txt", "json", "srt", "pdf"}

  /** The fixed ending each renderer appends to the base path. */
  function Suffix(f: Format): string {
    match f
    case Txt => "_transcription.txt"
    case Json => "_data.json"
    case Srt => "_subtitles.srt"
    case Pdf => "_document.pdf"
  }

  /** The `transcriptions` folder. */
  const TranscriptsDir := "transcriptions"

  /** `self.folders['transcripts'] / safe_title`. */
  function BasePath(title: string): string {
    JoinPath(TranscriptsDir, SafeTitle(title))
  }

  /** Where renderer `f` writes the export of `title`. */
  function ExportPath(title: string, f: Format): string {
    BasePath(title) + Suffix(f)
  }

  /** A title that sanitises to a real file name gives an export inside the
      `transcriptions` folder, named after the sanitised title and the
      renderer's suffix. */
  lemma ExportFileName(title: string, f: Format)
    requires SafeTitle(title) != "" && SafeTitle(title) != "."
    ensures ExportPath(title, f) == TranscriptsDir + "/" + SafeTitle(title) + Suffix(f)
    ensures BaseName(ExportPath(title, f)) == SafeTitle(title) + Suffix(f)
  {
    var safe := SafeTitle(title);
    var suffix := Suffix(f);
    var name := safe + suffix;
    assert BasePath(title) == TranscriptsDir + "/" + safe;
    Regroup(TranscriptsDir + "/", safe, suffix);
    NoSlashInName(title, f);
    assert |name| > 1;
    JoinPathName(TranscriptsDir, name);
  }

  lemma Regroup(d: string, a: string, b: string)
    ensures (d + a) + b == d + (a + b)
  {
  }

  lemma NoSlashInName(title: string, f: Format)
    ensures '/' !in SafeTitle(title) + Suffix(f)
  {
    var safe := SafeTitle(title);
    assert Unsafe('/');
    assert '/' !in safe;
    assert '/' !in Suffix(f);
  }

  /** An empty title adds no folder component, so its exports land next to
      the `transcriptions` folder rather than in it. */
  lemma UntitledExport()
    ensures ExportPath("", Txt) == "transcriptions_transcription.txt"
  {
  }

  lemma KeysDistinct()
    ensures Key(Txt) != Key(Json) && Key(Txt) != Key(Srt) && Key(Txt) != Key(Pdf)
    ensures Key(Json) != Key(Srt) && Key(Json) != Key(Pdf) && Key(Srt) != Key(Pdf)
  {
    assert Key(Txt)[0] == 't' && Key(Srt)[0] == 's' && Key(Pdf)[0] == 'p';
  }

  /** Different renderers get different keys and different paths, so no
      export overwrites another. */
  lemma KeysAndPathsDistinct(title: string, f: Format, g: Format)
    requires f != g
    ensures Key(f) != Key(g) && Key(f) in Keys
    ensures ExportPath(title, f) != ExportPath(title, g)
  {
    assert |Suffix(f)| != |Suffix(g)|;
  }

  /** The entry of renderer `f` once the renderers in `done` were tried:
      present exactly when `f` was tried and finished, and then its path. */
  predicate Entry(results: map<string, string>, title: string, renders: Format -> bool,
                  done: set<Format>, f: Format) {
    && (Key(f) in results <==> f in done && renders(f))
    && (Key(f) in results ==> results[Key(f)] == ExportPath(title, f))
  }

  /** The state of the result map once the renderers in `done` were tried. */
  predicate Recorded(results: map<string, string>, title: string, renders: Format -> bool, done: set<Format>) {
    && results.Keys <= Keys
    && Entry(results, title, renders, done, Txt) && Entry(results, title, renders, done, Json)
    && Entry(results, title, renders, done, Srt) && Entry(results, title, renders, done, Pdf)
  }

  /** Trying one more renderer records it exactly when it finishes. */
  lemma RecordStep(results: map<string, string>, title: string, renders: Format -> bool,
                   done: set<Format>, f: Format)
    requires Recorded(results, title, renders, done) && f !in done
    ensures Recorded(if renders(f) then results[Key(f) := ExportPath(title, f)] else results,
                     title, renders, done + {f})
  {
    KeysDistinct();
  }

  /** Once all four were tried, the map records exactly the ones that
      finished. */
  lemma RecordedAll(results: map<string, string>, title: string, renders: Format -> bool)
    requires Recorded(results, title, renders, {Txt, Json, Srt, Pdf})
    ensures forall f: Format :: Key(f) in results <==> renders(f)
    ensures forall f: Format :: Key(f) in results ==> results[Key(f)] == ExportPath(title, f)
  {
    forall f: Format
      ensures Key(f) in results <==> renders(f)
      ensures Key(f) in results ==> results[Key(f)] == ExportPath(title, f)
    {
      assert Entry(results, title, renders, {Txt, Json, Srt, Pdf}, f) by {
        match f
        case Txt =>
        case Json =>
        case Srt =>
        case Pdf =>
      }
    }
  }

  /** `save_all_formats`: every renderer is tried, whatever the earlier ones
      did; `renders(f)` says whether renderer `f` finishes without an
      exception, `leaves(f)` whether a failing renderer `f` left a file at
      its path (it had opened it before failing). A key is in the result
      exactly when its renderer finished, and it maps to that renderer's
      path; `written` holds every file created, reported or not; a finished
      SubRip export holds the writes `export_to_srt` makes for `data`. */
  method SaveAllFormats(title: string, data: Transcript, renders: Format -> bool, leaves: Format -> bool)
    returns (results: map<string, string>, subtitles: Option<seq<string>>, written: set<string>)
    requires Exportable(data)
    ensures results.Keys <= Keys
    ensures forall f: Format :: Key(f) in results <==> renders(f)
    ensures forall f: Format :: Key(f) in results ==> results[Key(f)] == ExportPath(title, f)
    ensures subtitles == if renders(Srt) then Some(SrtWrites(data)) else None
    ensures written == Exported(title, renders) + Exported(title, leaves)
  {
    var basePath := BasePath(title);
    results := map[];
    subtitles := None;
    written := {};
    WrittenUnion(title, renders, leaves);

    RecordStep(results, title, renders, {}, Txt);
    assert basePath + Suffix(Txt) == ExportPath(title, Txt);
    if renders(Txt) {
      results := results[Key(Txt) := basePath + Suffix(Txt)];
    }
    written := written + Produced(title, Txt, renders, leaves);
    RecordStep(results, title, renders, {Txt}, Json);
    assert basePath + Suffix(Json) == ExportPath(title, Json);
    if renders(Json) {
      results := results[Key(Json) := basePath + Suffix(Json)];
    }
    written := written + Produced(title, Json, renders, leaves);
    RecordStep(results, title, renders, {Txt, Json}, Srt);
    var writes := ExportToSrt(data);
    assert basePath + Suffix(Srt) == ExportPath(title, Srt);
    if renders(Srt) {
      results := results[Key(Srt) := basePath + Suffix(Srt)];
      subtitles := Some(writes);
    }
    written := written + Produced(title, Srt, renders, leaves);
    RecordStep(results, title, renders, {Txt, Json, Srt}, Pdf);
    assert basePath + Suffix(Pdf) == ExportPath(title, Pdf);
    if renders(Pdf) {
      results := results[Key(Pdf) := basePath + Suffix(Pdf)];
    }
    written := written + Produced(title, Pdf, renders, leaves);
    RecordedAll(results, title, renders);
  }

  /** The files a run of `SaveAllFormats` leaves behind. */
  function Exported(title: string, renders: Format -> bool): set<string> {
    (if renders(Txt) then {ExportPath(title, Txt)} else {})
    + (if renders(Json) then {ExportPath(title, Json)} else {})
    + (if renders(Srt) then {ExportPath(title, Srt)} else {})
    + (if renders(Pdf) then {ExportPath(title, Pdf)} else {})
  }

  /** The file renderer `f` creates: one when it finishes or, failing,
      leaves its file behind. */
  function Produced(title: string, f: Format, renders: Format -> bool, leaves: Format -> bool): set<string> {
    if renders(f) || leaves(f) then {ExportPath(title, f)} else {}
  }

  /** The four renderers together create the finished exports and the
      leftovers. */
  lemma WrittenUnion(title: string, renders: Format -> bool, leaves: Format -> bool)
    ensures {} + Produced(title, Txt, renders, leaves) + Produced(title, Json, renders, leaves)
            + Produced(title, Srt, renders, leaves) + Produced(title, Pdf, renders, leaves)
            == Exported(title, renders) + Exported(title, leaves)
  {
  }

  /** The paths in a result map are exactly the exported files. */
  lemma ResultPaths(results: map<string, string>, title: string, renders: Format -> bool)
    requires results.Keys <= Keys
    requires forall f: Format :: Key(f) in results <==> renders(f)
    requires forall f: Format :: Key(f) in results ==> results[Key(f)] == ExportPath(title, f)
    ensures results.Values == Exported(title, renders)
  {
    forall p | p in results.Values
      ensures p in Exported(title, renders)
    {
      var k :| k in results && results[k] == p;
      assert k == Key(Txt) || k == Key(Json) || k == Key(Srt) || k == Key(Pdf);
    }
    forall p | p in Exported(title, renders)
      ensures p in results.Values
    {
      var f: Format :| renders(f) && p == ExportPath(title, f);
      assert results[Key(f)] == p;
    }
  }

  /** The rule of `process_audio_file`: `len(saved_files) > 0`. */
  predicate Saved(results: map<string, string>) {
    |results| > 0
  }

  /** For a result map as `SaveAllFormats` describes it, the run counts as a
      success exactly when at least one renderer finished. */
  lemma SavedIffSomeRenderer(results: map<string, string>, renders: Format -> bool)
    requires results.Keys <= Keys
    requires forall f: Format :: Key(f) in results <==> renders(f)
    ensures Saved(results) <==> exists f: Format :: renders(f)
  {
    if |results| > 0 {
      var k :| k in results;
      assert k == Key(Txt) || k == Key(Json) || k == Key(Srt) || k == Key(Pdf);
    }
  }
}

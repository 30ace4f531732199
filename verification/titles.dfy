/** Small pure decisions of video.py: the title sanitiser shared by
    `extract_audio` and `save_all_formats`, the URL test of `process_video`,
    the yes-answer test of the two confirmation prompts, `Path.stem` and
    `pathlib` joining. Paths are POSIX strings relative to the application
    directory. */
module Titles {
  import opened Text

  /** The characters matched by the pattern `[<>:"/\\|?*]`. */
  predicate Unsafe(c: char) {
    c in "<>:\"/\\|?*"
  }

  /** `re.sub(r'[<>:"/\\|?*]', '_', title)`: every unsafe character becomes
      `_`, every other character stays where it was. */
  function SafeTitle(title: string): (r: string)
    ensures |r| == |title|
    ensures forall i :: 0 <= i < |r| ==> !Unsafe(r[i])
    ensures forall i :: 0 <= i < |r| ==> r[i] == if Unsafe(title[i]) then '_' else title[i]
  {
    if title == [] then []
    else [if Unsafe(title[0]) then '_' else title[0]] + SafeTitle(title[1..])
  }

  /** Sanitising twice is sanitising once. */
  lemma SafeTitleIdempotent(title: string)
    ensures SafeTitle(SafeTitle(title)) == SafeTitle(title)
  {
    var r := SafeTitle(title);
    assert forall i :: 0 <= i < |r| ==> SafeTitle(r)[i] == r[i];
  }

  /** A title without unsafe characters is kept as it is. */
  lemma SafeTitleKeepsSafe(title: string)
    requires forall i :: 0 <= i < |title| ==> !Unsafe(title[i])
    ensures SafeTitle(title) == title
  {
  }

  /** `video_source.startswith(('http://', 'https://', 'www.'))`. */
  predicate IsUrl(source: string) {
    "http://" <= source || "https://" <= source || "www." <= source
  }

  /** The test looks only at the start of the source, letter case included:
      a web address with one of the three prefixes is a URL, a local path,
      an upper-case scheme or a URL that appears later in the text is not. */
  lemma IsUrlMeaning(source: string)
    ensures IsUrl(source) <==> (|source| >= 7 && source[..7] == "http://")
                               || (|source| >= 8 && source[..8] == "https://")
                               || (|source| >= 4 && source[..4] == "www.")
    ensures IsUrl(source) ==> source[0] == 'h' || source[0] == 'w'
    ensures IsUrl("https://youtu.be/x") && IsUrl("www.example.com/v")
    ensures !IsUrl("HTTPS://youtu.be/x") && !IsUrl("videos/http://x.mp4") && !IsUrl("")
  {
    assert "https://youtu.be/x"[..8] == "https://";
    assert "www.example.com/v"[..4] == "www.";
    assert "HTTPS://youtu.be/x"[0] == 'H';
    assert "videos/http://x.mp4"[0] == 'v';
  }

  /** The answers both prompts accept as "yes". */
  const YesAnswers: set<string> := {"s", "sim", "y", "yes"}

  /** `answer.lower() in ['s', 'sim', 'y', 'yes']`. */
  predicate IsYes(answer: string) {
    Lower(answer) in YesAnswers
  }

  /** The answer is a yes exactly when it is one of the four words, in any
      mix of upper and lower case; in particular an empty answer (a bare
      Enter) is a no. */
  lemma IsYesMeaning(answer: string)
    ensures IsYes(answer) ==> 1 <= |answer| <= 3
    ensures IsYes(answer) <==> Lower(answer) == "s" || Lower(answer) == "sim"
                               || Lower(answer) == "y" || Lower(answer) == "yes"
    ensures !IsYes("") && IsYes("S") && IsYes("Sim") && IsYes("YES") && !IsYes("n") && !IsYes("nao")
  {
    assert Lower("S") == "s";
    assert Lower("Sim") == "sim";
    assert Lower("YES") == "yes";
    assert Lower("n") == "n";
    assert Lower("nao") == "nao";
  }

  /** `pathlib`'s `directory / name`: an empty or `.` name adds no component. */
  function JoinPath(directory: string, name: string): string {
    if name == "" || name == "." then directory else directory + "/" + name
  }

  /** The last path component (`Path(p).name`), with `/` as separator. */
  function BaseName(path: string): (r: string)
    ensures |r| <= |path| && r == path[|path| - |r|..]
    ensures '/' !in r
    ensures |r| == |path| || path[|path| - |r| - 1] == '/'
  {
    if path == [] || path[|path| - 1] == '/' then []
    else
      var r := BaseName(path[..|path| - 1]);
      assert path[|path| - |r| - 1..] == path[..|path| - 1][|path| - 1 - |r|..] + [path[|path| - 1]];
      r + [path[|path| - 1]]
  }

  /** Joining a single component to a folder puts it in that folder: it is
      the last component of the result, after the folder and a `/`. */
  lemma JoinPathName(directory: string, name: string)
    requires name != "" && name != "." && '/' !in name
    ensures BaseName(JoinPath(directory, name)) == name
    ensures JoinPath(directory, name) == directory + "/" + BaseName(JoinPath(directory, name))
  {
    var p := JoinPath(directory, name);
    assert p[|directory|] == '/';
    assert p[|directory| + 1..] == name;
  }

  /** Index of the last `.` in `name`, or -1 (`name.rfind('.')`). */
  function LastDot(name: string): (i: int)
    ensures -1 <= i < |name|
    ensures i >= 0 ==> name[i] == '.'
    ensures forall j :: i < j < |name| ==> name[j] != '.'
  {
    if name == [] then -1
    else if name[|name| - 1] == '.' then |name| - 1
    else LastDot(name[..|name| - 1])
  }

  /** `Path(path).stem`: the last component without its suffix. The suffix
      starts at the last `.` of the component and is dropped only when that
      `.` is neither its first nor its last character. */
  function Stem(path: string): (r: string)
    ensures '/' !in r
    ensures r <= BaseName(path)
    ensures var name := BaseName(path); var ext := name[|r|..];
            && (ext != [] ==> ext[0] == '.' && |r| >= 1 && |ext| >= 2 && '.' !in ext[1..])
            && (ext == [] <==> !(0 < LastDot(name) < |name| - 1))
  {
    var name := BaseName(path);
    var i := LastDot(name);
    if 0 < i < |name| - 1 then name[..i] else name
  }
}

/** Models of the Python `str` operations the transcriber relies on:
    `isspace`, `strip`, `split`, `' '.join`, `lower` and zero-padded
    integer formatting (`f"{n:02d}"`). Strings are `seq<char>`. */
module Text {

  /** Python's `str.isspace()` for one character: the characters Python
      treats as whitespace in `strip()` and `split()` with no argument. */
  predicate IsSpace(c: char) {
    var n := c as int;
    n == 32 || 9 <= n <= 13 || 28 <= n <= 31 || n == 0x85 || n == 0xA0
    || n == 0x1680 || 0x2000 <= n <= 0x200A || n == 0x2028 || n == 0x2029
    || n == 0x202F || n == 0x205F || n == 0x3000
  }

  /** Every character is whitespace (so `s.strip()` is empty). */
  predicate Blank(s: string) {
    forall i :: 0 <= i < |s| ==> IsSpace(s[i])
  }

  predicate NoSpace(s: string) {
    forall i :: 0 <= i < |s| ==> !IsSpace(s[i])
  }

  /** What `str.split()` can produce: a non-empty run without whitespace. */
  predicate IsWord(w: string) {
    w != [] && NoSpace(w)
  }

  /** Python's `str.lstrip()`: drops the leading whitespace and nothing else
      (see StripStartSpec). */
  function StripStart(s: string): (r: string)
    ensures |r| <= |s|
  {
    if s != [] && IsSpace(s[0]) then StripStart(s[1..]) else s
  }

  /** `lstrip` keeps a suffix. */
  lemma {:induction false} StripStartSuffix(s: string)
    ensures StripStart(s) == s[|s| - |StripStart(s)|..]
  {
    if s != [] && IsSpace(s[0]) {
      StripStartSuffix(s[1..]);
    }
  }

  /** What `lstrip` drops is whitespace. */
  lemma {:induction false} StripStartBlank(s: string)
    ensures Blank(s[..|s| - |StripStart(s)|])
  {
    if s != [] && IsSpace(s[0]) {
      StripStartBlank(s[1..]);
      var n := |s| - |StripStart(s)|;
      assert s[..n] == [s[0]] + s[1..][..n - 1];
    }
  }

  /** What `lstrip` keeps starts with a visible character. */
  lemma {:induction false} StripStartVisible(s: string)
    ensures StripStart(s) != [] ==> !IsSpace(StripStart(s)[0])
  {
    if s != [] && IsSpace(s[0]) {
      StripStartVisible(s[1..]);
    }
  }

  lemma StripStartSpec(s: string)
    ensures var r := StripStart(s);
            r == s[|s| - |r|..] && Blank(s[..|s| - |r|]) && (r != [] ==> !IsSpace(r[0]))
  {
    StripStartSuffix(s);
    StripStartBlank(s);
    StripStartVisible(s);
  }

  /** Python's `str.rstrip()`: drops the trailing whitespace and nothing else
      (see StripEndSpec). */
  function StripEnd(s: string): (r: string)
    ensures |r| <= |s|
  {
    if s != [] && IsSpace(s[|s| - 1]) then StripEnd(s[..|s| - 1]) else s
  }

  /** `rstrip` keeps a prefix. */
  lemma {:induction false} StripEndPrefix(s: string)
    ensures StripEnd(s) == s[..|StripEnd(s)|]
  {
    if s != [] && IsSpace(s[|s| - 1]) {
      StripEndPrefix(s[..|s| - 1]);
    }
  }

  /** What `rstrip` drops is whitespace. */
  lemma {:induction false} StripEndBlank(s: string)
    ensures Blank(s[|StripEnd(s)|..])
  {
    if s != [] && IsSpace(s[|s| - 1]) {
      StripEndBlank(s[..|s| - 1]);
      var n := |StripEnd(s)|;
      assert s[n..] == s[..|s| - 1][n..] + [s[|s| - 1]];
    }
  }

  /** What `rstrip` keeps ends with a visible character. */
  lemma {:induction false} StripEndVisible(s: string)
    ensures StripEnd(s) != [] ==> !IsSpace(StripEnd(s)[|StripEnd(s)| - 1])
  {
    if s != [] && IsSpace(s[|s| - 1]) {
      StripEndVisible(s[..|s| - 1]);
    }
  }

  lemma StripEndSpec(s: string)
    ensures var r := StripEnd(s);
            r == s[..|r|] && Blank(s[|r|..]) && (r != [] ==> !IsSpace(r[|r| - 1]))
  {
    StripEndPrefix(s);
    StripEndBlank(s);
    StripEndVisible(s);
  }

  /** Python's `str.strip()`: the infix of `s` left once the blank borders on
      both sides are removed. It is empty exactly when `s` is all whitespace. */
  function Strip(s: string): (r: string)
    ensures r == [] <==> Blank(s)
    ensures r != [] ==> !IsSpace(r[0]) && !IsSpace(r[|r| - 1])
    ensures var k := |s| - |StripStart(s)|;
            k + |r| <= |s| && r == s[k..k + |r|] && Blank(s[..k]) && Blank(s[k + |r|..])
  {
    StripBorders(s);
    StripEnd(StripStart(s))
  }

  lemma StripBorders(s: string)
    ensures var t := StripStart(s); var r := StripEnd(t); var k := |s| - |t|;
            (r == [] <==> Blank(s)) && k + |r| <= |s| && r == s[k..k + |r|]
            && Blank(s[..k]) && Blank(s[k + |r|..])
            && (r != [] ==> !IsSpace(r[0]) && !IsSpace(r[|r| - 1]))
  {
    StripInfix(s);
    StripBlankBorders(s);
    StripVisibleEnds(s);
    StripEmpty(s);
  }

  /** What `strip` keeps is an infix of `s`. */
  lemma StripInfix(s: string)
    ensures var t := StripStart(s); var r := StripEnd(t); var k := |s| - |t|;
            k + |r| <= |s| && r == s[k..k + |r|] && t == s[k..]
  {
    var t := StripStart(s);
    StripStartSuffix(s);
    StripEndPrefix(t);
    PrefixOfSuffix(s, |s| - |t|, |StripEnd(t)|);
  }

  lemma PrefixOfSuffix(s: string, k: nat, n: nat)
    requires k + n <= |s|
    ensures s[k..][..n] == s[k..k + n]
  {
  }

  /** What `strip` removes on either side is whitespace. */
  lemma StripBlankBorders(s: string)
    ensures var t := StripStart(s); var r := StripEnd(t); var k := |s| - |t|;
            k + |r| <= |s| && Blank(s[..k]) && Blank(s[k + |r|..])
  {
    var t := StripStart(s);
    var k := |s| - |t|;
    StripStartSuffix(s);
    StripStartBlank(s);
    StripEndBlank(t);
    SuffixOfSuffix(s, k, |StripEnd(t)|);
  }

  lemma SuffixOfSuffix(s: string, k: nat, n: nat)
    requires k + n <= |s|
    ensures s[k..][n..] == s[k + n..]
  {
  }

  /** What `strip` keeps starts and ends with a visible character. */
  lemma StripVisibleEnds(s: string)
    ensures var r := StripEnd(StripStart(s));
            r != [] ==> !IsSpace(r[0]) && !IsSpace(r[|r| - 1])
  {
    var t := StripStart(s);
    StripStartVisible(s);
    StripEndPrefix(t);
    StripEndVisible(t);
  }

  /** `strip` gives the empty string exactly on all-blank strings. */
  lemma StripEmpty(s: string)
    ensures StripEnd(StripStart(s)) == [] <==> Blank(s)
  {
    var t := StripStart(s);
    var r := StripEnd(t);
    var k := |s| - |t|;
    StripInfix(s);
    StripBlankBorders(s);
    if r == [] {
      BlankJoin(s[..k], t);
      assert s == s[..k] + t;
    } else {
      StripVisibleEnds(s);
      assert r[0] == s[k];
    }
  }

  lemma BlankJoin(a: string, b: string)
    requires Blank(a) && Blank(b)
    ensures Blank(a + b)
  {
  }

  /** Length of the run of non-whitespace characters at the start of `s`. */
  function WordEnd(s: string): (k: nat)
    ensures k <= |s|
  {
    if s == [] || IsSpace(s[0]) then 0 else 1 + WordEnd(s[1..])
  }

  /** Python's `str.split()` with no argument: the maximal runs of
      non-whitespace characters, in order (see SplitGivesWords). */
  function Split(s: string): (ws: seq<string>)
    decreases |s|
  {
    var t := StripStart(s);
    if t == [] then []
    else
      var k := WordEnd(t);
      [t[..k]] + Split(t[k..])
  }

  lemma {:induction false} WordEndSpec(s: string)
    ensures var k := WordEnd(s); NoSpace(s[..k]) && (k < |s| ==> IsSpace(s[k]))
  {
    if s != [] && !IsSpace(s[0]) {
      WordEndSpec(s[1..]);
      var k := WordEnd(s[1..]);
      assert s[..k + 1] == [s[0]] + s[1..][..k];
    }
  }

  /** Every piece `split()` returns is a non-empty run without whitespace. */
  lemma {:induction false} SplitGivesWords(s: string)
    ensures forall i :: 0 <= i < |Split(s)| ==> IsWord(Split(s)[i])
    decreases |s|
  {
    var t := StripStart(s);
    if t != [] {
      StripStartSpec(s);
      var k := WordEnd(t);
      WordEndSpec(t);
      SplitGivesWords(t[k..]);
      assert Split(s) == [t[..k]] + Split(t[k..]);
    }
  }

  /** Pieces laid end to end. */
  function Concat<T>(pieces: seq<seq<T>>): seq<T> {
    if pieces == [] then [] else pieces[0] + Concat(pieces[1..])
  }

  /** `s` with every whitespace character removed. */
  function Visible(s: string): string {
    if s == [] then [] else (if IsSpace(s[0]) then [] else [s[0]]) + Visible(s[1..])
  }

  lemma {:induction false} VisibleAppend(a: string, b: string)
    ensures Visible(a + b) == Visible(a) + Visible(b)
  {
    if a == [] {
      assert a + b == b;
    } else {
      assert (a + b)[1..] == a[1..] + b;
      VisibleAppend(a[1..], b);
    }
  }

  lemma {:induction false} VisibleBlank(a: string)
    requires Blank(a)
    ensures Visible(a) == []
  {
    if a != [] {
      VisibleBlank(a[1..]);
    }
  }

  lemma {:induction false} VisibleWord(a: string)
    requires NoSpace(a)
    ensures Visible(a) == a
  {
    if a != [] {
      VisibleWord(a[1..]);
      assert a == [a[0]] + a[1..];
    }
  }

  /** `split()` loses no visible character and adds none: its words laid
      end to end are the text without its whitespace. */
  lemma {:induction false} SplitVisible(s: string)
    ensures Concat(Split(s)) == Visible(s)
    decreases |s|
  {
    var t := StripStart(s);
    if t == [] {
      SplitBlank(s);
      VisibleBlank(s);
    } else {
      var j, k := |s| - |t|, WordEnd(t);
      SplitFirst(s, t, j, k);
      SplitVisible(s[j + k..]);
      VisibleBlank(s[..j]);
      VisibleWord(s[j..j + k]);
      CutThree(s, j, j + k);
      SplitVisibleStep(s[..j], s[j..j + k], s[j + k..], Split(s[j + k..]));
    }
  }

  lemma SplitVisibleStep(pre: string, word: string, rest: string, words: seq<string>)
    requires Visible(pre) == [] && Visible(word) == word && Concat(words) == Visible(rest)
    ensures Concat([word] + words) == Visible(pre + word + rest)
  {
    ConcatCons(word, words);
    VisibleThree(pre, word, rest);
  }

  lemma ConcatCons<T>(piece: seq<T>, pieces: seq<seq<T>>)
    ensures Concat([piece] + pieces) == piece + Concat(pieces)
  {
    assert ([piece] + pieces)[1..] == pieces;
  }

  lemma CutThree<T>(s: seq<T>, i: nat, e: nat)
    requires i <= e <= |s|
    ensures s == s[..i] + s[i..e] + s[e..]
  {
  }

  lemma VisibleThree(a: string, b: string, c: string)
    ensures Visible(a + b + c) == Visible(a) + Visible(b) + Visible(c)
  {
    VisibleAppend(a + b, c);
    VisibleAppend(a, b);
  }

  /** `split()` finds no word exactly when the text is all whitespace. */
  lemma SplitBlank(s: string)
    ensures Split(s) == [] <==> Blank(s)
  {
    var t := StripStart(s);
    var j := |s| - |t|;
    StripStartSpec(s);
    if t != [] {
      assert s[j] == t[0];
    } else {
      assert s == s[..j];
    }
  }

  /** Where `split()` cuts first: with `j` the length of the leading
      whitespace and `k` that of the run of visible characters after it, the
      first word is that run, it ends at whitespace or at the end of the
      text, and the other words are those of what follows it. */
  lemma SplitFirst(s: string, t: string, j: nat, k: nat)
    requires t == StripStart(s) && t != [] && j == |s| - |t| && k == WordEnd(t)
    ensures 0 < k && j + k <= |s| && Blank(s[..j]) && NoSpace(s[j..j + k])
    ensures j + k < |s| ==> IsSpace(s[j + k])
    ensures Split(s) == [s[j..j + k]] + Split(s[j + k..])
  {
    CutFacts(s, t, j, k);
    assert Split(s) == [t[..k]] + Split(t[k..]);
  }

  /** The positions of that cut, without `split()` itself. */
  lemma CutFacts(s: string, t: string, j: nat, k: nat)
    requires t == StripStart(s) && t != [] && j == |s| - |t| && k == WordEnd(t)
    ensures 0 < k && j + k <= |s| && Blank(s[..j]) && NoSpace(s[j..j + k])
    ensures j + k < |s| ==> IsSpace(s[j + k])
    ensures t[..k] == s[j..j + k] && t[k..] == s[j + k..]
  {
    StripStartSpec(s);
    WordEndSpec(t);
    PrefixOfSuffix(s, j, k);
    SuffixOfSuffix(s, j, k);
  }

  /** Python's `' '.join(ws)`. */
  function Join(ws: seq<string>): (r: string)
    ensures |ws| == 1 ==> r == ws[0]
  {
    if |ws| == 0 then ""
    else if |ws| == 1 then ws[0]
    else ws[0] + " " + Join(ws[1..])
  }

  lemma SplitSpacePrefix(x: string)
    ensures Split([' '] + x) == Split(x)
  {
    assert ([' '] + x)[1..] == x;
    assert StripStart([' '] + x) == StripStart(x);
  }

  /** The first word of `w + " " + rest` is `w`. */
  lemma {:induction false} WordEndBeforeSpace(w: string, rest: string)
    requires NoSpace(w)
    ensures WordEnd(w + [' '] + rest) == |w|
  {
    if w != [] {
      assert (w + [' '] + rest)[1..] == w[1..] + [' '] + rest;
      WordEndBeforeSpace(w[1..], rest);
    }
  }

  lemma {:induction false} WordEndWhole(w: string)
    requires NoSpace(w)
    ensures WordEnd(w) == |w|
  {
    if w != [] {
      WordEndWhole(w[1..]);
    }
  }

  lemma SplitOneWord(w: string)
    requires IsWord(w)
    ensures Split(w) == [w]
  {
    assert StripStart(w) == w;
    WordEndWhole(w);
    assert w[..|w|] == w;
    assert StripStart(w[|w|..]) == [];
  }

  lemma SplitCons(w: string, rest: string)
    requires IsWord(w)
    ensures Split(w + [' '] + rest) == [w] + Split(rest)
  {
    var s := w + [' '] + rest;
    assert StripStart(s) == s;
    WordEndBeforeSpace(w, rest);
    assert s[..|w|] == w;
    assert s[|w|..] == [' '] + rest;
    SplitSpacePrefix(rest);
  }

  lemma SplitJoinStep(ws: seq<string>)
    requires |ws| > 1 && IsWord(ws[0])
    requires Split(Join(ws[1..])) == ws[1..]
    ensures Split(Join(ws)) == ws
  {
    var rest := Join(ws[1..]);
    assert Join(ws) == ws[0] + [' '] + rest;
    SplitCons(ws[0], rest);
    assert ws == [ws[0]] + ws[1..];
  }

  lemma SplitEmpty()
    ensures Split([]) == []
  {
    assert StripStart([]) == [];
  }

  /** Splitting a space-joined list of words gives the words back: the text
      of a subtitle chunk splits into exactly the chunk's words. */
  lemma {:induction false} SplitJoin(ws: seq<string>)
    requires forall i :: 0 <= i < |ws| ==> IsWord(ws[i])
    ensures Split(Join(ws)) == ws
  {
    if |ws| == 0 {
      SplitEmpty();
    } else if |ws| == 1 {
      SplitOneWord(ws[0]);
    } else {
      SplitJoin(ws[1..]);
      SplitJoinStep(ws);
    }
  }

  /** ASCII lower-casing; every other character is kept. */
  function LowerChar(c: char): char {
    if 'A' <= c <= 'Z' then (c as int + 32) as char else c
  }

  /** Python's `str.lower()`, restricted to ASCII letters. */
  function Lower(s: string): (r: string)
    ensures |r| == |s|
  {
    seq(|s|, i requires 0 <= i < |s| => LowerChar(s[i]))
  }

  /** Lower-casing leaves no capital letter, turns each capital into its
      small letter (32 code points further) and keeps every other character;
      lower-casing twice is lower-casing once. */
  lemma LowerMeaning(s: string)
    ensures |Lower(s)| == |s|
    ensures forall i :: 0 <= i < |s| ==> !('A' <= Lower(s)[i] <= 'Z')
    ensures forall i :: 0 <= i < |s| && 'A' <= s[i] <= 'Z' ==> Lower(s)[i] as int == s[i] as int + 32
    ensures forall i :: 0 <= i < |s| && !('A' <= s[i] <= 'Z') ==> Lower(s)[i] == s[i]
    ensures Lower(Lower(s)) == Lower(s)
  {
    var r := Lower(s);
    assert forall i :: 0 <= i < |r| ==> Lower(r)[i] == r[i];
  }

  predicate IsDigit(c: char) {
    '0' <= c <= '9'
  }

  predicate AllDigits(s: string) {
    forall i :: 0 <= i < |s| ==> IsDigit(s[i])
  }

  function DigitChar(d: nat): (c: char)
    requires d < 10
    ensures IsDigit(c)
  {
    ('0' as int + d) as char
  }

  function DigitValue(c: char): (d: nat)
    requires IsDigit(c)
    ensures d < 10
  {
    c as int - '0' as int
  }

  function Pow10(k: nat): (p: nat)
    ensures p >= 1
  {
    if k == 0 then 1 else 10 * Pow10(k - 1)
  }

  /** The shortest decimal spelling of `n`, as `str(n)` gives it. */
  function Decimal(n: nat): string {
    if n < 10 then [DigitChar(n)] else Decimal(n / 10) + [DigitChar(n % 10)]
  }

  lemma {:induction false} DecimalDigits(n: nat)
    ensures |Decimal(n)| >= 1 && AllDigits(Decimal(n))
    ensures n == 0 || Decimal(n)[0] != '0'
  {
    if n >= 10 {
      DecimalDigits(n / 10);
    }
  }

  /** The number a string of decimal digits denotes (leading zeros allowed). */
  function DecimalValue(s: string): nat
    requires AllDigits(s)
  {
    if s == [] then 0 else 10 * DecimalValue(s[..|s| - 1]) + DigitValue(s[|s| - 1])
  }

  lemma {:induction false} DecimalRoundTrip(n: nat)
    ensures AllDigits(Decimal(n)) && DecimalValue(Decimal(n)) == n
    ensures n == 0 || Decimal(n)[0] != '0'
  {
    DecimalDigits(n);
    if n >= 10 {
      var s := Decimal(n);
      assert s[..|s| - 1] == Decimal(n / 10);
      DecimalRoundTrip(n / 10);
    }
  }

  /** A number below 10^w takes at most w digits. */
  lemma {:induction false} DecimalLength(n: nat, w: nat)
    requires w >= 1 && n < Pow10(w)
    ensures |Decimal(n)| <= w
  {
    if n >= 10 {
      assert n / 10 < Pow10(w - 1);
      DecimalLength(n / 10, w - 1);
    }
  }

  function Zeros(k: nat): (s: string)
    ensures |s| == k && AllDigits(s)
    ensures forall i :: 0 <= i < k ==> s[i] == '0'
  {
    seq(k, i => '0')
  }

  /** Leading zeros do not change the value of a digit string. */
  lemma {:induction false} LeadingZeros(k: nat, s: string)
    requires AllDigits(s)
    ensures AllDigits(Zeros(k) + s) && DecimalValue(Zeros(k) + s) == DecimalValue(s)
  {
    if s == [] {
      assert Zeros(k) + s == Zeros(k);
      ZerosValue(k);
    } else {
      var t := Zeros(k) + s;
      assert t[..|t| - 1] == Zeros(k) + s[..|s| - 1];
      LeadingZeros(k, s[..|s| - 1]);
    }
  }

  lemma {:induction false} ZerosValue(k: nat)
    ensures DecimalValue(Zeros(k)) == 0
  {
    if k > 0 {
      assert Zeros(k)[..k - 1] == Zeros(k - 1);
      ZerosValue(k - 1);
    }
  }

  /** Python's `f"{n:0{width}d}"` for `n >= 0`: at least `width` digits,
      padded on the left with zeros, denoting `n`. */
  function ZeroPadded(n: nat, width: nat): string {
    Zeros(if |Decimal(n)| < width then width - |Decimal(n)| else 0) + Decimal(n)
  }

  /** The padded string has at least `width` digits, exactly `width` when
      `n` fits, and denotes `n`. */
  lemma ZeroPaddedSpec(n: nat, width: nat)
    ensures |ZeroPadded(n, width)| == if |Decimal(n)| < width then width else |Decimal(n)|
    ensures AllDigits(ZeroPadded(n, width)) && DecimalValue(ZeroPadded(n, width)) == n
    ensures n < Pow10(width) && width >= 1 ==> |ZeroPadded(n, width)| == width
  {
    PaddedFacts(n, width);
  }

  lemma PaddedFacts(n: nat, width: nat)
    ensures var d := Decimal(n); var s := Zeros(if |d| < width then width - |d| else 0) + d;
            AllDigits(s) && DecimalValue(s) == n && (n < Pow10(width) && width >= 1 ==> |d| <= width)
  {
    var d := Decimal(n);
    DecimalDigits(n);
    LeadingZeros(if |d| < width then width - |d| else 0, d);
    DecimalRoundTrip(n);
    if n < Pow10(width) && width >= 1 {
      DecimalLength(n, width);
    }
  }
}

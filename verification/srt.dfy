/** `export_to_srt` (video.py:309-341): the SubRip file written for a
    transcription record. A record with a `segments` key gives one cue per
    segment; any other record gives one cue per ten words of its text, three
    seconds each. The file is modelled as the sequence of strings the source
    passes to `f.write`, three per cue. */
module Subtitles {
  import opened Text
  import opened Wrappers
  import opened SrtTime
  import opened Transcripts

  /** One subtitle: its number, its start and end in seconds and its text. */
  datatype Cue = Cue(index: nat, start: real, end: real, text: string)

  function Min(a: int, b: int): int {
    if a <= b then a else b
  }

  /** Both times of every cue can be written as SubRip stamps. */
  predicate AllTimed(cues: seq<Cue>) {
    forall i :: 0 <= i < |cues| ==> cues[i].start >= 0.0 && cues[i].end >= 0.0
  }

  /** Whisper never reports a negative time; the model asks for it. */
  predicate SegmentsTimed(segs: seq<Segment>) {
    forall i :: 0 <= i < |segs| ==> segs[i].start >= 0.0 && segs[i].end >= 0.0
  }

  predicate Exportable(data: Transcript) {
    data.segments.Some? ==> SegmentsTimed(data.segments.value)
  }

  /** The three writes of one cue: number, time line, text and a blank line. */
  function CueLines(c: Cue): (w: seq<string>)
    requires c.start >= 0.0 && c.end >= 0.0
    ensures |w| == 3
  {
    [Decimal(c.index) + "\n",
     SecondsToSrtTime(c.start) + " --> " + SecondsToSrtTime(c.end) + "\n",
     c.text + "\n\n"]
  }

  lemma AppendThree(w: seq<string>, a: string, b: string, c: string)
    ensures w + [a] + [b] + [c] == w + [a, b, c]
  {
  }

  /** Blocks of writes laid end to end. */
  function Flat(blocks: seq<seq<string>>): seq<string>
    decreases |blocks|
  {
    if blocks == [] then [] else Flat(blocks[..|blocks| - 1]) + blocks[|blocks| - 1]
  }

  lemma FlatStep(blocks: seq<seq<string>>, k: nat)
    requires k < |blocks|
    ensures Flat(blocks[..k + 1]) == Flat(blocks[..k]) + blocks[k]
  {
    assert blocks[..k + 1][..k] == blocks[..k];
  }

  /** With blocks of three writes each, block `k` is writes `3k` to `3k+2`. */
  lemma {:induction false} FlatAt(blocks: seq<seq<string>>, k: nat)
    requires forall i :: 0 <= i < |blocks| ==> |blocks[i]| == 3
    requires k < |blocks|
    ensures |Flat(blocks)| == 3 * |blocks|
    ensures Flat(blocks)[3 * k..3 * k + 3] == blocks[k]
    decreases |blocks|
  {
    var n := |blocks| - 1;
    var front := blocks[..n];
    var a := Flat(front);
    assert Flat(blocks) == a + blocks[n];
    if n == 0 {
      assert a == [];
    } else if k < n {
      FlatAt(front, k);
      assert (a + blocks[n])[3 * k..3 * k + 3] == a[3 * k..3 * k + 3];
    } else {
      FlatAt(front, 0);
      assert (a + blocks[n])[3 * k..3 * k + 3] == blocks[n];
    }
  }

  /** The writes of each cue, cue by cue. */
  function Blocks(cues: seq<Cue>): (b: seq<seq<string>>)
    requires AllTimed(cues)
    ensures |b| == |cues|
  {
    seq(|cues|, i requires 0 <= i < |cues| && AllTimed(cues) => CueLines(cues[i]))
  }

  lemma BlockAt(cues: seq<Cue>, k: nat)
    requires AllTimed(cues) && k < |cues|
    ensures |Blocks(cues)[k]| == 3
    ensures Blocks(cues)[k] == CueLines(cues[k])
  {
  }

  /** Every write of a file holding `cues`, in order. */
  function Render(cues: seq<Cue>): seq<string>
    requires AllTimed(cues)
  {
    Flat(Blocks(cues))
  }

  /** A file holds three writes per cue, and cue `k` is exactly writes `3k`,
      `3k+1` and `3k+2`. */
  lemma RenderAt(cues: seq<Cue>, k: nat)
    requires AllTimed(cues) && k < |cues|
    ensures |Render(cues)| == 3 * |cues|
    ensures Render(cues)[3 * k..3 * k + 3] == CueLines(cues[k])
  {
    FlatAt(Blocks(cues), k);
    BlockAt(cues, k);
  }

  /** `words[i:i+10]` for `i = 0, 10, 20, ...`: ten words per subtitle
      (`words_per_subtitle`). */
  function Chunks(words: seq<string>): (cs: seq<seq<string>>)
    ensures |words| <= 10 * |cs| < |words| + 10
    decreases |words|
  {
    if words == [] then []
    else if |words| <= 10 then [words]
    else [words[..10]] + Chunks(words[10..])
  }

  /** Chunk `k` is the slice starting at word `10k`: ten words, except the
      last chunk, which holds the one to ten words left. */
  lemma {:induction false} ChunkAt(words: seq<string>, k: nat)
    requires k < |Chunks(words)|
    ensures 10 * k < |words|
    ensures Chunks(words)[k] == words[10 * k..Min(10 * k + 10, |words|)]
    ensures 1 <= |Chunks(words)[k]| <= 10
    ensures k + 1 < |Chunks(words)| ==> |Chunks(words)[k]| == 10
    decreases k
  {
    if k > 0 {
      var rest := words[10..];
      ChunkAt(rest, k - 1);
      assert rest[10 * (k - 1)..Min(10 * (k - 1) + 10, |rest|)]
          == words[10 * k..Min(10 * k + 10, |words|)];
    }
  }

  /** Chunking loses no word, repeats none and keeps their order. */
  lemma {:induction false} ChunksConcat(words: seq<string>)
    ensures Concat(Chunks(words)) == words
    decreases |words|
  {
    if |words| > 10 {
      ChunksConcat(words[10..]);
      assert words == words[..10] + words[10..];
    }
  }

  /** The cues of a record with a `segments` key: segment `i` becomes cue
      `i + 1` with the segment's times and its stripped text. */
  function SegmentCues(segs: seq<Segment>): (cues: seq<Cue>)
    requires SegmentsTimed(segs)
    ensures AllTimed(cues)
  {
    seq(|segs|, i requires 0 <= i < |segs| =>
          Cue(i + 1, segs[i].start, segs[i].end, Strip(segs[i].text)))
  }

  /** The cues of a record without one: chunk `k` of the words becomes cue
      `k + 1`, shown from second `3k` to second `3k + 3`
      (`duration_per_subtitle` is 3). */
  function WordCues(words: seq<string>): (cues: seq<Cue>)
    ensures |cues| == |Chunks(words)|
    ensures AllTimed(cues)
  {
    var cs := Chunks(words);
    seq(|cs|, k requires 0 <= k < |cs| =>
          Cue(k + 1, (3 * k) as real, (3 * k + 3) as real, Join(cs[k])))
  }

  /** The cues `export_to_srt` writes for `data`, numbered from 1 without gaps. */
  function Cues(data: Transcript): (cues: seq<Cue>)
    requires Exportable(data)
    ensures AllTimed(cues)
    ensures forall i :: 0 <= i < |cues| ==> cues[i].index == i + 1
  {
    match data.segments
    case Some(segs) => SegmentCues(segs)
    case None => WordCues(Split(data.text))
  }

  /** The file `export_to_srt` writes. */
  function SrtWrites(data: Transcript): seq<string>
    requires Exportable(data)
  {
    Render(Cues(data))
  }

  /** `export_to_srt`: the segment loop for a record with a `segments`
      key, the word loop otherwise. */
  method ExportToSrt(data: Transcript) returns (writes: seq<string>)
    requires Exportable(data)
    ensures writes == SrtWrites(data)
  {
    if data.segments.Some? {
      writes := WriteSegmentCues(data.segments.value);
    } else {
      var words := Split(data.text);
      writes := WriteWordCues(words);
    }
  }

  /** The loop over `enumerate(transcription_data['segments'], 1)`. */
  method WriteSegmentCues(segs: seq<Segment>) returns (writes: seq<string>)
    requires SegmentsTimed(segs)
    ensures writes == Render(SegmentCues(segs))
  {
    writes := [];
    ghost var cues := SegmentCues(segs);
    ghost var blocks := Blocks(cues);
    var i := 0;
    while i < |segs|
      invariant 0 <= i <= |segs|
      invariant writes == Flat(blocks[..i])
    {
      var startTime := SecondsToSrtTime(segs[i].start);
      var endTime := SecondsToSrtTime(segs[i].end);
      var text := Strip(segs[i].text);
      ghost var before := writes;
      writes := writes + [Decimal(i + 1) + "\n"];
      writes := writes + [startTime + " --> " + endTime + "\n"];
      writes := writes + [text + "\n\n"];
      AppendThree(before, Decimal(i + 1) + "\n", startTime + " --> " + endTime + "\n", text + "\n\n");
      SegmentCueLines(segs, i);
      BlockAt(cues, i);
      FlatStep(blocks, i);
      i := i + 1;
    }
    assert blocks[..i] == blocks;
  }

  /** The loop over `range(0, len(words), 10)` for a record without
      segments, `words` being its text split at white space. */
  method WriteWordCues(words: seq<string>) returns (writes: seq<string>)
    ensures writes == Render(WordCues(words))
  {
    writes := [];
    ghost var blocks := Blocks(WordCues(words));
    var i := 0;
    ghost var k := 0;
    while i < |words|
      invariant i == 10 * k && 0 <= k <= |blocks|
      invariant writes == Flat(blocks[..k])
      decreases |words| - i
    {
      assert i / 10 == k;
      writes := WriteWordCue(words, i, writes);
      FlatStep(blocks, k);
      i := i + 10;
      k := k + 1;
    }
    assert blocks[..k] == blocks;
  }

  /** One turn of the word loop: the writes of the cue whose first word is
      word `i`. */
  method WriteWordCue(words: seq<string>, i: nat, before: seq<string>) returns (writes: seq<string>)
    requires i % 10 == 0 && i < |words|
    ensures i / 10 < |WordCues(words)|
    ensures writes == before + Blocks(WordCues(words))[i / 10]
  {
    var chunk := Join(words[i..Min(i + 10, |words|)]);
    var startSeconds := i / 10 * 3;
    var endSeconds := startSeconds + 3;
    var startTime := SecondsToSrtTime(startSeconds as real);
    var endTime := SecondsToSrtTime(endSeconds as real);
    writes := before + [Decimal(i / 10 + 1) + "\n"];
    writes := writes + [startTime + " --> " + endTime + "\n"];
    writes := writes + [chunk + "\n\n"];
    WordCueLines(words, i, startSeconds, endSeconds);
    AppendThree(before, Decimal(i / 10 + 1) + "\n", startTime + " --> " + endTime + "\n", chunk + "\n\n");
    BlockAt(WordCues(words), i / 10);
  }

  /** The three writes of segment cue `i`. */
  lemma SegmentCueLines(segs: seq<Segment>, i: nat)
    requires SegmentsTimed(segs) && i < |segs|
    ensures |SegmentCues(segs)| == |segs|
    ensures CueLines(SegmentCues(segs)[i])
            == [Decimal(i + 1) + "\n",
                SecondsToSrtTime(segs[i].start) + " --> " + SecondsToSrtTime(segs[i].end) + "\n",
                Strip(segs[i].text) + "\n\n"]
  {
    assert SegmentCues(segs)[i] == Cue(i + 1, segs[i].start, segs[i].end, Strip(segs[i].text));
  }

  /** Word cue `k` starts at word `i = 10k` and at second `3k`. */
  lemma WordCueAt(words: seq<string>, i: nat, k: nat, start: int, end: int)
    requires i == 10 * k && i < |words|
    requires start == k * 3 && end == start + 3
    ensures k < |WordCues(words)|
    ensures WordCues(words)[k]
            == Cue(k + 1, start as real, end as real, Join(words[i..Min(i + 10, |words|)]))
  {
    ChunkAt(words, k);
  }

  /** The three writes of word cue `i / 10`, in the terms the loop computes
      them. */
  lemma WordCueLines(words: seq<string>, i: nat, start: int, end: int)
    requires i % 10 == 0 && i < |words|
    requires start == i / 10 * 3 && end == start + 3
    ensures i / 10 < |WordCues(words)|
    ensures CueLines(WordCues(words)[i / 10])
            == [Decimal(i / 10 + 1) + "\n",
                SecondsToSrtTime(start as real) + " --> " + SecondsToSrtTime(end as real) + "\n",
                Join(words[i..Min(i + 10, |words|)]) + "\n\n"]
  {
    WordCueAt(words, i, i / 10, start, end);
  }

  /** A record with a `segments` key gets one cue per segment, whatever its
      text says; an empty segment list gives an empty file. */
  lemma SegmentCuesMeaning(data: Transcript, segs: seq<Segment>)
    requires Exportable(data) && data.segments == Some(segs)
    ensures |Cues(data)| == |segs|
    ensures forall i :: 0 <= i < |segs| ==>
              Cues(data)[i].start == segs[i].start && Cues(data)[i].end == segs[i].end
              && Cues(data)[i].text == Strip(segs[i].text)
    ensures segs == [] ==> SrtWrites(data) == []
  {
  }

  /** A record without a `segments` key: ceil(n / 10) cues for `n` words;
      cue `k` spans seconds `3k` to `3k + 3`, and splitting its text gives
      back words `10k` up to `10k + 10`, so the cues hold every word, in
      order, each once. */
  lemma {:induction false} WordCuesMeaning(data: Transcript, k: nat)
    requires data.segments.None?
    requires k < |Cues(data)|
    ensures var words := Split(data.text);
            && |Cues(data)| == (|words| + 9) / 10
            && Cues(data)[k].start == (3 * k) as real
            && Cues(data)[k].end == (3 * k + 3) as real
            && Split(Cues(data)[k].text) == words[10 * k..Min(10 * k + 10, |words|)]
  {
    var words := Split(data.text);
    ChunkAt(words, k);
    var chunk := Chunks(words)[k];
    SplitGivesWords(data.text);
    assert forall i :: 0 <= i < |chunk| ==> IsWord(chunk[i]) by {
      forall i | 0 <= i < |chunk|
        ensures IsWord(chunk[i])
      {
        assert chunk[i] == words[10 * k + i];
      }
    }
    SplitJoin(chunk);
  }

  /** The combined record built when speakers were found always has a
      `segments` key; when Whisper's result had none, the subtitle file is
      empty although the text is not. */
  lemma SpeakersWithoutSegments(t: Transcribed, speakers: seq<SpeakerTurn>)
    requires speakers != [] && t.data.segments.None?
    ensures Exportable(WithSpeakers(t, Some(speakers)).data)
    ensures SrtWrites(WithSpeakers(t, Some(speakers)).data) == []
  {
  }
}

/**
 * `quantumEntanglementMapping(text, quantumScale)` of
 * docs/QgamingX/assets/js/quantumMarkdown.js. The text is split at single
 * spaces; each word is appended with a trailing space to the current
 * sentence, which is moved (with a line break) into the current paragraph
 * once it splits into a multiple of five pieces at spaces; the paragraph
 * is pushed as an entry once it splits into a multiple of four pieces at
 * line breaks, or at the last word; each push raises the scale by
 * `quantumScale`, and the loop stops as soon as the scale reaches 0.6.
 */
module QuantumMarkdown {

  /** `{ quantumState, paragraph }` */
  datatype Entry = Entry(quantumState: real, paragraph: string)

  /** The number of occurrences of c in s. */
  function Count(s: string, c: char): nat
  {
    CountTo(s, c, |s|)
  }

  /** The number of occurrences of c among the first n characters of s. */
  function CountTo(s: string, c: char, n: nat): nat
    requires n <= |s|
  {
    if n == 0 then 0 else CountTo(s, c, n - 1) + if s[n - 1] == c then 1 else 0
  }

  /** The count up to n depends only on the first n characters. */
  lemma {:induction false} CountToPrefix(s: string, t: string, c: char, n: nat)
    requires n <= |s| && n <= |t| && s[..n] == t[..n]
    ensures CountTo(s, c, n) == CountTo(t, c, n)
  {
    if n > 0 {
      assert s[..n - 1] == s[..n][..n - 1] && t[..n - 1] == t[..n][..n - 1];
      assert s[n - 1] == s[..n][n - 1] && t[n - 1] == t[..n][n - 1];
      CountToPrefix(s, t, c, n - 1);
    }
  }

  /** `text.split(c)` for a one-character separator: the pieces between separators. */
  function SplitOn(text: string, c: char): (r: seq<string>)
    ensures |r| >= 1
  {
    if |text| == 0 then [""]
    else
      var rest := SplitOn(text[..|text| - 1], c);
      var last := text[|text| - 1];
      if last == c then rest + [""]
      else rest[..|rest| - 1] + [rest[|rest| - 1] + [last]]
  }

  /** No piece holds the separator. */
  lemma {:induction false} SplitHasNoSeparator(text: string, c: char, k: nat)
    requires k < |SplitOn(text, c)|
    ensures c !in SplitOn(text, c)[k]
  {
    if |text| > 0 {
      var prefix := text[..|text| - 1];
      var rest := SplitOn(prefix, c);
      if k < |rest| {
        SplitHasNoSeparator(prefix, c, k);
      }
      SplitHasNoSeparator(prefix, c, |rest| - 1);
    }
  }

  /** There is one piece more than there are separators. */
  lemma {:induction false} SplitCount(text: string, c: char)
    ensures |SplitOn(text, c)| == Count(text, c) + 1
  {
    if |text| > 0 {
      var prefix := text[..|text| - 1];
      SplitCount(prefix, c);
      assert prefix[..|prefix|] == text[..|prefix|];
      CountToPrefix(prefix, text, c, |prefix|);
    }
  }

  /** `s.split(c).length`, which `SplitCount` shows is one more than the number of separators. */
  function Pieces(s: string, c: char): nat
  {
    Count(s, c) + 1
  }

  /** The pieces joined back with the separator. */
  function JoinOn(pieces: seq<string>, c: char): string
  {
    if |pieces| == 0 then "" else if |pieces| == 1 then pieces[0]
    else JoinOn(pieces[..|pieces| - 1], c) + [c] + pieces[|pieces| - 1]
  }

  /** Splitting loses nothing: joining the pieces with the separator gives the text back. */
  lemma {:induction false} SplitJoins(text: string, c: char)
    ensures JoinOn(SplitOn(text, c), c) == text
  {
    if |text| > 0 {
      var prefix := text[..|text| - 1];
      var last := text[|text| - 1];
      SplitJoins(prefix, c);
      assert text == prefix + [last];
      if last == c {
        JoinAppendEmpty(SplitOn(prefix, c), c);
      } else {
        JoinExtend(SplitOn(prefix, c), c, last);
      }
    }
  }

  /** A new empty last piece adds one separator. */
  lemma JoinAppendEmpty(pieces: seq<string>, c: char)
    requires |pieces| >= 1
    ensures JoinOn(pieces + [""], c) == JoinOn(pieces, c) + [c]
  {
    var r := pieces + [""];
    assert r[..|r| - 1] == pieces;
  }

  /** A character added to the last piece ends the joined text. */
  lemma JoinExtend(pieces: seq<string>, c: char, d: char)
    requires |pieces| >= 1
    ensures JoinOn(pieces[..|pieces| - 1] + [pieces[|pieces| - 1] + [d]], c) == JoinOn(pieces, c) + [d]
  {
    var init := pieces[..|pieces| - 1];
    var tail := pieces[|pieces| - 1];
    var r := init + [tail + [d]];
    assert r[..|r| - 1] == init;
    if |pieces| > 1 {
      assert JoinOn(r, c) == JoinOn(init, c) + [c] + (tail + [d]);
    }
  }

  // ---------------------------------------------------------------------------
  // The loop as a function

  /** The loop variables: `map`, `sentence`, `paragraph`, `currentScale`. */
  datatype Acc = Acc(entries: seq<Entry>, sentence: string, paragraph: string, scale: real)

  /** `n % k === 0` for a count n, by repeated subtraction (see `MultipleOfMod`). */
  predicate MultipleOf(n: nat, k: nat)
    requires k > 0
    decreases n
  {
    if n < k then n == 0 else MultipleOf(n - k, k)
  }

  lemma {:induction false} MultipleOfMod(n: nat, k: nat)
    requires k == 4 || k == 5
    ensures MultipleOf(n, k) <==> n % k == 0
    decreases n
  {
    if n >= k {
      MultipleOfMod(n - k, k);
    }
  }

  /** One iteration of the loop body for word `word`; `isLast` is `i === words.length - 1`. */
  function Step(acc: Acc, word: string, isLast: bool, quantumScale: real): Acc
  {
    var sentence := acc.sentence + word + " ";
    var flush := MultipleOf(Pieces(sentence, ' '), 5);
    var paragraph := if flush then acc.paragraph + sentence + "\n" else acc.paragraph;
    var sentence' := if flush then "" else sentence;
    if MultipleOf(Pieces(paragraph, '\n'), 4) || isLast then
      Acc(acc.entries + [Entry(acc.scale, paragraph)], sentence', "", acc.scale + quantumScale)
    else
      Acc(acc.entries, sentence', paragraph, acc.scale)
  }

  const Start: Acc := Acc([], "", "", 0.0)

  /**
   * The loop variables when the loop ends, having reached word i with
   * variables acc: it stops after the last word, or right after the
   * iteration that brings the scale to 0.6 or more (the `break`).
   */
  function Run(words: seq<string>, quantumScale: real, i: nat, acc: Acc): Acc
    requires i <= |words|
    decreases |words| - i
  {
    if i == |words| then acc
    else
      var next := Step(acc, words[i], i == |words| - 1, quantumScale);
      if next.scale >= 0.6 then next else Run(words, quantumScale, i + 1, next)
  }

  /** One iteration of the loop, then the rest of it. */
  lemma RunUnfolds(words: seq<string>, quantumScale: real, i: nat, acc: Acc)
    requires i < |words|
    ensures var next := Step(acc, words[i], i == |words| - 1, quantumScale);
      Run(words, quantumScale, i, acc) == if next.scale >= 0.6 then next else Run(words, quantumScale, i + 1, next)
  {
  }

  /** The result of `quantumEntanglementMapping(text, quantumScale)`. */
  function Mapping(text: string, quantumScale: real): (r: seq<Entry>)
    ensures forall j :: 0 <= j < |r| ==> r[j].quantumState < 0.6
  {
    var words := SplitOn(text, ' ');
    RunKeepsSchedule(words, quantumScale, 0, Start);
    Run(words, quantumScale, 0, Start).entries
  }

  /** The loop of `quantumEntanglementMapping`. */
  method QuantumEntanglementMapping(text: string, quantumScale: real) returns (entries: seq<Entry>)
    ensures entries == Mapping(text, quantumScale)
  {
    var words := SplitOn(text, ' ');
    ghost var result := Run(words, quantumScale, 0, Start);
    entries := [];
    var sentence, paragraph, currentScale := "", "", 0.0;
    var i := 0;
    while i < |words|
      invariant 0 <= i <= |words|
      invariant Run(words, quantumScale, i, Acc(entries, sentence, paragraph, currentScale)) == result
    {
      ghost var next := Step(Acc(entries, sentence, paragraph, currentScale), words[i], i == |words| - 1, quantumScale);
      RunUnfolds(words, quantumScale, i, Acc(entries, sentence, paragraph, currentScale));
      sentence := sentence + words[i] + " ";
      MultipleOfMod(Pieces(sentence, ' '), 5);
      if Pieces(sentence, ' ') % 5 == 0 {
        paragraph := paragraph + sentence + "\n";
        sentence := "";
      }
      MultipleOfMod(Pieces(paragraph, '\n'), 4);
      if Pieces(paragraph, '\n') % 4 == 0 || i == |words| - 1 {
        entries := entries + [Entry(currentScale, paragraph)];
        paragraph := "";
        currentScale := currentScale + quantumScale;
      }
      assert Acc(entries, sentence, paragraph, currentScale) == next;
      i := i + 1;
      if currentScale >= 0.6 {
        return;
      }
    }
  }

  // ---------------------------------------------------------------------------
  // The scale schedule

  /** The scale after k pushes: quantumScale added k times to 0. */
  function ScaleAt(k: nat, quantumScale: real): real
  {
    if k == 0 then 0.0 else ScaleAt(k - 1, quantumScale) + quantumScale
  }

  lemma {:induction false} ScaleAtIsMultiple(k: nat, quantumScale: real)
    ensures ScaleAt(k, quantumScale) == k as real * quantumScale
  {
    if k > 0 {
      ScaleAtIsMultiple(k - 1, quantumScale);
      assert (k - 1) as real * quantumScale + quantumScale == k as real * quantumScale;
    }
  }

  /**
   * Entry j carries the scale after j pushes and is below 0.6, and the
   * running scale is the scale after as many pushes as there are entries.
   */
  predicate Scheduled(acc: Acc, quantumScale: real)
  {
    acc.scale == ScaleAt(|acc.entries|, quantumScale) &&
    forall j :: 0 <= j < |acc.entries| ==>
      acc.entries[j].quantumState == ScaleAt(j, quantumScale) && acc.entries[j].quantumState < 0.6
  }

  /** An iteration that starts below 0.6 keeps the schedule. */
  lemma StepKeepsSchedule(acc: Acc, word: string, isLast: bool, quantumScale: real)
    requires Scheduled(acc, quantumScale) && acc.scale < 0.6
    ensures Scheduled(Step(acc, word, isLast, quantumScale), quantumScale)
  {
    var next := Step(acc, word, isLast, quantumScale);
    var k := |acc.entries|;
    if |next.entries| != k {
      assert next.entries == acc.entries + [Entry(acc.scale, next.entries[k].paragraph)];
      assert next.scale == acc.scale + quantumScale;
      assert ScaleAt(k + 1, quantumScale) == ScaleAt(k, quantumScale) + quantumScale;
      forall j | 0 <= j < k + 1
        ensures next.entries[j].quantumState == ScaleAt(j, quantumScale) && next.entries[j].quantumState < 0.6
      {
        if j < k {
          assert next.entries[j] == acc.entries[j];
        }
      }
    } else {
      assert next.entries == acc.entries && next.scale == acc.scale;
    }
  }

  lemma {:induction false} RunKeepsSchedule(words: seq<string>, quantumScale: real, i: nat, acc: Acc)
    requires i <= |words| && Scheduled(acc, quantumScale) && acc.scale < 0.6
    ensures Scheduled(Run(words, quantumScale, i, acc), quantumScale)
    decreases |words| - i
  {
    if i < |words| {
      var next := Step(acc, words[i], i == |words| - 1, quantumScale);
      StepKeepsSchedule(acc, words[i], i == |words| - 1, quantumScale);
      if next.scale < 0.6 {
        RunKeepsSchedule(words, quantumScale, i + 1, next);
      }
    }
  }

  /** Entry j of the mapping has quantum state j·quantumScale, below 0.6. */
  lemma MappingSchedule(text: string, quantumScale: real)
    ensures var entries := Mapping(text, quantumScale);
      forall j :: 0 <= j < |entries| ==> entries[j].quantumState == j as real * quantumScale < 0.6
  {
    var words := SplitOn(text, ' ');
    RunKeepsSchedule(words, quantumScale, 0, Start);
    var entries := Mapping(text, quantumScale);
    forall j | 0 <= j < |entries| ensures entries[j].quantumState == j as real * quantumScale {
      ScaleAtIsMultiple(j, quantumScale);
    }
  }

  // ---------------------------------------------------------------------------
  // The chunking

  /** Each word followed by a space: a sentence as the loop builds it. */
  function Line(ws: seq<string>): string
  {
    if |ws| == 0 then "" else Line(ws[..|ws| - 1]) + ws[|ws| - 1] + " "
  }

  /** Sentences s0 .. s1−1 (four words each), each followed by a line break. */
  function Para(words: seq<string>, s0: nat, s1: nat): string
    requires s0 <= s1 && 4 * s1 <= |words|
    decreases s1
  {
    if s1 == s0 then "" else Para(words, s0, s1 - 1) + Line(words[4 * (s1 - 1)..4 * s1]) + "\n"
  }

  /** Words with no space and no line break, as splitting at spaces a text without line breaks gives. */
  predicate Plain(words: seq<string>)
  {
    forall i :: 0 <= i < |words| ==> Count(words[i], ' ') == 0 && Count(words[i], '\n') == 0
  }

  lemma PlainSlice(words: seq<string>, lo: nat, hi: nat)
    requires lo <= hi <= |words| && Plain(words)
    ensures Plain(words[lo..hi])
  {
    var ws := words[lo..hi];
    forall k | 0 <= k < |ws| ensures Count(ws[k], ' ') == 0 && Count(ws[k], '\n') == 0 {
      assert ws[k] == words[lo + k];
    }
  }

  lemma {:induction false} CountConcat(a: string, b: string, c: char)
    ensures Count(a + b, c) == Count(a, c) + Count(b, c)
  {
    CountConcatTo(a, b, c, |b|);
  }

  lemma {:induction false} CountConcatTo(a: string, b: string, c: char, k: nat)
    requires k <= |b|
    ensures CountTo(a + b, c, |a| + k) == Count(a, c) + CountTo(b, c, k)
  {
    if k == 0 {
      assert (a + b)[..|a|] == a[..|a|];
      CountToPrefix(a + b, a, c, |a|);
    } else {
      CountConcatTo(a, b, c, k - 1);
      assert (a + b)[|a| + k - 1] == b[k - 1];
    }
  }

  /** A one-character string holds c once if it is c, else not at all. */
  lemma CountSingle(d: char, c: char)
    ensures Count([d], c) == if d == c then 1 else 0
  {
    assert CountTo([d], c, 0) == 0;
  }

  lemma CountAbsent(s: string, c: char)
    requires c !in s
    ensures Count(s, c) == 0
  {
    CountAbsentTo(s, c, |s|);
  }

  lemma {:induction false} CountAbsentTo(s: string, c: char, n: nat)
    requires n <= |s| && c !in s
    ensures CountTo(s, c, n) == 0
  {
    if n > 0 {
      CountAbsentTo(s, c, n - 1);
    }
  }

  /** A sentence of n words holds n spaces and no line break. */
  lemma {:induction false} LineCounts(ws: seq<string>)
    requires Plain(ws)
    ensures Count(Line(ws), ' ') == |ws| && Count(Line(ws), '\n') == 0
  {
    if |ws| > 0 {
      var prefix := ws[..|ws| - 1];
      var w := ws[|ws| - 1];
      PlainSlice(ws, 0, |ws| - 1);
      LineCounts(prefix);
      assert Count(w, ' ') == 0 && Count(w, '\n') == 0;
      var l := Line(prefix);
      assert Line(ws) == l + w + " ";
      CountConcat(l, w, ' ');
      CountConcat(l + w, " ", ' ');
      CountConcat(l, w, '\n');
      CountConcat(l + w, " ", '\n');
      CountSingle(' ', ' ');
      CountSingle(' ', '\n');
    }
  }

  /** A paragraph of sentences s0 .. s1−1 holds s1 − s0 line breaks. */
  lemma {:induction false} ParaLines(words: seq<string>, s0: nat, s1: nat)
    requires s0 <= s1 && 4 * s1 <= |words| && Plain(words)
    ensures Count(Para(words, s0, s1), '\n') == s1 - s0
    decreases s1
  {
    if s1 > s0 {
      ParaLines(words, s0, s1 - 1);
      ParaGrows(words, s0, s1);
    } else {
      assert Para(words, s0, s1) == "";
    }
  }

  /** The last sentence of a paragraph adds one line break. */
  lemma ParaGrows(words: seq<string>, s0: nat, s1: nat)
    requires s0 < s1 && 4 * s1 <= |words| && Plain(words)
    ensures Count(Para(words, s0, s1), '\n') == Count(Para(words, s0, s1 - 1), '\n') + 1
  {
    var sentence := words[4 * (s1 - 1)..4 * s1];
    PlainSlice(words, 4 * (s1 - 1), 4 * s1);
    LineCounts(sentence);
    var p := Para(words, s0, s1 - 1);
    var l := Line(sentence);
    assert Para(words, s0, s1) == p + l + "\n";
    CountConcat(p, l, '\n');
    CountConcat(p + l, "\n", '\n');
    CountSingle('\n', '\n');
  }

  /** The sentence chunk j ends before: 3j + 3, or the number of complete sentences if fewer. */
  function ChunkEnd(j: nat, sentences: nat): (r: nat)
    ensures r <= 3 * j + 3 && r <= sentences && (r == 3 * j + 3 || r == sentences)
  {
    if 3 * j + 3 <= sentences then 3 * j + 3 else sentences
  }

  /** Chunk j: sentences 3j .. 3j+2, cut off at the last complete sentence. */
  predicate IsChunk(words: seq<string>, j: nat, paragraph: string)
  {
    3 * j <= ChunkEnd(j, |words| / 4) &&
    paragraph == Para(words, 3 * j, ChunkEnd(j, |words| / 4))
  }

  /** Entry j holds chunk j. */
  predicate Chunked(words: seq<string>, entries: seq<Entry>)
  {
    forall j :: 0 <= j < |entries| ==> IsChunk(words, j, entries[j].paragraph)
  }

  /**
   * The shape of the loop variables after i iterations that did not stop:
   * the sentence holds the words since the last multiple of four, the
   * paragraph the sentences since the last multiple of three, and there
   * is one entry per twelve words, plus one for the rest at the end.
   */
  predicate Shape(words: seq<string>, i: nat, acc: Acc)
    requires i <= |words|
  {
    acc.sentence == Line(words[4 * (i / 4)..i]) &&
    (i < |words| ==> acc.paragraph == Para(words, 3 * (i / 12), i / 4)) &&
    |acc.entries| == (if i < |words| then i / 12 else (|words| + 11) / 12) &&
    Chunked(words, acc.entries)
  }

  lemma DivFacts(i: nat)
    ensures 3 * (i / 12) <= i / 4 <= 3 * (i / 12) + 2
    ensures 0 <= i % 4 <= 3 && i == 4 * (i / 4) + i % 4
    ensures (i + 1) / 4 == if i % 4 == 3 then i / 4 + 1 else i / 4
    ensures (i + 1) / 12 == if i + 1 == 12 * (i / 12) + 12 then i / 12 + 1 else i / 12
    ensures (i + 1) / 4 == 3 * (i / 12) + 3 <==> i + 1 == 12 * (i / 12) + 12
    ensures (i + 12) / 12 == i / 12 + 1
  {
  }

  /** Appending word i: the sentence grows by it, and splits into one more piece at spaces than it has words. */
  lemma SentenceStep(words: seq<string>, i: nat)
    requires i < |words| && Plain(words)
    ensures var s := Line(words[4 * (i / 4)..i]) + words[i] + " ";
      s == Line(words[4 * (i / 4)..i + 1]) && Pieces(s, ' ') == i % 4 + 2
  {
    DivFacts(i);
    var ws := words[4 * (i / 4)..i + 1];
    assert ws[..|ws| - 1] == words[4 * (i / 4)..i];
    assert ws[|ws| - 1] == words[i];
    assert Line(ws) == Line(words[4 * (i / 4)..i]) + words[i] + " ";
    PlainSlice(words, 4 * (i / 4), i + 1);
    LineCounts(ws);
  }

  /** A paragraph of sentences 3a .. s−1 splits into s − 3a + 1 pieces at line breaks. */
  lemma ParagraphPieces(words: seq<string>, a: nat, s: nat)
    requires 3 * a <= s && 4 * s <= |words| && Plain(words)
    ensures Pieces(Para(words, 3 * a, s), '\n') == s - 3 * a + 1
  {
    ParaLines(words, 3 * a, s);
  }

  /** The sentence and paragraph after iteration i, before the push test. */
  lemma Flush(words: seq<string>, i: nat, sentence: string, paragraph: string)
    requires i < |words| && Plain(words)
    requires sentence == Line(words[4 * (i / 4)..i])
    requires 3 * (i / 12) <= i / 4 && paragraph == Para(words, 3 * (i / 12), i / 4)
    ensures MultipleOf(Pieces(sentence + words[i] + " ", ' '), 5) <==> i % 4 == 3
    ensures 3 * (i / 12) <= (i + 1) / 4 && 4 * ((i + 1) / 4) <= |words|
    ensures i % 4 == 3 ==>
      paragraph + (sentence + words[i] + " ") + "\n" == Para(words, 3 * (i / 12), (i + 1) / 4) &&
      words[4 * ((i + 1) / 4)..i + 1] == []
    ensures i % 4 != 3 ==>
      paragraph == Para(words, 3 * (i / 12), (i + 1) / 4) &&
      sentence + words[i] + " " == Line(words[4 * ((i + 1) / 4)..i + 1])
  {
    DivFacts(i);
    SentenceStep(words, i);
    MultipleOfMod(Pieces(sentence + words[i] + " ", ' '), 5);
    if i % 4 == 3 {
      var a, s := i / 12, i / 4;
      assert words[4 * s..4 * (s + 1)] == words[4 * (i / 4)..i + 1];
      assert Para(words, 3 * a, s + 1) == Para(words, 3 * a, s) + Line(words[4 * s..4 * (s + 1)]) + "\n";
    }
  }

  /**
   * Iteration i on variables in shape: the sentence becomes the words
   * since the last multiple of four, and the paragraph, now sentences
   * 3a .. s'−1, is pushed exactly when it has three sentences or the word
   * is the last.
   */
  lemma StepParts(words: seq<string>, q: real, i: nat, acc: Acc)
    requires i < |words| && Plain(words)
    requires acc.sentence == Line(words[4 * (i / 4)..i])
    requires 3 * (i / 12) <= i / 4 && acc.paragraph == Para(words, 3 * (i / 12), i / 4)
    ensures 3 * (i / 12) <= (i + 1) / 4 && 4 * ((i + 1) / 4) <= |words|
    ensures var next := Step(acc, words[i], i == |words| - 1, q);
      var p := Para(words, 3 * (i / 12), (i + 1) / 4);
      next.sentence == Line(words[4 * ((i + 1) / 4)..i + 1]) &&
      if i + 1 == 12 * (i / 12) + 12 || i == |words| - 1 then
        next.entries == acc.entries + [Entry(acc.scale, p)] && next.paragraph == "" && next.scale == acc.scale + q
      else
        next.entries == acc.entries && next.paragraph == p && next.scale == acc.scale
  {
    DivFacts(i);
    Flush(words, i, acc.sentence, acc.paragraph);
    ParagraphPieces(words, i / 12, (i + 1) / 4);
    MultipleOfMod(Pieces(Para(words, 3 * (i / 12), (i + 1) / 4), '\n'), 4);
  }

  /** Appending the next chunk keeps the entries chunked. */
  lemma ChunkedAppend(words: seq<string>, entries: seq<Entry>, x: real, p: string)
    requires Chunked(words, entries) && IsChunk(words, |entries|, p)
    ensures Chunked(words, entries + [Entry(x, p)])
  {
    var es := entries + [Entry(x, p)];
    forall j | 0 <= j < |es| ensures IsChunk(words, j, es[j].paragraph) {
      if j < |entries| {
        assert es[j] == entries[j];
      }
    }
  }

  /** One iteration keeps the shape. */
  lemma StepKeepsShape(words: seq<string>, q: real, i: nat, acc: Acc)
    requires i < |words| && Plain(words) && Shape(words, i, acc)
    ensures Shape(words, i + 1, Step(acc, words[i], i == |words| - 1, q))
  {
    var n := |words|;
    DivFacts(i);
    StepParts(words, q, i, acc);
    var a, s' := i / 12, (i + 1) / 4;
    var next := Step(acc, words[i], i == n - 1, q);
    if i + 1 == 12 * a + 12 || i == n - 1 {
      assert s' == ChunkEnd(a, n / 4);
      assert IsChunk(words, a, Para(words, 3 * a, s'));
      ChunkedAppend(words, acc.entries, acc.scale, Para(words, 3 * a, s'));
      if i + 1 < n {
        assert Para(words, 3 * a + 3, 3 * a + 3) == "";
      }
    }
  }

  /** What the entries are wherever the loop stops: chunks, at most one per twelve words rounded up. */
  predicate Ended(words: seq<string>, entries: seq<Entry>)
  {
    Chunked(words, entries) && |entries| <= (|words| + 11) / 12
  }

  lemma ShapeEnded(words: seq<string>, i: nat, acc: Acc)
    requires i <= |words| && Shape(words, i, acc)
    ensures Ended(words, acc.entries)
  {
    assert i / 12 <= (|words| + 11) / 12;
  }

  /** Iteration i from variables in shape: its result is in shape, and the loop stops there or goes on from it. */
  lemma StepShaped(words: seq<string>, q: real, i: nat, acc: Acc) returns (next: Acc)
    requires i < |words| && Plain(words) && Shape(words, i, acc)
    ensures Shape(words, i + 1, next)
    ensures next.scale == acc.scale || next.scale == acc.scale + q
    ensures Run(words, q, i, acc) == if next.scale >= 0.6 then next else Run(words, q, i + 1, next)
  {
    next := Step(acc, words[i], i == |words| - 1, q);
    StepKeepsShape(words, q, i, acc);
    RunUnfolds(words, q, i, acc);
  }

  /** From variables in shape, the loop ends with entries as `Ended` says. */
  lemma {:induction false} RunChunks(words: seq<string>, q: real, i: nat, acc: Acc)
    requires i <= |words| && Plain(words) && Shape(words, i, acc)
    ensures Ended(words, Run(words, q, i, acc).entries)
    decreases |words| - i
  {
    if i == |words| {
      ShapeEnded(words, i, acc);
    } else {
      var next := StepShaped(words, q, i, acc);
      if next.scale < 0.6 {
        RunChunks(words, q, i + 1, next);
      } else {
        ShapeEnded(words, i + 1, next);
      }
    }
  }

  /** When the scale cannot grow the loop never breaks, and there is one entry per twelve words rounded up. */
  lemma {:induction false} RunCount(words: seq<string>, q: real, i: nat, acc: Acc)
    requires i <= |words| && Plain(words) && Shape(words, i, acc) && q <= 0.0 && acc.scale < 0.6
    ensures |Run(words, q, i, acc).entries| == (|words| + 11) / 12
    decreases |words| - i
  {
    if i < |words| {
      var next := StepShaped(words, q, i, acc);
      RunCount(words, q, i + 1, next);
    }
  }

  /** A piece of a text has no character the text lacks. */
  lemma {:induction false} SplitKeepsOut(text: string, d: char, c: char, k: nat)
    requires d !in text && k < |SplitOn(text, c)|
    ensures d !in SplitOn(text, c)[k]
  {
    if |text| > 0 {
      var prefix := text[..|text| - 1];
      var rest := SplitOn(prefix, c);
      if k < |rest| {
        SplitKeepsOut(prefix, d, c, k);
      }
      SplitKeepsOut(prefix, d, c, |rest| - 1);
    }
  }

  /**
   * For a text without line breaks, entry j of the mapping is sentences
   * 3j .. 3j+2 of four words each, each word followed by a space and each
   * sentence by a line break, cut off at the last complete sentence; so
   * the words of an unfinished last sentence are in no entry. There are
   * at most ⌈n/12⌉ entries for n words, exactly that many when
   * quantumScale is not positive.
   */
  lemma MappingChunks(text: string, quantumScale: real)
    requires '\n' !in text
    ensures var words := SplitOn(text, ' ');
      var entries := Mapping(text, quantumScale);
      Chunked(words, entries) && |entries| <= (|words| + 11) / 12 &&
      (quantumScale <= 0.0 ==> |entries| == (|words| + 11) / 12)
  {
    var words := SplitOn(text, ' ');
    assert Plain(words) by {
      forall k | 0 <= k < |words| ensures Count(words[k], ' ') == 0 && Count(words[k], '\n') == 0 {
        SplitHasNoSeparator(text, ' ', k);
        SplitKeepsOut(text, '\n', ' ', k);
        CountAbsent(words[k], ' ');
        CountAbsent(words[k], '\n');
      }
    }
    assert words[0..0] == [];
    RunChunks(words, quantumScale, 0, Start);
    if quantumScale <= 0.0 {
      RunCount(words, quantumScale, 0, Start);
    }
  }
}

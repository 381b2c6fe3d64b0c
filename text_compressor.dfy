// `TextCompressor`: from Whisper segments to a shorter transcript. Segment
// texts are stripped, normalised and de-duplicated; long transcripts are cut
// down by Maximal Marginal Relevance selection, whose scores (sentence
// embeddings and cosine similarity) are abstract here: only the bookkeeping of
// selected and remaining indices is modelled.

module TextCompressor {
  import opened Common

  /** One Whisper segment: its `text` entry, when the dict has one. */
  datatype Segment = Segment(text: Option<string>)

  /** What transcription yields: the segment list, or the demo string the
      transcriber falls back to when Whisper fails. */
  datatype Transcription = Segments(segments: seq<Segment>) | PlainText(text: string)

  const DemoTranscript: string := "This is a demo transcript. The actual audio transcription would appear here."

  /** `segment.get("text", "")` */
  function TextOf(seg: Segment): string
  {
    if seg.text.Some? then seg.text.value else ""
  }

  /** The stripped texts of the segments whose text is not blank, in order. */
  function SegmentTexts(segs: seq<Segment>): (r: seq<string>)
    ensures |r| <= |segs|
    ensures forall i :: 0 <= i < |r| ==> r[i] != []
    decreases |segs|
  {
    if segs == [] then []
    else
      var p := SegmentTexts(segs[..|segs| - 1]);
      var t := Strip(TextOf(segs[|segs| - 1]));
      if t != [] then p + [t] else p
  }

  lemma SegmentTextsStep(segs: seq<Segment>, i: nat, text: string)
    requires i < |segs| && text == Strip(TextOf(segs[i]))
    ensures text != [] ==> SegmentTexts(segs[..i + 1]) == SegmentTexts(segs[..i]) + [text]
    ensures text == [] ==> SegmentTexts(segs[..i + 1]) == SegmentTexts(segs[..i])
  {
    assert segs[..i + 1][..i] == segs[..i];
  }

  /** The loop at the head of `compress_segments`. */
  method CollectSegmentTexts(segs: seq<Segment>) returns (segmentTexts: seq<string>)
    ensures segmentTexts == SegmentTexts(segs)
  {
    segmentTexts := [];
    var i := 0;
    while i < |segs|
      invariant 0 <= i <= |segs|
      invariant segmentTexts == SegmentTexts(segs[..i])
    {
      var text := Strip(TextOf(segs[i]));
      SegmentTextsStep(segs, i, text);
      if text != "" {
        segmentTexts := segmentTexts + [text];
      }
      i := i + 1;
    }
    assert segs[..|segs|] == segs;
  }

  /** No segment text survives exactly when every segment's text is blank. */
  lemma {:induction false} SegmentTextsEmptyIff(segs: seq<Segment>)
    ensures SegmentTexts(segs) == [] <==> forall i :: 0 <= i < |segs| ==> AllSpace(TextOf(segs[i]))
    decreases |segs|
  {
    if segs != [] {
      var init := segs[..|segs| - 1];
      SegmentTextsEmptyIff(init);
      StripEmptyIffAllSpace(TextOf(segs[|segs| - 1]));
      assert forall i :: 0 <= i < |init| ==> init[i] == segs[i];
    }
  }

  // ---------------------------------------------------------------------------
  // `_normalize_text`

  predicate IsPunct(c: char)
  {
    c == '.' || c == '!' || c == '?'
  }

  /** Drops the leading run of sentence punctuation. */
  function DropPunct(s: string): (r: string)
    ensures |r| <= |s| && r == s[|s| - |r|..]
    ensures forall i :: 0 <= i < |s| - |r| ==> IsPunct(s[i])
    ensures r != [] ==> !IsPunct(r[0])
  {
    if s != [] && IsPunct(s[0]) then DropPunct(s[1..]) else s
  }

  /** What `re.sub(r'\s+', ' ', s)` promises of its result `r`: empty exactly
      for empty input, the ends map to the input's ends, every white space
      left is a single blank, and no new character appears. */
  predicate SpaceCollapsed(s: string, r: string)
  {
    (r == []) == (s == [])
    && (r != [] ==> r[0] == (if IsSpace(s[0]) then ' ' else s[0]))
    && (r != [] ==> r[|r| - 1] == (if IsSpace(s[|s| - 1]) then ' ' else s[|s| - 1]))
    && (forall i :: 0 <= i < |r| ==> IsSpace(r[i]) ==> r[i] == ' ')
    && (forall i :: 0 <= i < |r| - 1 ==> !(r[i] == ' ' && r[i + 1] == ' '))
    && (forall c :: c in r ==> c == ' ' || c in s)
  }

  /** One step of the substitution: the first character of `s` (a blank for
      a run of white space) before the collapsed rest `t` of the text. */
  lemma SpaceCollapsedCons(s: string, t: string, rt: string)
    requires s != [] && |t| < |s| && t == s[|s| - |t|..]
    requires IsSpace(s[0]) ==> (t == [] ==> IsSpace(s[|s| - 1])) && (t != [] ==> !IsSpace(t[0]))
    requires !IsSpace(s[0]) ==> t == s[1..]
    requires SpaceCollapsed(t, rt)
    ensures SpaceCollapsed(s, [if IsSpace(s[0]) then ' ' else s[0]] + rt)
  {
    SuffixKeeps(s, t);
    var r := [if IsSpace(s[0]) then ' ' else s[0]] + rt;
    forall i | 0 <= i < |r| - 1 ensures !(r[i] == ' ' && r[i + 1] == ' ') {
      if i > 0 {
        assert r[i] == rt[i - 1] && r[i + 1] == rt[i];
      }
    }
  }

  /** `re.sub(r'\s+', ' ', s)`: every maximal run of white space becomes one
      blank. */
  function CollapseSpace(s: string): (r: string)
    ensures SpaceCollapsed(s, r)
    decreases |s|
  {
    if s == [] then []
    else
      var t := if IsSpace(s[0]) then StripLeft(s[1..]) else s[1..];
      assert IsSpace(s[0]) && t == [] ==> IsSpace(s[|s| - 1]) by {
        if IsSpace(s[0]) && t == [] && |s| > 1 {
          assert IsSpace(s[1..][|s| - 2]);
        }
      }
      SpaceCollapsedCons(s, t, CollapseSpace(t));
      [if IsSpace(s[0]) then ' ' else s[0]] + CollapseSpace(t)
  }

  /** `re.sub(r'[.!?]+', '.', s)`: every maximal run of `.`, `!`, `?` becomes
      one full stop. */
  function CollapsePunct(s: string): (r: string)
    ensures (r == []) == (s == [])
    ensures r != [] ==> r[0] == (if IsPunct(s[0]) then '.' else s[0])
    ensures r != [] ==> r[|r| - 1] == (if IsPunct(s[|s| - 1]) then '.' else s[|s| - 1])
    ensures forall i :: 0 <= i < |r| ==> r[i] != '!' && r[i] != '?'
    ensures forall c :: c in r ==> c == '.' || c in s
    decreases |s|
  {
    if s == [] then []
    else if IsPunct(s[0]) then
      var t := DropPunct(s[1..]);
      var rt := CollapsePunct(t);
      AfterPunctRun(s);
      PrependCollapsed(s, '.', t, rt);
      ['.'] + rt
    else
      var t := s[1..];
      var rt := CollapsePunct(t);
      SuffixKeeps(s, t);
      PrependCollapsed(s, s[0], t, rt);
      [s[0]] + rt
  }

  /** One step of `CollapsePunct`: the character `c` that stands for the
      head of `s`, put in front of the collapsed rest `rt` of its suffix `t`,
      has every property `CollapsePunct` promises for `s`. */
  lemma PrependCollapsed(s: string, c: char, t: string, rt: string)
    requires s != [] && c == (if IsPunct(s[0]) then '.' else s[0])
    requires (rt == []) == (t == [])
    requires rt != [] ==> rt[|rt| - 1] == (if IsPunct(t[|t| - 1]) then '.' else t[|t| - 1])
    requires t != [] ==> t[|t| - 1] == s[|s| - 1]
    requires t == [] ==> c == (if IsPunct(s[|s| - 1]) then '.' else s[|s| - 1])
    requires forall i :: 0 <= i < |rt| ==> rt[i] != '!' && rt[i] != '?'
    requires forall x :: x in rt ==> x == '.' || x in t
    requires forall x :: x in t ==> x in s
    ensures var r := [c] + rt;
            r[0] == c && r[|r| - 1] == (if IsPunct(s[|s| - 1]) then '.' else s[|s| - 1])
            && (forall i :: 0 <= i < |r| ==> r[i] != '!' && r[i] != '?')
            && forall x :: x in r ==> x == '.' || x in s
  {
    var r := [c] + rt;
    forall i | 0 <= i < |r| ensures r[i] != '!' && r[i] != '?' {
      if i > 0 {
        assert r[i] == rt[i - 1];
      }
    }
    forall x | x in r ensures x == '.' || x in s {
      if x != c {
        assert x in rt;
      } else {
        assert s[0] in s;
      }
    }
  }

  /** What follows a leading run of punctuation is a proper suffix: it ends
      where the text ends, holds none of its own characters, and is empty
      only when the text ends in punctuation. */
  lemma AfterPunctRun(s: string)
    requires s != [] && IsPunct(s[0])
    ensures var t := DropPunct(s[1..]);
            |t| < |s| && (t == [] ==> IsPunct(s[|s| - 1]))
            && (t != [] ==> t[|t| - 1] == s[|s| - 1])
            && forall c :: c in t ==> c in s
  {
    var t := DropPunct(s[1..]);
    if t == [] && |s| > 1 {
      assert IsPunct(s[1..][|s| - 2]);
    }
    SuffixKeeps(s, t);
  }

  /** A proper suffix ends where the text ends and holds none of its own
      characters. */
  lemma SuffixKeeps(s: string, t: string)
    requires |t| < |s| && t == s[|s| - |t|..]
    ensures t != [] ==> t[|t| - 1] == s[|s| - 1]
    ensures forall c :: c in t ==> c in s
  {
  }

  /** After collapsing, no two punctuation marks are adjacent. */
  lemma {:induction false} CollapsePunctSingleMarks(s: string)
    ensures forall i :: 0 <= i < |CollapsePunct(s)| - 1 ==> !(IsPunct(CollapsePunct(s)[i]) && IsPunct(CollapsePunct(s)[i + 1]))
    decreases |s|
  {
    if s != [] {
      var t := if IsPunct(s[0]) then DropPunct(s[1..]) else s[1..];
      CollapsePunctSingleMarks(t);
      var r := CollapsePunct(s);
      var rt := CollapsePunct(t);
      assert r == [r[0]] + rt;
      if IsPunct(s[0]) && rt != [] {
        assert !IsPunct(rt[0]);
      }
      forall i | 0 <= i < |r| - 1 ensures !(IsPunct(r[i]) && IsPunct(r[i + 1])) {
        if i > 0 {
          assert r[i] == rt[i - 1] && r[i + 1] == rt[i];
        }
      }
    }
  }

  /** No two blanks are adjacent. */
  predicate NoDoubleBlank(s: string)
  {
    forall i :: 0 <= i < |s| - 1 ==> !(s[i] == ' ' && s[i + 1] == ' ')
  }

  /** Collapsing punctuation never brings two blanks together. */
  lemma {:induction false} CollapsePunctKeepsSingleBlanks(s: string)
    requires NoDoubleBlank(s)
    ensures NoDoubleBlank(CollapsePunct(s))
    decreases |s|
  {
    if s != [] {
      if IsPunct(s[0]) {
        var t := DropPunct(s[1..]);
        assert t == s[|s| - |t|..];
        assert NoDoubleBlank(t) by {
          forall i | 0 <= i < |t| - 1 ensures !(t[i] == ' ' && t[i + 1] == ' ') {
            assert t[i] == s[|s| - |t| + i] && t[i + 1] == s[|s| - |t| + i + 1];
          }
        }
        CollapsePunctKeepsSingleBlanks(t);
      } else {
        var t := s[1..];
        assert NoDoubleBlank(t) by {
          forall i | 0 <= i < |t| - 1 ensures !(t[i] == ' ' && t[i + 1] == ' ') {
            assert t[i] == s[i + 1] && t[i + 1] == s[i + 2];
          }
        }
        CollapsePunctKeepsSingleBlanks(t);
      }
    }
  }

  /** `_normalize_text`: no white space at the ends, single blanks, no `!`
      or `?`, no doubled full stop, and a closing full stop unless empty. */
  function NormalizeText(text: string): (r: string)
    ensures Normalized(r)
  {
    CollapsedAfterSubstitutions(text);
    ClosingStop(CollapsePunct(CollapseSpace(Strip(text))));
    CloseSentence(CollapsePunct(CollapseSpace(Strip(text))))
  }

  /** A full stop appended to non-empty text that lacks one at its end. */
  function CloseSentence(t: string): string
  {
    if t != [] && t[|t| - 1] != '.' then t + "." else t
  }

  /** The shape `_normalize_text` gives: no white space at either end, only
      single blanks inside, no `!` or `?`, no two full stops in a row, and a
      closing full stop unless empty. */
  predicate Normalized(u: string)
  {
    (u != [] ==> !IsSpace(u[0]) && u[|u| - 1] == '.')
    && (forall i :: 0 <= i < |u| ==> (IsSpace(u[i]) ==> u[i] == ' ') && u[i] != '!' && u[i] != '?')
    && NoDoubleBlank(u)
    && (forall i :: 0 <= i < |u| - 1 ==> !(u[i] == '.' && u[i + 1] == '.'))
  }

  /** Adding the closing full stop to collapsed text gives normalised text. */
  lemma ClosingStop(t: string)
    requires Collapsed(t)
    ensures Normalized(CloseSentence(t))
  {
    PrintableIsNotSpace('.');
    if t != [] && t[|t| - 1] != '.' {
      var u := t + ".";
      assert !IsPunct(t[|t| - 1]);
      forall i | 0 <= i < |u| - 1 ensures !(u[i] == '.' && u[i + 1] == '.') && !(u[i] == ' ' && u[i + 1] == ' ') {
        if i < |t| - 1 {
          assert u[i] == t[i] && u[i + 1] == t[i + 1];
        }
      }
    }
  }

  /** What the two substitutions leave: `Normalized` but for the closing full
      stop, and with no two marks of punctuation in a row. */
  predicate Collapsed(s: string)
  {
    (s != [] ==> !IsSpace(s[0]) && !IsSpace(s[|s| - 1]))
    && (forall i :: 0 <= i < |s| ==> (IsSpace(s[i]) ==> s[i] == ' ') && s[i] != '!' && s[i] != '?')
    && NoDoubleBlank(s)
    && (forall i :: 0 <= i < |s| - 1 ==> !(IsPunct(s[i]) && IsPunct(s[i + 1])))
  }

  lemma CollapsedAfterSubstitutions(text: string)
    ensures Collapsed(CollapsePunct(CollapseSpace(Strip(text))))
  {
    var s1 := Strip(text);
    var s2 := CollapseSpace(s1);
    var s3 := CollapsePunct(s2);
    PrintableIsNotSpace('.');
    CollapsePunctKeepsSingleBlanks(s2);
    CollapsePunctSingleMarks(s2);
    forall i | 0 <= i < |s3| && IsSpace(s3[i]) ensures s3[i] == ' ' {
      assert s3[i] in s3;
      var j :| 0 <= j < |s2| && s2[j] == s3[i];
    }
  }

  lemma {:induction false} CollapseSpaceFixed(s: string)
    requires forall i :: 0 <= i < |s| ==> IsSpace(s[i]) ==> s[i] == ' '
    requires NoDoubleBlank(s)
    ensures CollapseSpace(s) == s
    decreases |s|
  {
    if s != [] {
      var t := s[1..];
      SingleBlanksTail(s);
      CollapseSpaceFixed(t);
      if IsSpace(s[0]) {
        if t != [] {
          assert s[1] == t[0];
          StripLeftOfNonSpace(t);
        }
        CollapseSpaceOfBlank(s);
      } else {
        CollapseSpaceOfOther(s);
      }
      HeadTail(s);
    }
  }

  lemma SingleBlanksTail(s: string)
    requires s != []
    requires forall i :: 0 <= i < |s| ==> IsSpace(s[i]) ==> s[i] == ' '
    requires NoDoubleBlank(s)
    ensures forall i :: 0 <= i < |s| - 1 ==> IsSpace(s[1..][i]) ==> s[1..][i] == ' '
    ensures NoDoubleBlank(s[1..])
  {
    var t := s[1..];
    assert forall i :: 0 <= i < |t| ==> t[i] == s[i + 1];
  }

  lemma CollapseSpaceOfBlank(s: string)
    requires s != [] && IsSpace(s[0])
    ensures CollapseSpace(s) == [' '] + CollapseSpace(StripLeft(s[1..]))
  {
  }

  lemma CollapseSpaceOfOther(s: string)
    requires s != [] && !IsSpace(s[0])
    ensures CollapseSpace(s) == [s[0]] + CollapseSpace(s[1..])
  {
  }

  /** A non-empty text is its first character followed by the rest. */
  lemma HeadAndTail(s: string)
    requires s != []
    ensures s == [s[0]] + s[1..]
  {
  }

  lemma {:induction false} CollapsePunctFixed(s: string)
    requires forall i :: 0 <= i < |s| ==> s[i] != '!' && s[i] != '?'
    requires forall i :: 0 <= i < |s| - 1 ==> !(s[i] == '.' && s[i + 1] == '.')
    ensures CollapsePunct(s) == s
    decreases |s|
  {
    if s != [] {
      var t := s[1..];
      assert forall i :: 0 <= i < |t| ==> t[i] == s[i + 1];
      CollapsePunctFixed(t);
      if IsPunct(s[0]) {
        assert DropPunct(t) == t by {
          if t != [] {
            assert !IsPunct(t[0]);
          }
        }
        assert CollapsePunct(s) == ['.'] + t;
      } else {
        assert CollapsePunct(s) == [s[0]] + t;
      }
      HeadAndTail(s);
    }
  }

  /** Normalised text is its own normal form. */
  lemma NormalizedIsFixed(u: string)
    requires Normalized(u)
    ensures NormalizeText(u) == u
  {
    PrintableIsNotSpace('.');
    StripOfStripped(u);
    CollapseSpaceFixed(u);
    CollapsePunctFixed(u);
    assert CloseSentence(u) == u;
  }

  /** Normalising twice is normalising once. */
  lemma NormalizeTextIdempotent(text: string)
    ensures NormalizeText(NormalizeText(text)) == NormalizeText(text)
  {
    NormalizedIsFixed(NormalizeText(text));
  }

  // ---------------------------------------------------------------------------
  // `_preprocess_texts`

  /** One step of the loop: `n` is kept when it is new and longer than 25
      characters once stripped. */
  function Keep(kept: seq<string>, n: string): (r: seq<string>)
    ensures r == kept || r == kept + [n]
    ensures n in r <==> n in kept || |Strip(n)| > 25
  {
    if n !in kept && |Strip(n)| > 25 then kept + [n] else kept
  }

  /** The texts `_preprocess_texts` keeps from the inputs seen so far, given
      the normaliser. */
  function PreprocessedBy(norm: string -> string, texts: seq<string>): (r: seq<string>)
    ensures |r| <= |texts|
    ensures forall k :: 0 <= k < |r| ==> |Strip(r[k])| > 25
    decreases |texts|
  {
    if texts == [] then []
    else Keep(PreprocessedBy(norm, texts[..|texts| - 1]), norm(texts[|texts| - 1]))
  }

  /** `_preprocess_texts`: distinct texts, no more than were given, each
      longer than 25 characters once stripped. */
  function Preprocessed(texts: seq<string>): (r: seq<string>)
    ensures Distinct(r) && |r| <= |texts|
    ensures forall k :: 0 <= k < |r| ==> |Strip(r[k])| > 25
  {
    PreprocessedDistinct(NormalizeText, texts);
    PreprocessedBy(NormalizeText, texts)
  }

  lemma PreprocessedStep(norm: string -> string, texts: seq<string>, i: nat)
    requires i < |texts|
    ensures PreprocessedBy(norm, texts[..i + 1]) == Keep(PreprocessedBy(norm, texts[..i]), norm(texts[i]))
  {
    assert texts[..i + 1][..i] == texts[..i];
  }

  /** No text is kept twice. */
  lemma {:induction false} PreprocessedDistinct(norm: string -> string, texts: seq<string>)
    ensures Distinct(PreprocessedBy(norm, texts))
    decreases |texts|
  {
    if texts != [] {
      PreprocessedDistinct(norm, texts[..|texts| - 1]);
    }
  }

  /** Every kept text is the normal form of some input and longer than 25
      characters once stripped. */
  lemma {:induction false} PreprocessedFrom(norm: string -> string, texts: seq<string>, k: nat)
    requires k < |PreprocessedBy(norm, texts)|
    ensures |Strip(PreprocessedBy(norm, texts)[k])| > 25
    ensures exists j :: 0 <= j < |texts| && PreprocessedBy(norm, texts)[k] == norm(texts[j])
    decreases |texts|
  {
    var r := PreprocessedBy(norm, texts);
    var init := texts[..|texts| - 1];
    var p := PreprocessedBy(norm, init);
    var n := norm(texts[|texts| - 1]);
    assert r == Keep(p, n);
    KeepIndex(p, n, k);
    if k < |p| {
      PreprocessedFrom(norm, init, k);
      var j :| 0 <= j < |init| && p[k] == norm(init[j]);
      assert init[j] == texts[j];
    }
  }

  /** Keeping a text leaves the earlier ones where they were and puts the
      new one last. */
  lemma KeepIndex(kept: seq<string>, n: string, k: nat)
    requires k < |Keep(kept, n)|
    ensures Keep(kept, n)[k] == if k < |kept| then kept[k] else n
  {
  }

  lemma KeepTakes(kept: seq<string>, n: string)
    requires |Strip(n)| > 25
    ensures n in Keep(kept, n)
  {
  }

  /** Every input whose normal form is long enough is represented. */
  lemma PreprocessedComplete(norm: string -> string, texts: seq<string>, j: nat)
    requires j < |texts| && |Strip(norm(texts[j]))| > 25
    ensures norm(texts[j]) in PreprocessedBy(norm, texts)
  {
    var kept := PreprocessedBy(norm, texts[..j]);
    PreprocessedStep(norm, texts, j);
    KeepTakes(kept, norm(texts[j]));
    PreprocessedPrefix(norm, texts, j + 1);
    InPrefix(PreprocessedBy(norm, texts[..j + 1]), PreprocessedBy(norm, texts), norm(texts[j]));
  }

  lemma InPrefix<T>(a: seq<T>, b: seq<T>, x: T)
    requires x in a && a <= b
    ensures x in b
  {
    var i :| 0 <= i < |a| && a[i] == x;
    assert b[i] == x;
  }

  /** What `_preprocess_texts` keeps: distinct normalised texts, each longer
      than 25 characters once stripped and the normal form of some input; and
      every input whose normal form is that long is represented. */
  lemma PreprocessedShape(texts: seq<string>)
    ensures Distinct(Preprocessed(texts))
    ensures forall k :: 0 <= k < |Preprocessed(texts)| ==>
              |Strip(Preprocessed(texts)[k])| > 25 && Normalized(Preprocessed(texts)[k])
    ensures forall j :: 0 <= j < |texts| && |Strip(NormalizeText(texts[j]))| > 25 ==> NormalizeText(texts[j]) in Preprocessed(texts)
  {
    PreprocessedDistinct(NormalizeText, texts);
    forall k | 0 <= k < |Preprocessed(texts)|
      ensures |Strip(Preprocessed(texts)[k])| > 25 && Normalized(Preprocessed(texts)[k])
    {
      PreprocessedFrom(NormalizeText, texts, k);
      var j :| 0 <= j < |texts| && Preprocessed(texts)[k] == NormalizeText(texts[j]);
    }
    forall j | 0 <= j < |texts| && |Strip(NormalizeText(texts[j]))| > 25
      ensures NormalizeText(texts[j]) in Preprocessed(texts)
    {
      PreprocessedComplete(NormalizeText, texts, j);
    }
  }

  /** Later inputs only append: the texts kept from a prefix of the inputs are a
      prefix of those kept from all of them, so first occurrences keep their
      order. */
  lemma {:induction false} PreprocessedPrefix(norm: string -> string, texts: seq<string>, k: nat)
    requires k <= |texts|
    ensures PreprocessedBy(norm, texts[..k]) <= PreprocessedBy(norm, texts)
    decreases |texts|
  {
    if k < |texts| {
      var init := texts[..|texts| - 1];
      assert texts[..k] == init[..k];
      PreprocessedPrefix(norm, init, k);
    } else {
      assert texts[..k] == texts;
    }
  }

  // ---------------------------------------------------------------------------
  // `_calculate_optimal_num_select`

  /** How many texts MMR keeps out of `total`. */
  function OptimalNumSelect(total: nat): (r: nat)
    ensures r <= total
    ensures total <= 20 ==> r == total
    ensures total > 20 ==> 10 <= r < total
  {
    if total <= 20 then total
    else if total <= 50 then Max(10, total / 3)
    else if total <= 100 then Max(15, total / 4)
    else if total <= 200 then Max(20, total / 5)
    else Max(30, total / 6)
  }

  // ---------------------------------------------------------------------------
  // `_select_representative_texts`: index bookkeeping of the MMR loop

  /** The MMR ranking, abstract: given the texts, the indices selected so far
      and those remaining, the position in `remaining` of the best-scoring
      index (the `argmax` of the scores). */
  type Ranker = (seq<string>, seq<nat>, seq<nat>) -> nat

  /** The position the ranker names; `argmax` always names one in range, and an
      out-of-range answer of the abstract ranker is read as the first. */
  function Choose(rank: Ranker, texts: seq<string>, selected: seq<nat>, remaining: seq<nat>): (k: nat)
    requires remaining != []
    ensures k < |remaining|
  {
    var k := rank(texts, selected, remaining);
    if k < |remaining| then k else 0
  }

  /** `list.remove` of the element at position `k` (the list holds no
      duplicates, so this is its first occurrence). */
  function RemoveAt(s: seq<nat>, k: nat): (r: seq<nat>)
    requires k < |s|
    ensures |r| == |s| - 1
  {
    s[..k] + s[k + 1..]
  }

  /** `list(range(n))` */
  function Range(n: nat): (r: seq<nat>)
    ensures |r| == n && forall i :: 0 <= i < n ==> r[i] == i
  {
    if n == 0 then [] else Range(n - 1) + [n - 1]
  }

  /** The selection loop from a given state: move the best remaining index to
      the selection until `numSelect` are selected or none remain. */
  function MmrLoop(rank: Ranker, texts: seq<string>, selected: seq<nat>, remaining: seq<nat>, numSelect: int): seq<nat>
    decreases |remaining|
  {
    if |selected| < numSelect && remaining != [] then
      var k := Choose(rank, texts, selected, remaining);
      MmrLoop(rank, texts, selected + [remaining[k]], RemoveAt(remaining, k), numSelect)
    else selected
  }

  /** The first index is chosen unconditionally, then the loop runs. MMR
      picks `max(1, min(numSelect, len(texts)))` distinct positions of
      `texts`: so exactly `numSelect` whenever `1 <= numSelect <= len(texts)`. */
  function MmrSelection(rank: Ranker, texts: seq<string>, numSelect: int): (r: seq<nat>)
    requires texts != []
    ensures Distinct(r)
    ensures forall x :: x in r ==> x < |texts|
    ensures |r| == Max(1, Min(numSelect, |texts|))
  {
    var all := Range(|texts|);
    var k := Choose(rank, texts, [], all);
    FirstPick(rank, texts);
    MmrLoopShape(rank, texts, [all[k]], RemoveAt(all, k), numSelect);
    MmrLoop(rank, texts, [all[k]], RemoveAt(all, k), numSelect)
  }

  lemma RemoveAtElements(s: seq<nat>, k: nat)
    requires k < |s|
    ensures forall x :: x in RemoveAt(s, k) ==> x in s
    ensures Distinct(s) ==> Distinct(RemoveAt(s, k)) && s[k] !in RemoveAt(s, k)
  {
    var r := RemoveAt(s, k);
    assert forall i :: 0 <= i < |r| ==> r[i] == (if i < k then s[i] else s[i + 1]);
  }

  /** Moving one remaining index into the selection keeps the indices
      distinct and within range. */
  lemma MoveKeepsShape(selected: seq<nat>, remaining: seq<nat>, k: nat, n: nat)
    requires k < |remaining|
    requires Distinct(selected + remaining)
    requires forall x :: x in selected + remaining ==> x < n
    ensures Distinct(selected + [remaining[k]] + RemoveAt(remaining, k))
    ensures forall x :: x in selected + [remaining[k]] + RemoveAt(remaining, k) ==> x < n
  {
    var sel' := selected + [remaining[k]];
    var rem' := RemoveAt(remaining, k);
    assert Distinct(remaining) && Distinct(selected) by {
      forall i, j | 0 <= i < j < |remaining| ensures remaining[i] != remaining[j] {
        assert remaining[i] == (selected + remaining)[|selected| + i];
        assert remaining[j] == (selected + remaining)[|selected| + j];
      }
      forall i, j | 0 <= i < j < |selected| ensures selected[i] != selected[j] {
        assert selected[i] == (selected + remaining)[i];
        assert selected[j] == (selected + remaining)[j];
      }
    }
    RemoveAtElements(remaining, k);
    assert forall x :: x in remaining ==> x !in selected by {
      forall x | x in remaining ensures x !in selected {
        var j :| 0 <= j < |remaining| && remaining[j] == x;
        assert x == (selected + remaining)[|selected| + j];
        forall i | 0 <= i < |selected| ensures selected[i] != x {
          assert selected[i] == (selected + remaining)[i];
        }
      }
    }
    assert Distinct(sel' + rem') by {
      var c := sel' + rem';
      forall i, j | 0 <= i < j < |c| ensures c[i] != c[j] {
        if j < |selected| {
          assert c[i] == selected[i] && c[j] == selected[j];
        } else if i < |selected| {
          assert c[j] in remaining;
          assert c[i] in selected;
        } else if i == |selected| {
          assert c[j] in rem';
        } else {
          assert c[i] == rem'[i - |sel'|] && c[j] == rem'[j - |sel'|];
        }
      }
    }
    assert forall x :: x in sel' + rem' ==> x < n by {
      forall x | x in sel' + rem' ensures x < n {
        assert x in selected || x in remaining;
        assert x in selected + remaining;
      }
    }
  }

  /** The selection part of distinct in-range indices is itself distinct and
      in range. */
  lemma SelectedKeepsShape(selected: seq<nat>, remaining: seq<nat>, n: nat)
    requires Distinct(selected + remaining)
    requires forall x :: x in selected + remaining ==> x < n
    ensures Distinct(selected)
    ensures forall x :: x in selected ==> x < n
  {
    assert forall x :: x in selected ==> x in selected + remaining;
    forall i, j | 0 <= i < j < |selected| ensures selected[i] != selected[j] {
      assert selected[i] == (selected + remaining)[i];
      assert selected[j] == (selected + remaining)[j];
    }
  }

  /** The loop keeps the selection free of duplicates and within range, and
      stops at `numSelect` or when nothing remains. */
  lemma {:induction false} MmrLoopShape(rank: Ranker, texts: seq<string>, selected: seq<nat>, remaining: seq<nat>, numSelect: int)
    requires Distinct(selected + remaining)
    requires forall x :: x in selected + remaining ==> x < |texts|
    ensures selected <= MmrLoop(rank, texts, selected, remaining, numSelect)
    ensures Distinct(MmrLoop(rank, texts, selected, remaining, numSelect))
    ensures forall x :: x in MmrLoop(rank, texts, selected, remaining, numSelect) ==> x < |texts|
    ensures |MmrLoop(rank, texts, selected, remaining, numSelect)| == Max(|selected|, Min(numSelect, |selected| + |remaining|))
    decreases |remaining|
  {
    if |selected| < numSelect && remaining != [] {
      var k := Choose(rank, texts, selected, remaining);
      MoveKeepsShape(selected, remaining, k, |texts|);
      MmrLoopShape(rank, texts, selected + [remaining[k]], RemoveAt(remaining, k), numSelect);
    } else {
      SelectedKeepsShape(selected, remaining, |texts|);
    }
  }

  /** Choosing the first index leaves it and the other positions of `texts`
      distinct and within range. */
  lemma FirstPick(rank: Ranker, texts: seq<string>)
    requires texts != []
    ensures var all := Range(|texts|);
            var k := Choose(rank, texts, [], all);
            Distinct([all[k]] + RemoveAt(all, k)) && forall x :: x in [all[k]] + RemoveAt(all, k) ==> x < |texts|
  {
    RangeShape(|texts|);
    PickFirst(Range(|texts|), Choose(rank, texts, [], Range(|texts|)), |texts|);
  }

  /** `list(range(n))` holds distinct indices below `n`. */
  lemma RangeShape(n: nat)
    ensures Distinct(Range(n)) && forall x :: x in Range(n) ==> x < n
  {
  }

  /** Selecting one index from a list of distinct in-range indices, with
      nothing selected yet, keeps them distinct and in range. */
  lemma PickFirst(all: seq<nat>, k: nat, n: nat)
    requires k < |all|
    requires Distinct(all) && forall x :: x in all ==> x < n
    ensures Distinct([all[k]] + RemoveAt(all, k)) && forall x :: x in [all[k]] + RemoveAt(all, k) ==> x < n
  {
    var rem := RemoveAt(all, k);
    RemoveAtElements(all, k);
    ConsDistinct(all[k], rem);
    forall x | x in [all[k]] + rem ensures x < n {
      if x != all[k] {
        assert x in rem;
        assert x in all;
      } else {
        assert all[k] in all;
      }
    }
  }

  /** Putting an element in front of a list without duplicates that does
      not hold it gives a list without duplicates. */
  lemma ConsDistinct(x: nat, r: seq<nat>)
    requires Distinct(r) && x !in r
    ensures Distinct([x] + r)
  {
    var c := [x] + r;
    forall i, j | 0 <= i < j < |c| ensures c[i] != c[j] {
      assert c[j] == r[j - 1];
      if i > 0 {
        assert c[i] == r[i - 1];
      }
    }
  }

  /** `[texts[i] for i in indices]` */
  function Pick(texts: seq<string>, indices: seq<nat>): (r: seq<string>)
    requires forall i :: 0 <= i < |indices| ==> indices[i] < |texts|
    ensures |r| == |indices| && forall i :: 0 <= i < |r| ==> r[i] == texts[indices[i]]
  {
    if indices == [] then [] else [texts[indices[0]]] + Pick(texts, indices[1..])
  }

  /** The result of `_select_representative_texts(texts, num_select)`: the
      input itself when there is at most one text or nothing to drop;
      otherwise `max(1, num_select)` texts at distinct input positions. */
  function Representatives(rank: Ranker, texts: seq<string>, numSelect: Option<int>): (r: seq<string>)
    ensures var ns := if numSelect.Some? then numSelect.value else OptimalNumSelect(|texts|);
            if |texts| <= 1 || ns >= |texts| then r == texts
            else
              var idx := MmrSelection(rank, texts, ns);
              Distinct(idx) && |r| == |idx| == Max(1, ns)
              && forall i :: 0 <= i < |r| ==> idx[i] < |texts| && r[i] == texts[idx[i]]
  {
    if |texts| <= 1 then texts
    else
      var ns := Min(if numSelect.Some? then numSelect.value else OptimalNumSelect(|texts|), |texts|);
      if |texts| <= ns then texts
      else
        var idx := MmrSelection(rank, texts, ns);
        assert forall i :: 0 <= i < |idx| ==> idx[i] < |texts| by {
          assert forall i :: 0 <= i < |idx| ==> idx[i] in idx;
        }
        Pick(texts, idx)
  }

  // ---------------------------------------------------------------------------
  // `compress_segments`

  /** The outcome of `compress_segments` on what transcription returned. A
      non-empty demo string raises `AttributeError` (`str` has no `get`). */
  function Compressed(rank: Ranker, t: Transcription): (r: Result<string>)
    ensures r.Raised? <==> t.PlainText? && t.text != ""
    ensures r.Raised? ==> r.exc == AttributeError
  {
    match t
    case PlainText(s) => if s == "" then Ok("") else Raised(AttributeError)
    case Segments(segs) => Ok(CompressedSegments(rank, segs))
  }

  /** What `compress_segments` returns for a list of segments: nothing when
      no segment has text, every kept text when there are at most three. */
  function CompressedSegments(rank: Ranker, segs: seq<Segment>): (r: string)
    ensures SegmentTexts(segs) == [] ==> r == ""
    ensures SegmentTexts(segs) != [] && |Preprocessed(SegmentTexts(segs))| <= 3
            ==> r == Join(" ", Preprocessed(SegmentTexts(segs)))
  {
    var texts := SegmentTexts(segs);
    if texts == [] then ""
    else
      var p := Preprocessed(texts);
      if |p| <= 3 then Join(" ", p)
      else Join(" ", Representatives(rank, p, Some(OptimalNumSelect(|p|))))
  }

  /** Blank segments compress to the empty string. */
  lemma CompressedBlank(rank: Ranker, segs: seq<Segment>)
    requires forall i :: 0 <= i < |segs| ==> AllSpace(TextOf(segs[i]))
    ensures Compressed(rank, Segments(segs)) == Ok("")
  {
    SegmentTextsEmptyIff(segs);
  }

  /** Up to 20 kept texts are all joined, in order: nothing is dropped. */
  lemma CompressedShort(rank: Ranker, segs: seq<Segment>)
    requires SegmentTexts(segs) != [] && |Preprocessed(SegmentTexts(segs))| <= 20
    ensures Compressed(rank, Segments(segs)) == Ok(Join(" ", Preprocessed(SegmentTexts(segs))))
  {
    var p := Preprocessed(SegmentTexts(segs));
    if |p| > 3 {
      assert OptimalNumSelect(|p|) == |p|;
      assert Representatives(rank, p, Some(|p|)) == p;
    }
  }

  /** Above 20 kept texts, MMR keeps `OptimalNumSelect` of them, strictly fewer,
      each a kept text at a distinct position. */
  lemma CompressedLong(rank: Ranker, segs: seq<Segment>)
    requires SegmentTexts(segs) != [] && |Preprocessed(SegmentTexts(segs))| > 20
    ensures var p := Preprocessed(SegmentTexts(segs));
            var r := Representatives(rank, p, Some(OptimalNumSelect(|p|)));
            Compressed(rank, Segments(segs)) == Ok(Join(" ", r))
            && |r| == OptimalNumSelect(|p|) < |p|
            && forall i :: 0 <= i < |r| ==> r[i] in p
  {
    var p := Preprocessed(SegmentTexts(segs));
    var ns := OptimalNumSelect(|p|);
    var r := Representatives(rank, p, Some(ns));
    assert 10 <= ns < |p|;
    assert CompressedSegments(rank, segs) == Join(" ", r);
    var idx := MmrSelection(rank, p, ns);
    assert |r| == |idx| == ns;
    forall i | 0 <= i < |r|
      ensures r[i] in p
    {
      assert idx[i] < |p| && r[i] == p[idx[i]];
    }
  }

  /** The demo transcript is not a segment list: compressing it raises. */
  lemma DemoTranscriptRaises(rank: Ranker)
    ensures Compressed(rank, PlainText(DemoTranscript)) == Raised(AttributeError)
  {
  }

  /** A sentence embedding. */
  type Embedding = seq<real>

  /** Adding a text to both the list and the set of seen texts keeps them
      in step. */
  lemma SeenStep(seen: set<string>, kept: seq<string>, n: string)
    requires forall x :: x in seen <==> x in kept
    ensures forall x :: x in seen + {n} <==> x in kept + [n]
  {
  }

  class TextCompressor {
    /** `model.encode`, a fixed function of the text. */
    const encoder: string -> Embedding
    /** The MMR ranking over the encoder's embeddings. */
    const rank: Ranker
    var embeddingsCache: map<string, Embedding>
    /** Every text handed to the encoder, in order. */
    ghost var encoded: seq<string>

    /** The cache holds the encoder's value for exactly the texts encoded so
        far, and no text was encoded twice. */
    ghost predicate Valid()
      reads this
    {
      Distinct(encoded)
      && (forall t :: t in embeddingsCache <==> t in encoded)
      && forall t :: t in embeddingsCache ==> embeddingsCache[t] == encoder(t)
    }

    constructor(encoder: string -> Embedding, rank: Ranker)
      ensures Valid() && embeddingsCache == map[] && encoded == []
      ensures this.encoder == encoder && this.rank == rank
    {
      this.encoder := encoder;
      this.rank := rank;
      embeddingsCache := map[];
      encoded := [];
    }

    /** `_get_embeddings`: each text's embedding, encoding only texts not seen
        before in this instance's life. */
    method GetEmbeddings(texts: seq<string>) returns (embeddings: seq<Embedding>)
      requires Valid()
      modifies this
      ensures Valid()
      ensures |embeddings| == |texts| && forall i :: 0 <= i < |texts| ==> embeddings[i] == encoder(texts[i])
      ensures old(encoded) <= encoded
      ensures forall t :: t in encoded ==> t in old(encoded) || t in texts
      ensures forall t :: t in texts ==> t in embeddingsCache && t in encoded
    {
      embeddings := [];
      var i := 0;
      while i < |texts|
        invariant 0 <= i <= |texts| && Valid()
        invariant |embeddings| == i && forall k :: 0 <= k < i ==> embeddings[k] == encoder(texts[k])
        invariant old(encoded) <= encoded
        invariant forall t :: t in encoded ==> t in old(encoded) || t in texts[..i]
        invariant forall t :: t in texts[..i] ==> t in embeddingsCache && t in encoded
      {
        var text := texts[i];
        if text in embeddingsCache {
          embeddings := embeddings + [embeddingsCache[text]];
        } else {
          var embedding := encoder(text);
          embeddingsCache := embeddingsCache[text := embedding];
          encoded := encoded + [text];
          embeddings := embeddings + [embedding];
        }
        assert texts[..i + 1] == texts[..i] + [text];
        i := i + 1;
      }
      assert texts[..i] == texts;
    }

    /** `_preprocess_texts` */
    method PreprocessTexts(texts: seq<string>) returns (processed: seq<string>)
      ensures processed == Preprocessed(texts)
    {
      processed := [];
      var seen: set<string> := {};
      var i := 0;
      while i < |texts|
        invariant 0 <= i <= |texts|
        invariant processed == PreprocessedBy(NormalizeText, texts[..i])
        invariant forall x :: x in seen <==> x in processed
      {
        var normalized := NormalizeText(texts[i]);
        PreprocessedStep(NormalizeText, texts, i);
        ghost var before := processed;
        assert (normalized in seen) == (normalized in before);
        if normalized !in seen && |Strip(normalized)| > 25 {
          SeenStep(seen, processed, normalized);
          processed := processed + [normalized];
          seen := seen + {normalized};
        }
        assert processed == Keep(before, normalized);
        i := i + 1;
      }
      assert texts[..i] == texts;
    }

    /** The MMR loop over indices, computing `MmrSelection`. */
    method SelectIndices(texts: seq<string>, numSelect: int) returns (selected: seq<nat>)
      requires texts != []
      ensures selected == MmrSelection(rank, texts, numSelect)
    {
      var remaining := Range(|texts|);
      var first := Choose(rank, texts, [], remaining);
      selected := [remaining[first]];
      remaining := RemoveAt(remaining, first);
      while |selected| < numSelect && remaining != []
        invariant MmrLoop(rank, texts, selected, remaining, numSelect) == MmrSelection(rank, texts, numSelect)
        decreases |remaining|
      {
        var best := Choose(rank, texts, selected, remaining);
        selected := selected + [remaining[best]];
        remaining := RemoveAt(remaining, best);
      }
    }

    /** `_select_representative_texts`: embeddings are computed only when MMR
        actually has to drop texts. */
    method SelectRepresentativeTexts(texts: seq<string>, numSelect: Option<int>) returns (r: seq<string>)
      requires Valid()
      modifies this
      ensures Valid()
      ensures r == Representatives(rank, texts, numSelect)
      ensures old(encoded) <= encoded
      ensures forall t :: t in encoded ==> t in old(encoded) || t in texts
    {
      if |texts| <= 1 {
        return texts;
      }
      var ns := if numSelect.Some? then numSelect.value else OptimalNumSelect(|texts|);
      ns := Min(ns, |texts|);
      if |texts| <= ns {
        return texts;
      }
      var _ := GetEmbeddings(texts);
      var selected := SelectIndices(texts, ns);
      assert forall i :: 0 <= i < |selected| ==> selected[i] in selected;
      r := Pick(texts, selected);
    }

    /** `compress_segments` */
    method CompressSegments(t: Transcription) returns (r: Result<string>)
      requires Valid()
      modifies this
      ensures Valid()
      ensures r == Compressed(rank, t)
      ensures old(encoded) <= encoded
    {
      if t.PlainText? {
        r := if t.text == "" then Ok("") else Raised(AttributeError);
      } else {
        var segmentTexts := CollectSegmentTexts(t.segments);
        var joined := "";
        if segmentTexts != [] {
          var processed := PreprocessTexts(segmentTexts);
          if |processed| <= 3 {
            joined := Join(" ", processed);
          } else {
            var optimal := OptimalNumSelect(|processed|);
            var representative := SelectRepresentativeTexts(processed, Some(optimal));
            joined := Join(" ", representative);
          }
        }
        assert joined == CompressedSegments(rank, t.segments);
        r := Ok(joined);
      }
    }
  }
}

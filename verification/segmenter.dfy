/** The loops of the text stages, each against the function it computes. */
module Segmenter {
  import opened Domain
  import opened Text
  import opened Segmentation

  /** The first sentence boundary: where the sentence ends and where the next text begins. */
  method FirstBoundary(lang: Language, text: string, streaming: bool) returns (boundary: Option<(nat, nat)>)
    ensures boundary
            == match FirstEnd(lang, text, 0, streaming)
               case None => None
               case Some(i) => Some((i + 1, SkipBlanks(text, i + 1)))
  {
    for i := 0 to |text|
      invariant FirstEnd(lang, text, 0, streaming) == FirstEnd(lang, text, i, streaming)
    {
      if Candidate(text, i) {
        var nextStart := i + 1;
        while nextStart < |text| && Blank(text[nextStart])
          invariant i + 1 <= nextStart <= |text|
          invariant SkipBlanks(text, i + 1) == SkipBlanks(text, nextStart)
        {
          nextStart := nextStart + 1;
        }
        if !(text[i] == '.' && lang.protectedPeriod(text, i, nextStart, streaming)) {
          return Some((i + 1, nextStart));
        }
      }
    }
    boundary := None;
  }

  method TakeStableSpeechBoundaries(lang: Language, text: string) returns (fragments: seq<string>, pending: string)
    ensures (fragments, pending) == TakeStable(lang, text)
  {
    hide FirstEnd, Strip, SkipBlanks;
    fragments, pending := [], text;
    ghost var (all, last) := TakeStable(lang, text);
    while true
      invariant fragments + TakeStable(lang, pending).0 == all && TakeStable(lang, pending).1 == last
      decreases |pending|
    {
      var boundary := FirstBoundary(lang, pending, true);
      if boundary.None? {
        assert fragments + [] == fragments;
        return;
      }
      var (end, nextStart) := boundary.value;
      var fragment := Strip(pending[..end]);
      Ahead(fragments, if fragment != "" then [fragment] else [], TakeStable(lang, pending[nextStart..]).0);
      pending := pending[nextStart..];
      if fragment != "" { fragments := fragments + [fragment]; } else { assert fragments + [] == fragments; }
    }
  }

  lemma Ahead(a: seq<string>, b: seq<string>, c: seq<string>)
    ensures a + (b + c) == a + b + c
  {
  }

  method SplitTtsSentences(lang: Language, text: string) returns (fragments: seq<string>)
    ensures fragments == Sentences(lang, Strip(text))
  {
    hide FirstEnd, Strip, SkipBlanks, Sentences;
    fragments := [];
    var pending := Strip(text);
    assert [] + Sentences(lang, pending) == Sentences(lang, pending);
    while pending != ""
      invariant fragments + Sentences(lang, pending) == Sentences(lang, Strip(text))
      decreases |pending|
    {
      var boundary := FirstBoundary(lang, pending, false);
      SentencesNext(lang, pending);
      if boundary.None? {
        return fragments + [pending];
      }
      var (end, nextStart) := boundary.value;
      var fragment := Strip(pending[..end]);
      ghost var rest := Sentences(lang, Strip(pending[nextStart..]));
      Ahead(fragments, if fragment != "" then [fragment] else [], rest);
      if fragment != "" { fragments := fragments + [fragment]; } else { assert fragments + [] == fragments; }
      pending := Strip(pending[nextStart..]);
    }
    SentencesNone(lang);
    assert fragments + [] == fragments;
  }

  lemma SentencesNext(lang: Language, text: string)
    requires text != ""
    ensures match FirstEnd(lang, text, 0, false)
            case None => Sentences(lang, text) == [text]
            case Some(i) =>
              var fragment, rest := Strip(text[..i + 1]), Strip(text[SkipBlanks(text, i + 1)..]);
              && |rest| < |text|
              && Sentences(lang, text) == (if fragment != "" then [fragment] else []) + Sentences(lang, rest)
  {
    hide FirstEnd, Strip, SkipBlanks;
    var end := FirstEnd(lang, text, 0, false);
    if end.Some? { SolidStrip(text[SkipBlanks(text, end.value + 1)..]); }
  }

  lemma SentencesNone(lang: Language)
    ensures Sentences(lang, "") == []
  {
  }

  /** Where the runs of blanks begin that a text may be cut at, in order. */
  method RunPositions(text: string, minimum: nat, last: int) returns (positions: seq<nat>)
    requires last < |text|
    ensures forall k | 0 <= k < |positions| :: minimum <= positions[k] <= last && RunStarts(text, positions[k])
    ensures forall j, k | 0 <= j < k < |positions| :: positions[j] < positions[k]
    ensures forall q | minimum <= q <= last && RunStarts(text, q) :: q in positions
  {
    hide RunStarts;
    positions := [];
    if last < 0 { return; }
    for p := 0 to last + 1
      invariant forall k | 0 <= k < |positions| :: minimum <= positions[k] < p && RunStarts(text, positions[k])
      invariant forall j, k | 0 <= j < k < |positions| :: positions[j] < positions[k]
      invariant forall q | minimum <= q < p && RunStarts(text, q) :: q in positions
    {
      if p >= minimum && RunStarts(text, p) { positions := positions + [p]; }
    }
  }

  /** Looks at the runs of blanks from the last one back. */
  method FindWordSplit(lang: Language, text: string, minimum: nat, maximum: nat) returns (at: nat)
    ensures at == SafeWordSplit(lang, text, minimum, maximum)
  {
    hide RunStarts;
    var last := if |text| <= maximum then |text| - 1 else maximum;
    var positions := RunPositions(text, minimum, last);
    var k := |positions|;
    while k > 0
      invariant 0 <= k <= |positions|
      invariant forall j | k <= j < |positions| :: !WordEnd(lang, text, positions[j])
    {
      k := k - 1;
      if !lang.protectedJoin(text[..positions[k]], text[positions[k]..]) {
        LastIs(lang, text, minimum, last, maximum, positions[k]);
        return positions[k];
      }
    }
    LastNone(lang, text, minimum, last, maximum);
    at := maximum;
  }

  lemma {:induction false} LastIs(lang: Language, text: string, minimum: nat, p: int, maximum: nat, at: nat)
    requires minimum <= at <= p < |text| && WordEnd(lang, text, at)
    requires forall q | at < q <= p :: !WordEnd(lang, text, q)
    ensures LastWordEnd(lang, text, minimum, p, maximum) == at
    decreases p
  {
    if p > at { LastIs(lang, text, minimum, p - 1, maximum, at); }
  }

  lemma {:induction false} LastNone(lang: Language, text: string, minimum: nat, p: int, maximum: nat)
    requires p < |text| && forall q: nat | minimum <= q <= p :: !WordEnd(lang, text, q)
    ensures LastWordEnd(lang, text, minimum, p, maximum) == maximum
    decreases p
  {
    if p >= minimum { LastNone(lang, text, minimum, p - 1, maximum); }
  }

  lemma SplitLongNext(lang: Language, pending: string)
    requires |pending| > 220
    ensures var at := SafeWordSplit(lang, pending, 120, 220);
      var rest := StripLeft(pending[at..]);
      |rest| < |pending| && SplitLong(lang, pending) == [Strip(pending[..at])] + SplitLong(lang, rest)
  {
    hide SafeWordSplit, Strip, StripLeft;
  }

  method SplitLongSpeechFragment(lang: Language, text: string) returns (fragments: seq<string>)
    ensures fragments == SplitLong(lang, text)
  {
    hide SafeWordSplit, Strip, StripLeft, SplitLong;
    fragments := [];
    var pending := text;
    while |pending| > 220
      invariant fragments + SplitLong(lang, pending) == SplitLong(lang, text)
      decreases |pending|
    {
      var at := FindWordSplit(lang, pending, 120, 220);
      var rest := StripLeft(pending[at..]);
      SplitLongNext(lang, pending);
      Ahead(fragments, [Strip(pending[..at])], SplitLong(lang, rest));
      fragments := fragments + [Strip(pending[..at])];
      pending := rest;
    }
    SplitShort(lang, pending);
    if pending != "" { fragments := fragments + [pending]; } else { assert fragments + [] == fragments; }
  }

  lemma SplitShort(lang: Language, text: string)
    requires |text| <= 220
    ensures SplitLong(lang, text) == if text == "" then [] else [text]
  {
  }

  method SplitEachFragment(lang: Language, stable: seq<string>) returns (fragments: seq<string>)
    ensures fragments == SplitEach(lang, stable)
  {
    hide SplitLong;
    fragments := [];
    for i := 0 to |stable|
      invariant fragments == SplitEach(lang, stable[..i])
    {
      assert stable[..i + 1][..i] == stable[..i];
      var split := SplitLongSpeechFragment(lang, stable[i]);
      fragments := fragments + split;
    }
    assert stable[..|stable|] == stable;
  }

  method TakeSpeechBoundaries(lang: Language, text: string) returns (fragments: seq<string>, pending: string)
    ensures (fragments, pending) == TakeBoundaries(lang, text)
  {
    hide SafeWordSplit, Strip, StripLeft, TakeStable, SplitEach;
    var stable: seq<string>;
    stable, pending := TakeStableSpeechBoundaries(lang, text);
    fragments := SplitEachFragment(lang, stable);
    ghost var each := fragments;
    ghost var (cut, last) := CutPending(lang, pending);
    while |pending| >= 220
      invariant fragments + CutPending(lang, pending).0 == each + cut && CutPending(lang, pending).1 == last
      decreases |pending|
    {
      var at := FindWordSplit(lang, pending, 120, 220);
      var rest := StripLeft(pending[at..]);
      Ahead(fragments, [Strip(pending[..at])], CutPending(lang, rest).0);
      fragments := fragments + [Strip(pending[..at])];
      pending := rest;
    }
    assert fragments + [] == fragments;
  }

  lemma ReviewedNext(r: Review, disclosed: bool, fragments: seq<string>, fragment: string)
    ensures Reviewed(r, disclosed, fragments + [fragment])
            == Reviewed(r, disclosed, fragments)
               + (if r.Passed(disclosed || fragments != [], fragment) == "" then []
                  else [r.Passed(disclosed || fragments != [], fragment)])
  {
    assert (fragments + [fragment])[..|fragments|] == fragments;
  }

  /** The pending loop of a model's stream and its flush at the end, with the review of every fragment. */
  method StreamResponse(lang: Language, r: Review, disclosed: bool, deltas: seq<string>)
    returns (spoken: seq<string>, told: bool)
    ensures spoken == Response(lang, r, disclosed, deltas)
    ensures told == (disclosed || Spoken(lang, deltas) != [])
  {
    hide TakeBoundaries, Strip, Review.Passed, Reviewed, Spaced;
    var pending := "";
    ghost var fragments: seq<string> := [];
    spoken, told := [], disclosed;
    assert spoken == Reviewed(r, disclosed, []) by { NothingReviewed(r, disclosed); }
    for i := 0 to |deltas|
      invariant (fragments, pending) == Stream(lang, deltas[..i])
      invariant spoken == Reviewed(r, disclosed, fragments) && told == (disclosed || fragments != [])
    {
      assert deltas[..i + 1][..i] == deltas[..i];
      if deltas[i] == "" { continue; }
      var ready: seq<string>;
      ready, pending := TakeSpeechBoundaries(lang, pending + deltas[i]);
      spoken, told := ReviewEach(r, disclosed, spoken, told, ready, fragments);
      fragments := fragments + ready;
    }
    assert deltas[..|deltas|] == deltas;
    if Strip(pending) != "" {
      spoken, told := ReviewEach(r, disclosed, spoken, told, [Strip(pending)], fragments);
    } else {
      assert fragments + [] == fragments;
    }
    if Strip(Spaced(spoken)) == "" { spoken := spoken + [NOTHING_SAID]; }
    else { assert spoken + [] == spoken; }
  }

  lemma NothingReviewed(r: Review, disclosed: bool)
    ensures Reviewed(r, disclosed, []) == []
  {
  }

  method ReviewEach(r: Review, disclosed: bool, before: seq<string>, toldBefore: bool, ready: seq<string>,
                    ghost fragments: seq<string>)
    returns (spoken: seq<string>, told: bool)
    requires before == Reviewed(r, disclosed, fragments) && toldBefore == (disclosed || fragments != [])
    ensures spoken == Reviewed(r, disclosed, fragments + ready) && told == (disclosed || fragments + ready != [])
  {
    hide Review.Passed, Reviewed;
    spoken, told := before, toldBefore;
    assert fragments + ready[..0] == fragments;
    for k := 0 to |ready|
      invariant spoken == Reviewed(r, disclosed, fragments + ready[..k])
      invariant told == (disclosed || fragments + ready[..k] != [])
    {
      assert fragments + ready[..k + 1] == fragments + ready[..k] + [ready[k]];
      ReviewedNext(r, disclosed, fragments + ready[..k], ready[k]);
      var passed := r.Passed(told, ready[k]);
      told := true;
      if passed != "" { spoken := spoken + [passed]; }
    }
    assert ready[..|ready|] == ready;
  }

  lemma SplitNext(lang: Language, maximum: nat, text: string)
    requires maximum >= 1 && NoLeadingBlank(text) && |text| > maximum
    ensures var at := SafeWordSplit(lang, text, Min(80, maximum / 2), maximum);
      && NoLeadingBlank(Strip(text[at..])) && |Strip(text[at..])| < |text|
      && Segmentation.SplitAtWord(lang, maximum, text)
         == [Strip(text[..at])] + Segmentation.SplitAtWord(lang, maximum, Strip(text[at..]))
  {
    hide SafeWordSplit, Strip, Min;
    var at := SafeWordSplit(lang, text, Min(80, maximum / 2), maximum);
    SolidStrip(text[at..]);
    StripEnds(text[at..]);
  }

  lemma SplitShortSegment(lang: Language, maximum: nat, text: string)
    requires maximum >= 1 && NoLeadingBlank(text) && |text| <= maximum
    ensures Segmentation.SplitAtWord(lang, maximum, text) == if text != "" then [text] else []
  {
  }

  /** The planner with its one setting. */
  class ProsodyPlanner {
    const maximumSegmentCharacters: nat
    const language: Language

    constructor (language: Language, maximumSegmentCharacters: nat)
      ensures this.language == language && this.maximumSegmentCharacters == maximumSegmentCharacters
    {
      this.language, this.maximumSegmentCharacters := language, maximumSegmentCharacters;
    }

    method SplitAtWord(text: string) returns (pieces: seq<string>)
      requires maximumSegmentCharacters >= 1 && NoLeadingBlank(text)
      ensures pieces == Segmentation.SplitAtWord(language, maximumSegmentCharacters, text)
    {
      hide SafeWordSplit, Strip, Min, Segmentation.SplitAtWord;
      var remaining := text;
      pieces := [];
      assert [] + Segmentation.SplitAtWord(language, maximumSegmentCharacters, text)
             == Segmentation.SplitAtWord(language, maximumSegmentCharacters, text);
      while |remaining| > maximumSegmentCharacters
        invariant NoLeadingBlank(remaining)
        invariant pieces + Segmentation.SplitAtWord(language, maximumSegmentCharacters, remaining)
                  == Segmentation.SplitAtWord(language, maximumSegmentCharacters, text)
        decreases |remaining|
      {
        var at := FindWordSplit(language, remaining, Min(80, maximumSegmentCharacters / 2), maximumSegmentCharacters);
        SplitNext(language, maximumSegmentCharacters, remaining);
        var head, rest := Strip(remaining[..at]), Strip(remaining[at..]);
        Ahead(pieces, [head], Segmentation.SplitAtWord(language, maximumSegmentCharacters, rest));
        pieces := pieces + [head];
        remaining := rest;
      }
      SplitShortSegment(language, maximumSegmentCharacters, remaining);
      assert pieces + [] == pieces;
      if remaining != "" { pieces := pieces + [remaining]; }
    }

    method SplitLongSegment(text: string) returns (pieces: seq<string>)
      requires maximumSegmentCharacters >= 1 && NoLeadingBlank(text)
      ensures pieces == SplitSegment(language, maximumSegmentCharacters, text)
    {
      hide Segmentation.SplitAtWord, Strip, Clauses;
      if |text| <= maximumSegmentCharacters { return [text]; }
      var clauses := Clauses(text);
      if |clauses| <= 1 {
        pieces := SplitAtWord(text);
        return;
      }
      pieces := [];
      var pending := "";
      for i := 0 to |clauses|
        invariant NoLeadingBlank(pending)
        invariant pieces + Pack(language, maximumSegmentCharacters, pending, clauses[i..])
                  == Pack(language, maximumSegmentCharacters, "", clauses)
      {
        var clause := clauses[i];
        assert clause in clauses && clauses[i..][0] == clause && clauses[i..][1..] == clauses[i + 1..];
        var candidate := Strip(pending + " " + clause);
        StripEnds(pending + " " + clause);
        if pending != "" && |candidate| > maximumSegmentCharacters {
          var packed := SplitAtWord(pending);
          ghost var more := Pack(language, maximumSegmentCharacters, clause, clauses[i + 1..]);
          assert pieces + (packed + more) == pieces + packed + more;
          pieces := pieces + packed;
          pending := clause;
        } else {
          pending := candidate;
        }
      }
      if pending != "" {
        var packed := SplitAtWord(pending);
        pieces := pieces + packed;
      } else {
        assert pieces + [] == pieces;
      }
    }

    method Plan(text: string) returns (result: Result<seq<string>, string>)
      requires maximumSegmentCharacters >= 1
      ensures result == Segmentation.Plan(language, maximumSegmentCharacters, text)
    {
      hide Sentences, Strip, SplitSegment, Spaced, Words;
      var clean := Spaced(Words(text));
      if clean == "" { return Err("text must not be empty"); }
      var sentences := SplitTtsSentences(language, clean);
      var segments: seq<string> := [];
      for i := 0 to |sentences|
        invariant segments == PlanEach(language, maximumSegmentCharacters, sentences[..i])
      {
        assert sentences[..i + 1][..i] == sentences[..i];
        StripEnds(sentences[i]);
        var pieces := SplitLongSegment(Strip(sentences[i]));
        ghost var before := segments;
        for k := 0 to |pieces|
          invariant segments == before + NonEmpty(pieces[..k])
        {
          assert pieces[..k + 1][..k] == pieces[..k];
          if pieces[k] != "" { segments := segments + [pieces[k]]; }
        }
        assert pieces[..|pieces|] == pieces;
      }
      assert sentences[..|sentences|] == sentences;
      result := Ok(segments);
    }
  }
}

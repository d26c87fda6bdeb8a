/** No stage between the model's text and the speech segments loses, adds or reorders a character. */
module SegmentationTheorems {
  import opened Text
  import opened Segmentation

  /** Everything but the blanks of a list of pieces, in order. */
  function SolidOf(pieces: seq<string>): string {
    if pieces == [] then "" else SolidOf(pieces[..|pieces| - 1]) + Solid(pieces[|pieces| - 1])
  }

  lemma SolidOne(piece: string)
    ensures SolidOf([piece]) == Solid(piece)
  {
    assert [piece][..0] == [];
  }

  lemma {:induction false} SolidOfConcat(a: seq<string>, b: seq<string>)
    ensures SolidOf(a + b) == SolidOf(a) + SolidOf(b)
  {
    if b == [] {
      assert a + b == a;
    } else {
      assert (a + b)[..|a + b| - 1] == a + b[..|b| - 1];
      SolidOfConcat(a, b[..|b| - 1]);
    }
  }

  lemma SolidCons(piece: string, rest: seq<string>)
    ensures SolidOf([piece] + rest) == Solid(piece) + SolidOf(rest)
  {
    SolidOfConcat([piece], rest);
    SolidOne(piece);
  }

  /** Blanks between two positions do not count. */
  lemma {:induction false} SolidBlanks(text: string)
    requires forall k | 0 <= k < |text| :: Blank(text[k])
    ensures Solid(text) == ""
  {
    if text != "" { SolidBlanks(text[1..]); }
  }

  lemma SolidSplit(text: string, i: nat, j: nat)
    requires i <= j <= |text| && forall k | i <= k < j :: Blank(text[k])
    ensures Solid(text) == Solid(text[..i]) + Solid(text[j..])
  {
    hide Solid, Blank;
    var blanks := text[i..j];
    assert forall k | 0 <= k < |blanks| :: blanks[k] == text[i + k];
    SolidBlanks(blanks);
    SolidAround(text[..i], blanks, text[j..]);
    assert text[..i] + (blanks + text[j..]) == text by { ThreeParts(text, i, j); }
  }

  lemma ThreeParts(text: string, i: nat, j: nat)
    requires i <= j <= |text|
    ensures text[..i] + (text[i..j] + text[j..]) == text
  {
    assert text[i..j] + text[j..] == text[i..];
  }

  lemma SolidAround(a: string, blanks: string, b: string)
    requires Solid(blanks) == ""
    ensures Solid(a + (blanks + b)) == Solid(a) + Solid(b)
  {
    hide Solid;
    SolidAppend(a, blanks + b);
    SolidAppend(blanks, b);
  }

  /** All pieces are at most `n` characters long. */
  ghost predicate Within(pieces: seq<string>, n: nat) { forall p | p in pieces :: |p| <= n }

  // ----- fragments -----

  /** A stripped head, the blanks behind it and the rest are the whole text. */
  lemma HeadKeeps(text: string, i: nat, j: nat, rest: seq<string>)
    requires i <= j <= |text| && forall k | i <= k < j :: Blank(text[k])
    ensures var head := Strip(text[..i]);
      SolidOf((if head != "" then [head] else []) + rest) == Solid(text[..i]) + SolidOf(rest)
    ensures Solid(text) == Solid(text[..i]) + Solid(text[j..])
  {
    hide Strip, SolidOf, Solid;
    SolidSplit(text, i, j);
    SolidStrip(text[..i]);
    NothingSolid();
    var head := Strip(text[..i]);
    if head != "" { SolidCons(head, rest); } else { assert [] + rest == rest && "" + SolidOf(rest) == SolidOf(rest); }
  }

  /** Taking stable sentences keeps every character, and leaves no complete sentence behind. */
  lemma {:induction false} StableKeeps(lang: Language, text: string)
    ensures var (fragments, pending) := TakeStable(lang, text);
      && SolidOf(fragments) + Solid(pending) == Solid(text)
      && FirstEnd(lang, pending, 0, true).None?
    decreases |text|
  {
    hide Strip, SolidOf, Solid, SkipBlanks;
    var end := FirstEnd(lang, text, 0, true);
    NothingSolid();
    if end.None? {
      assert SolidOf([]) + Solid(text) == Solid(text);
    } else {
      var i, j := end.value + 1, SkipBlanks(text, end.value + 1);
      StableKeeps(lang, text[j..]);
      var (rest, pending) := TakeStable(lang, text[j..]);
      HeadKeeps(text, i, j, rest);
      Regroup(Solid(text[..i]), SolidOf(rest), Solid(pending));
    }
  }

  lemma NothingSolid()
    ensures SolidOf([]) == "" && Solid("") == ""
  {
  }

  /** Splitting a complete text keeps every character. */
  lemma {:induction false} SentencesKeep(lang: Language, text: string)
    ensures SolidOf(Sentences(lang, text)) == Solid(text)
    decreases |text|
  {
    hide Strip, SolidOf, Solid, SkipBlanks;
    NothingSolid();
    if text != "" {
      var end := FirstEnd(lang, text, 0, false);
      if end.None? {
        SolidOne(text);
      } else {
        var i, j := end.value + 1, SkipBlanks(text, end.value + 1);
        SolidStrip(text[j..]);
        SentencesKeep(lang, Strip(text[j..]));
        HeadKeeps(text, i, j, Sentences(lang, Strip(text[j..])));
      }
    }
  }

  lemma WithinNothing(n: nat)
    ensures Within([], n)
  {
  }

  lemma Regroup(a: string, b: string, c: string)
    ensures a + b + c == a + (b + c)
  {
  }

  lemma CutKeeps(text: string, at: nat, rest: seq<string>, pending: string, tail: string)
    requires at <= |text| && SolidOf(rest) + Solid(pending) == Solid(tail) && Solid(tail) == Solid(text[at..])
    ensures SolidOf([Strip(text[..at])] + rest) + Solid(pending) == Solid(text)
  {
    hide Strip, SolidOf, Solid;
    var head := Strip(text[..at]);
    SolidCons(head, rest);
    SolidStrip(text[..at]);
    SolidAppend(text[..at], text[at..]);
    assert text[..at] + text[at..] == text;
    Regroup(Solid(head), SolidOf(rest), Solid(pending));
  }

  lemma {:induction false} SplitLongKeeps(lang: Language, text: string)
    ensures SolidOf(SplitLong(lang, text)) == Solid(text) && Within(SplitLong(lang, text), 220)
    decreases |text|
  {
    hide Strip, StripLeft, SolidOf, SafeWordSplit;
    NothingSolid();
    if |text| > 220 {
      var at := SafeWordSplit(lang, text, 120, 220);
      SolidStripLeft(text[at..]);
      SplitLongKeeps(lang, StripLeft(text[at..]));
      SolidStrip(text[..at]);
      CutKeeps(text, at, SplitLong(lang, StripLeft(text[at..])), "", StripLeft(text[at..]));
    } else if text != "" {
      SolidOne(text);
    }
  }

  lemma {:induction false} SplitEachKeeps(lang: Language, fragments: seq<string>)
    ensures SolidOf(SplitEach(lang, fragments)) == SolidOf(fragments) && Within(SplitEach(lang, fragments), 220)
  {
    hide SplitLong;
    if fragments != [] {
      var front, last := fragments[..|fragments| - 1], fragments[|fragments| - 1];
      SplitEachKeeps(lang, front);
      SplitLongKeeps(lang, last);
      SolidOfConcat(SplitEach(lang, front), SplitLong(lang, last));
    }
  }

  lemma {:induction false} CutPendingKeeps(lang: Language, pending: string)
    ensures var (cut, rest) := CutPending(lang, pending);
      SolidOf(cut) + Solid(rest) == Solid(pending) && Within(cut, 220) && |rest| < 220
    decreases |pending|
  {
    hide Strip, StripLeft, SolidOf, SafeWordSplit;
    NothingSolid();
    if |pending| >= 220 {
      var at := SafeWordSplit(lang, pending, 120, 220);
      SolidStripLeft(pending[at..]);
      CutPendingKeeps(lang, StripLeft(pending[at..]));
      SolidStrip(pending[..at]);
      var (cut, rest) := CutPending(lang, StripLeft(pending[at..]));
      CutKeeps(pending, at, cut, rest, StripLeft(pending[at..]));
    }
  }

  lemma WithinConcat(a: seq<string>, b: seq<string>, n: nat)
    requires Within(a, n) && Within(b, n)
    ensures Within(a + b, n)
  {
  }

  lemma BoundariesKeep(lang: Language, text: string)
    ensures var (fragments, pending) := TakeBoundaries(lang, text);
      SolidOf(fragments) + Solid(pending) == Solid(text) && Within(fragments, 220) && |pending| < 220
  {
    hide SolidOf, Solid, Within, TakeStable, SplitEach, CutPending;
    var (stable, pending) := TakeStable(lang, text);
    StableKeeps(lang, text);
    SplitEachKeeps(lang, stable);
    CutPendingKeeps(lang, pending);
    var (cut, rest) := CutPending(lang, pending);
    SolidOfConcat(SplitEach(lang, stable), cut);
    Regroup(SolidOf(stable), SolidOf(cut), Solid(rest));
    WithinConcat(SplitEach(lang, stable), cut, 220);
  }

  function Joined(deltas: seq<string>): string {
    if deltas == [] then "" else Joined(deltas[..|deltas| - 1]) + deltas[|deltas| - 1]
  }

  /**
   * For every chopping of a model's text into deltas, the fragments and the pending text hold
   * exactly its characters other than blanks, in order; fragments have at most 220 characters and
   * what is pending fewer.
   */
  lemma {:induction false} StreamKeeps(lang: Language, deltas: seq<string>)
    ensures var (fragments, pending) := Stream(lang, deltas);
      SolidOf(fragments) + Solid(pending) == Solid(Joined(deltas)) && Within(fragments, 220) && |pending| < 220
  {
    hide SolidOf, Solid, TakeBoundaries, Within;
    if deltas == [] {
      NothingSolid();
      assert SolidOf([]) + Solid("") == Solid("");
      assert Within([], 220) by { WithinNothing(220); }
    } else {
      var front, delta := deltas[..|deltas| - 1], deltas[|deltas| - 1];
      StreamKeeps(lang, front);
      var (fragments, pending) := Stream(lang, front);
      SolidAppend(Joined(front), delta);
      SolidAppend(pending, delta);
      if delta == "" {
        assert Joined(front) + delta == Joined(front);
      } else {
        BoundariesKeep(lang, pending + delta);
        var (ready, rest) := TakeBoundaries(lang, pending + delta);
        SolidOfConcat(fragments, ready);
        Regroup(SolidOf(fragments), SolidOf(ready), Solid(rest));
        Regroup(SolidOf(fragments), Solid(pending), Solid(delta));
        WithinConcat(fragments, ready, 220);
      }
    }
  }

  /** At the end everything has been spoken. */
  lemma SpokenKeeps(lang: Language, deltas: seq<string>)
    ensures SolidOf(Spoken(lang, deltas)) == Solid(Joined(deltas)) && Within(Spoken(lang, deltas), 220)
  {
    hide SolidOf, Solid, Stream, Strip;
    var (fragments, pending) := Stream(lang, deltas);
    StreamKeeps(lang, deltas);
    SolidStrip(pending);
    NothingSolid();
    SolidOne(Strip(pending));
    SolidOfConcat(fragments, [Strip(pending)]);
    assert fragments + [] == fragments;
  }

  // ----- the review -----

  /** Neither the guard nor the pattern of the disclosure check takes anything out of a fragment. */
  predicate Leaves(r: Review, disclosed: bool, fragment: string) {
    Strip(r.guard(fragment)) == Strip(fragment)
    && (r.Checks(disclosed) ==> r.without(Strip(fragment)) == Strip(fragment))
  }

  /** The disclosure check takes a comma off. */
  predicate Trims(r: Review, disclosed: bool, fragment: string) {
    r.Checks(disclosed) && OuterComma(Strip(fragment))
  }

  predicate LeavesAll(r: Review, disclosed: bool, fragments: seq<string>) {
    forall i | 0 <= i < |fragments| :: Leaves(r, disclosed || i > 0, fragments[i])
  }

  predicate TrimsNone(r: Review, disclosed: bool, fragments: seq<string>) {
    forall i | 0 <= i < |fragments| :: !Trims(r, disclosed || i > 0, fragments[i])
  }

  /** What is to be said of fragments: the introduction, if it is due, and their characters. */
  function Said(disclosed: bool, fragments: seq<string>): string {
    (if !disclosed && fragments != [] then Solid(DISCLOSURE) else "") + SolidOf(fragments)
  }

  lemma SaidNext(disclosed: bool, front: seq<string>, last: string)
    ensures Said(disclosed, front + [last])
            == Said(disclosed, front) + ((if disclosed || front != [] then "" else Solid(DISCLOSURE)) + Solid(last))
  {
    hide Solid, SolidOf;
    SolidOfConcat(front, [last]);
    SolidOne(last);
    NothingSolid();
  }

  /** `spoken` is `said` itself, or `said` without some commas. */
  predicate SaidButCommas(spoken: string, said: string, whole: bool) {
    FewerCommas(spoken, said) && if whole then spoken == said else |spoken| < |said|
  }

  lemma ButCommasAppend(spoken: string, said: string, whole: bool, spoken': string, said': string, whole': bool)
    requires SaidButCommas(spoken, said, whole) && SaidButCommas(spoken', said', whole')
    ensures SaidButCommas(spoken + spoken', said + said', whole && whole')
  {
    hide Wordy;
    WordyAppend(spoken, spoken');
    WordyAppend(said, said');
  }

  lemma Introduces(remainder: string)
    ensures Solid(if remainder == "" then DISCLOSURE else DISCLOSURE + " " + remainder)
            == Solid(DISCLOSURE) + Solid(remainder)
  {
    hide Solid;
    NothingSolid();
    SolidAppend(DISCLOSURE, " " + remainder);
    SolidAppend(" ", remainder);
    assert Solid(" ") == "" by { BlankSolid(); }
    assert DISCLOSURE + " " + remainder == DISCLOSURE + (" " + remainder);
  }

  lemma PassedKeeps(r: Review, disclosed: bool, fragment: string)
    requires Leaves(r, disclosed, fragment)
    ensures SaidButCommas(Solid(r.Passed(disclosed, fragment)),
                          (if disclosed then "" else Solid(DISCLOSURE)) + Solid(fragment),
                          !Trims(r, disclosed, fragment))
  {
    hide Solid, Strip, StripSeparators, Wordy;
    var text := Strip(fragment);
    SolidStrip(fragment);
    StripEnds(fragment);
    SeparatorsGo(text);
    var introduction := if disclosed then "" else Solid(DISCLOSURE);
    var kept := if r.Checks(disclosed) then Solid(StripSeparators(text)) else Solid(text);
    Introduces(StripSeparators(text));
    assert "" + kept == kept;
    ButCommasAppend(introduction, introduction, true, kept, Solid(text), !Trims(r, disclosed, fragment));
  }

  /**
   * A review whose guard and pattern take nothing out adds the introduction once, if it is due. It
   * loses at most commas, and it loses none if and only if no fragment that the disclosure check
   * looks at begins or ends with one.
   */
  lemma {:induction false} ReviewedKeeps(r: Review, disclosed: bool, fragments: seq<string>)
    requires LeavesAll(r, disclosed, fragments)
    ensures SaidButCommas(SolidOf(Reviewed(r, disclosed, fragments)), Said(disclosed, fragments),
                          TrimsNone(r, disclosed, fragments))
  {
    hide Solid, SolidOf, Wordy, Review.Passed, Leaves, Trims;
    if fragments == [] {
      NothingSolid();
    } else {
      var front, last := fragments[..|fragments| - 1], fragments[|fragments| - 1];
      assert fragments == front + [last];
      ReviewedKeeps(r, disclosed, front);
      var told := disclosed || front != [];
      PassedKeeps(r, told, last);
      var passed := r.Passed(told, last);
      ReviewedLast(r, disclosed, front, last);
      SaidNext(disclosed, front, last);
      TrimsNext(r, disclosed, front, last);
      ButCommasAppend(SolidOf(Reviewed(r, disclosed, front)), Said(disclosed, front), TrimsNone(r, disclosed, front),
                      Solid(passed), (if told then "" else Solid(DISCLOSURE)) + Solid(last), !Trims(r, told, last));
    }
  }

  lemma ReviewedLast(r: Review, disclosed: bool, front: seq<string>, last: string)
    ensures SolidOf(Reviewed(r, disclosed, front + [last]))
            == SolidOf(Reviewed(r, disclosed, front)) + Solid(r.Passed(disclosed || front != [], last))
  {
    hide Solid, SolidOf, Review.Passed;
    var passed := r.Passed(disclosed || front != [], last);
    assert (front + [last])[..|front|] == front;
    NothingSolid();
    SolidOne(passed);
    SolidOfConcat(Reviewed(r, disclosed, front), if passed == "" then [] else [passed]);
  }

  lemma TrimsNext(r: Review, disclosed: bool, front: seq<string>, last: string)
    ensures TrimsNone(r, disclosed, front + [last])
            <==> TrimsNone(r, disclosed, front) && !Trims(r, disclosed || front != [], last)
  {
    hide Trims;
    var all := front + [last];
    assert all[|front|] == last && forall i | 0 <= i < |front| :: all[i] == front[i];
  }

  /**
   * A response always says something. Where the guard and the pattern take nothing out it says
   * exactly the model's characters other than blanks, in order, behind the introduction if that was
   * due, or asks back where that would be nothing: if and only if no fragment that is checked has an
   * outer comma.
   */
  lemma ResponseKeeps(lang: Language, r: Review, disclosed: bool, deltas: seq<string>)
    ensures SolidOf(Response(lang, r, disclosed, deltas)) != ""
    ensures LeavesAll(r, disclosed, Spoken(lang, deltas)) ==>
              var said := Said(disclosed, Spoken(lang, deltas));
              && said == (if !disclosed && Spoken(lang, deltas) != [] then Solid(DISCLOSURE) else "") + Solid(Joined(deltas))
              && (SolidOf(Response(lang, r, disclosed, deltas)) == OrQuestion(said)
                  <==> TrimsNone(r, disclosed, Spoken(lang, deltas)))
  {
    hide Solid, Strip, SolidOf, Spoken, Reviewed, LeavesAll, TrimsNone, SaidButCommas;
    var fragments := Spoken(lang, deltas);
    var reviewed := Reviewed(r, disclosed, fragments);
    SpokenKeeps(lang, deltas);
    AsksBack();
    Answered(reviewed);
    if LeavesAll(r, disclosed, fragments) {
      ReviewedKeeps(r, disclosed, fragments);
      AnsweredExactly(SolidOf(reviewed), Said(disclosed, fragments), TrimsNone(r, disclosed, fragments));
    }
  }

  /** A comma before a cut is the last character of its fragment, so that the disclosure check takes it off. */
  lemma CutComma(lang: Language, r: Review, disclosed: bool, text: string)
    requires |text| > 220 && text[SafeWordSplit(lang, text, 120, 220) - 1] == ',' && r.Checks(disclosed)
    ensures Trims(r, disclosed, SplitLong(lang, text)[0])
  {
    hide Strip, StripLeft, SafeWordSplit;
    var head := text[..SafeWordSplit(lang, text, 120, 220)];
    StripAgain(head);
    StripKeepsLast(head);
  }

  function OrQuestion(said: string): string { if said == "" then Solid(NOTHING_SAID) else said }

  lemma Answered(reviewed: seq<string>)
    ensures SolidOf(reviewed + (if Strip(Spaced(reviewed)) == "" then [NOTHING_SAID] else [])) == OrQuestion(SolidOf(reviewed))
  {
    hide Solid, Strip, SolidOf, Spaced;
    SpacedKeeps(reviewed);
    SolidOne(NOTHING_SAID);
    StrippedSolid(Spaced(reviewed));
    SolidOfConcat(reviewed, [NOTHING_SAID]);
    assert reviewed + [] == reviewed;
  }

  /** Text of commas alone is not the question. */
  lemma AnsweredExactly(spoken: string, said: string, whole: bool)
    requires SaidButCommas(spoken, said, whole)
    ensures OrQuestion(spoken) == OrQuestion(said) <==> whole
  {
    hide Solid, Wordy;
    AsksBack();
    NothingWordy();
  }

  lemma NothingWordy()
    ensures Wordy("") == ""
  {
  }

  lemma AsksBack()
    ensures Solid(NOTHING_SAID) != "" && Wordy(Solid(NOTHING_SAID)) != ""
  {
    hide Solid, Wordy;
    var front := NOTHING_SAID[..|NOTHING_SAID| - 1];
    assert NOTHING_SAID == front + ['?'];
    LastStays(front, '?');
  }

  lemma LastStays(front: string, c: char)
    requires !Blank(c) && c != ','
    ensures Solid(front + [c]) != "" && Wordy(Solid(front + [c])) != ""
  {
    hide Solid;
    SolidAppend(front, [c]);
    OneSolid(c);
    WordyAppend(Solid(front), [c]);
  }

  lemma OneSolid(c: char)
    requires !Blank(c)
    ensures Solid([c]) == [c]
  {
    assert [c][..0] == "";
  }

  /** Only blanks are stripped to nothing. */
  lemma StrippedSolid(text: string)
    ensures Strip(text) == "" <==> Solid(text) == ""
  {
    hide Strip, Solid;
    SolidStrip(text);
    StripEnds(text);
    var s := Strip(text);
    if s != "" {
      assert s == [s[0]] + s[1..];
      SolidAppend([s[0]], s[1..]);
      OneSolid(s[0]);
    } else {
      NothingSolid();
    }
  }

  // ----- segments -----

  lemma {:induction false} WordsKeep(text: string)
    ensures SolidOf(Words(text)) == Solid(text)
    decreases |text|
  {
    hide SolidOf, Solid, SkipBlanks;
    NothingSolid();
    var start := SkipBlanks(text, 0);
    SolidSplit(text, 0, start);
    assert text[..0] == "" && "" + Solid(text[start..]) == Solid(text[start..]);
    if start < |text| {
      var end := WordStop(text, start);
      WordsKeep(text[end..]);
      SolidCons(text[start..end], Words(text[end..]));
      SolidAppend(text[start..end], text[end..]);
      assert text[start..end] + text[end..] == text[start..];
    } else {
      assert text[start..] == "";
    }
  }

  lemma BlankSolid()
    ensures Solid(" ") == ""
  {
    SolidBlanks(" ");
  }

  lemma SolidOfLast(pieces: seq<string>)
    requires pieces != []
    ensures SolidOf(pieces) == SolidOf(pieces[..|pieces| - 1]) + Solid(pieces[|pieces| - 1])
  {
  }

  lemma {:induction false} SpacedKeeps(words: seq<string>)
    ensures Solid(Spaced(words)) == SolidOf(words)
  {
    hide SolidOf, Solid;
    NothingSolid();
    if |words| == 1 {
      SolidOne(words[0]);
      assert words == [words[0]];
    } else if words != [] {
      var front, last := words[..|words| - 1], words[|words| - 1];
      SpacedKeeps(front);
      SolidAppend(Spaced(front), " ");
      SolidAppend(Spaced(front) + " ", last);
      assert Solid(" ") == "" by { BlankSolid(); }
      assert Solid(Spaced(front)) + "" == Solid(Spaced(front));
      SolidOfLast(words);
    }
  }

  lemma {:induction false} SplitAtWordKeeps(lang: Language, maximum: nat, text: string)
    requires maximum >= 1 && NoLeadingBlank(text)
    ensures SolidOf(SplitAtWord(lang, maximum, text)) == Solid(text)
    ensures Within(SplitAtWord(lang, maximum, text), maximum)
    decreases |text|
  {
    hide Strip, SolidOf, SafeWordSplit, Min;
    NothingSolid();
    if |text| > maximum {
      var at := SafeWordSplit(lang, text, Min(80, maximum / 2), maximum);
      SolidStrip(text[at..]);
      StripEnds(text[at..]);
      SplitAtWordKeeps(lang, maximum, Strip(text[at..]));
      SolidStrip(text[..at]);
      CutKeeps(text, at, SplitAtWord(lang, maximum, Strip(text[at..])), "", Strip(text[at..]));
    } else if text != "" {
      SolidOne(text);
    }
  }

  lemma {:induction false} ClausesKeep(text: string)
    ensures SolidOf(Clauses(text)) == Solid(text)
    decreases |text|
  {
    hide Strip, SolidOf, Solid, SkipBlanks;
    NothingSolid();
    if text != "" {
      var end := NextClauseEnd(text, 1);
      var j := SkipBlanks(text, end);
      ClausesKeep(text[j..]);
      HeadKeeps(text, end, j, Clauses(text[j..]));
    }
  }

  lemma CandidateKeeps(pending: string, clause: string)
    ensures Solid(Strip(pending + " " + clause)) == Solid(pending) + Solid(clause)
  {
    hide Strip;
    SolidStrip(pending + " " + clause);
    SolidAppend(pending + " ", clause);
    SolidAppend(pending, " ");
  }

  lemma {:induction false} PackKeeps(lang: Language, maximum: nat, pending: string, clauses: seq<string>)
    requires maximum >= 1 && NoLeadingBlank(pending) && Tight(clauses)
    ensures SolidOf(Pack(lang, maximum, pending, clauses)) == Solid(pending) + SolidOf(clauses)
    ensures Within(Pack(lang, maximum, pending, clauses), maximum)
    decreases clauses
  {
    hide Strip, SolidOf, Solid, SplitAtWord;
    NothingSolid();
    if clauses == [] {
      if pending != "" { SplitAtWordKeeps(lang, maximum, pending); }
    } else {
      var candidate := Strip(pending + " " + clauses[0]);
      StripEnds(pending + " " + clauses[0]);
      SolidCons(clauses[0], clauses[1..]);
      assert [clauses[0]] + clauses[1..] == clauses;
      if pending != "" && |candidate| > maximum {
        SplitAtWordKeeps(lang, maximum, pending);
        PackKeeps(lang, maximum, clauses[0], clauses[1..]);
        SolidOfConcat(SplitAtWord(lang, maximum, pending), Pack(lang, maximum, clauses[0], clauses[1..]));
      } else {
        CandidateKeeps(pending, clauses[0]);
        PackKeeps(lang, maximum, candidate, clauses[1..]);
      }
    }
  }

  lemma SplitSegmentKeeps(lang: Language, maximum: nat, text: string)
    requires maximum >= 1 && NoLeadingBlank(text)
    ensures SolidOf(SplitSegment(lang, maximum, text)) == Solid(text)
    ensures Within(SplitSegment(lang, maximum, text), maximum)
  {
    hide SolidOf, Pack, SplitAtWord, Clauses;
    SolidOne(text);
    ClausesKeep(text);
    PackKeeps(lang, maximum, "", Clauses(text));
    SplitAtWordKeeps(lang, maximum, text);
    NothingSolid();
  }

  lemma {:induction false} NonEmptyKeeps(pieces: seq<string>, maximum: nat)
    requires Within(pieces, maximum)
    ensures SolidOf(NonEmpty(pieces)) == SolidOf(pieces) && Within(NonEmpty(pieces), maximum)
    ensures "" !in NonEmpty(pieces)
  {
    hide SolidOf, Solid;
    if pieces != [] {
      var front, last := pieces[..|pieces| - 1], pieces[|pieces| - 1];
      assert forall p | p in front :: p in pieces;
      assert last in pieces;
      NonEmptyKeeps(front, maximum);
      SolidOfLast(pieces);
      if last != "" {
        SolidOne(last);
        SolidOfConcat(NonEmpty(front), [last]);
      } else {
        NothingSolid();
        assert SolidOf(front) + "" == SolidOf(front) && NonEmpty(front) + [] == NonEmpty(front);
      }
    } else {
      NothingSolid();
    }
  }

  lemma {:induction false} PlanEachKeeps(lang: Language, maximum: nat, sentences: seq<string>)
    requires maximum >= 1
    ensures SolidOf(PlanEach(lang, maximum, sentences)) == SolidOf(sentences)
    ensures Within(PlanEach(lang, maximum, sentences), maximum) && "" !in PlanEach(lang, maximum, sentences)
  {
    hide SplitSegment, NonEmpty, Strip;
    if sentences != [] {
      var front, last := sentences[..|sentences| - 1], sentences[|sentences| - 1];
      PlanEachKeeps(lang, maximum, front);
      StripEnds(last);
      SolidStrip(last);
      SplitSegmentKeeps(lang, maximum, Strip(last));
      NonEmptyKeeps(SplitSegment(lang, maximum, Strip(last)), maximum);
      SolidOfConcat(PlanEach(lang, maximum, front), NonEmpty(SplitSegment(lang, maximum, Strip(last))));
    }
  }

  /**
   * Planning keeps every character other than blanks, in order; segments are neither empty nor
   * longer than the maximum; and a text is refused exactly when it has no such character.
   */
  lemma PlanKeeps(lang: Language, maximum: nat, text: string)
    requires maximum >= 1
    ensures Plan(lang, maximum, text).Err? <==> Solid(text) == ""
    ensures Plan(lang, maximum, text).Ok? ==>
              var segments := Plan(lang, maximum, text).value;
              SolidOf(segments) == Solid(text) && Within(segments, maximum) && "" !in segments
  {
    hide SolidOf, Sentences, PlanEach, Words, Spaced, Strip;
    var clean := Spaced(Words(text));
    WordsKeep(text);
    SpacedKeeps(Words(text));
    SpacedEmpty(text);
    SolidStrip(clean);
    SentencesKeep(lang, Strip(clean));
    PlanEachKeeps(lang, maximum, Sentences(lang, Strip(clean)));
  }

  lemma SpacedEmpty(text: string)
    ensures Spaced(Words(text)) == "" <==> Solid(text) == ""
  {
    WordsKeep(text);
    SpacedKeeps(Words(text));
    NothingSolid();
    if Spaced(Words(text)) != "" && Words(text) != [] {
      var start := SkipBlanks(text, 0);
      SolidSplit(text, 0, start);
      assert text[start..][0] == text[start];
    }
  }

  /** From the model's deltas to the segments: nothing that the response says is lost, added or reordered. */
  lemma PipelineKeeps(lang: Language, r: Review, disclosed: bool, maximum: nat, deltas: seq<string>)
    requires maximum >= 1
    ensures var segments := Planned(lang, maximum, Response(lang, r, disclosed, deltas));
      && Within(segments, maximum)
      && SolidOf(segments) == SolidOf(Response(lang, r, disclosed, deltas)) != ""
      && (LeavesAll(r, disclosed, Spoken(lang, deltas)) && Said(disclosed, Spoken(lang, deltas)) != "" ==>
            (SolidOf(segments) == Said(disclosed, Spoken(lang, deltas)) <==> TrimsNone(r, disclosed, Spoken(lang, deltas))))
  {
    hide Response, Planned, SolidOf, Solid, LeavesAll, TrimsNone, Said;
    ResponseKeeps(lang, r, disclosed, deltas);
    PlannedKeeps(lang, maximum, Response(lang, r, disclosed, deltas));
  }

  /** The segments of all fragments; a fragment without words has none. */
  function Planned(lang: Language, maximum: nat, fragments: seq<string>): seq<string>
    requires maximum >= 1
  {
    if fragments == [] then []
    else
      var plan := Plan(lang, maximum, fragments[|fragments| - 1]);
      Planned(lang, maximum, fragments[..|fragments| - 1]) + (if plan.Ok? then plan.value else [])
  }

  lemma {:induction false} PlannedKeeps(lang: Language, maximum: nat, fragments: seq<string>)
    requires maximum >= 1
    ensures SolidOf(Planned(lang, maximum, fragments)) == SolidOf(fragments)
    ensures Within(Planned(lang, maximum, fragments), maximum)
  {
    hide Plan;
    if fragments != [] {
      var front, last := fragments[..|fragments| - 1], fragments[|fragments| - 1];
      PlannedKeeps(lang, maximum, front);
      PlanKeeps(lang, maximum, last);
      var plan := Plan(lang, maximum, last);
      SolidOfConcat(Planned(lang, maximum, front), if plan.Ok? then plan.value else []);
    }
  }

  /** What is left of a text after some rounds of the word split; its loop ends when that is short enough. */
  function RestAfter(lang: Language, maximum: nat, text: string, rounds: nat): string {
    if rounds == 0 then text
    else
      var rest := RestAfter(lang, maximum, text, rounds - 1);
      if |rest| <= maximum then rest
      else Strip(rest[SafeWordSplit(lang, rest, Min(80, maximum / 2), maximum)..])
  }

  lemma RoundShrinks(lang: Language, maximum: nat, text: string)
    requires maximum >= 1 && |text| > maximum && NoLeadingBlank(text)
    ensures |Strip(text[SafeWordSplit(lang, text, Min(80, maximum / 2), maximum)..])| < |text|
  {
    SolidStrip(text[SafeWordSplit(lang, text, Min(80, maximum / 2), maximum)..]);
  }

  lemma {:induction false} RoundsShrink(lang: Language, maximum: nat, text: string, rounds: nat)
    requires maximum >= 1 && NoLeadingBlank(text)
    ensures var rest := RestAfter(lang, maximum, text, rounds);
      NoLeadingBlank(rest) && (|rest| <= maximum || |rest| + rounds <= |text|)
  {
    hide SafeWordSplit, Strip;
    if rounds > 0 {
      RoundsShrink(lang, maximum, text, rounds - 1);
      var rest := RestAfter(lang, maximum, text, rounds - 1);
      if |rest| > maximum {
        RoundShrinks(lang, maximum, rest);
        StripEnds(rest[SafeWordSplit(lang, rest, Min(80, maximum / 2), maximum)..]);
      }
    }
  }

  lemma {:induction false} NothingLeaves(lang: Language, text: string, rounds: nat)
    requires text != "" && Strip(text) == text
    ensures RestAfter(lang, 0, text, rounds) == text
  {
    hide Strip;
    if rounds > 0 {
      NothingLeaves(lang, text, rounds - 1);
      assert SafeWordSplit(lang, text, Min(80, 0), 0) == 0 && text[0..] == text;
    }
  }

  /** The loop of the word split ends exactly when segments may hold a character or there is nothing to split. */
  lemma EndsExactly(lang: Language, maximum: nat, text: string)
    requires Strip(text) == text
    ensures (exists rounds :: |RestAfter(lang, maximum, text, rounds)| <= maximum) <==> maximum >= 1 || text == ""
  {
    hide Strip, RestAfter;
    StripEnds(text);
    if maximum >= 1 {
      RoundsShrink(lang, maximum, text, |text|);
      assert |RestAfter(lang, maximum, text, |text|)| <= maximum;
    } else if text == "" {
      assert RestAfter(lang, 0, "", 0) == "" by { NothingSplit(lang); }
      assert |RestAfter(lang, maximum, text, 0)| <= maximum;
    } else {
      forall rounds: nat ensures |RestAfter(lang, maximum, text, rounds)| > maximum { NothingLeaves(lang, text, rounds); }
    }
  }

  lemma NothingSplit(lang: Language)
    ensures RestAfter(lang, 0, "", 0) == ""
  {
  }
}

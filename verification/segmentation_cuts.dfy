/** Where texts are cut: at sentence ends, at permitted words, and never inside a clause that fits. */
module SegmentationCuts {
  import opened Domain
  import opened Text
  import opened Segmentation

  // ----- sentence ends -----

  /** The first position behind a candidate at which something other than a blank stands, or the end. */
  ghost predicate NextStart(text: string, i: nat, next: nat) {
    && i < next <= |text| && (forall k | i < k < next :: Blank(text[k]))
    && (next < |text| ==> !Blank(text[next]))
  }

  /** A mark with a blank or nothing behind it, unless it is a period that the language protects. */
  ghost predicate EndsSentence(lang: Language, text: string, i: nat, streaming: bool)
    requires i < |text|
  {
    && (text[i] == '.' || text[i] == '!' || text[i] == '?')
    && (i + 1 < |text| ==> Blank(text[i + 1]))
    && (text[i] == '.' ==> forall next: nat | NextStart(text, i, next) :: !lang.protectedPeriod(text, i, next, streaming))
  }

  lemma EndsIs(lang: Language, text: string, i: nat, streaming: bool)
    requires i < |text|
    ensures EndsSentence(lang, text, i, streaming) <==> Ends(lang, text, i, streaming)
  {
    var skip := SkipBlanks(text, i + 1);
    assert NextStart(text, i, skip);
    forall next: nat | NextStart(text, i, next) ensures next == skip { NextOnce(text, i, next, skip); }
  }

  lemma NextOnce(text: string, i: nat, a: nat, b: nat)
    requires NextStart(text, i, a) && NextStart(text, i, b)
    ensures a == b
  {
  }

  /** The scan finds the first sentence end, and none exactly when there is none. */
  lemma {:induction false} FirstEndExactly(lang: Language, text: string, i: nat, streaming: bool)
    requires i <= |text|
    ensures var end := FirstEnd(lang, text, i, streaming);
      && (end.Some? ==> EndsSentence(lang, text, end.value, streaming))
      && forall k | i <= k < (if end.Some? then end.value else |text|) :: !EndsSentence(lang, text, k, streaming)
    decreases |text| - i
  {
    hide EndsSentence, Ends;
    if i < |text| {
      EndsIs(lang, text, i, streaming);
      if !Ends(lang, text, i, streaming) { FirstEndExactly(lang, text, i + 1, streaming); }
    }
  }

  // ----- word ends -----

  /** A run of blanks begins here, and the language does not hold its sides together. */
  predicate MayCut(lang: Language, text: string, p: nat) {
    && p < |text| && Blank(text[p]) && (p > 0 ==> !Blank(text[p - 1]))
    && !lang.protectedJoin(text[..p], text[p..])
  }

  /** A cut is made at the last permitted place within the limits, or at the maximum where there is none. */
  ghost predicate CutsAt(lang: Language, text: string, minimum: nat, maximum: nat, at: nat) {
    if forall p: nat | minimum <= p <= maximum :: !MayCut(lang, text, p) then at == maximum
    else minimum <= at <= maximum && MayCut(lang, text, at) && forall p: nat | at < p <= maximum :: !MayCut(lang, text, p)
  }

  lemma MayCutIs(lang: Language, text: string, p: nat)
    requires p < |text|
    ensures MayCut(lang, text, p) <==> WordEnd(lang, text, p)
  {
  }

  /** The last permitted place up to `p`, or the maximum. */
  ghost predicate CutsUpTo(lang: Language, text: string, minimum: nat, p: int, maximum: nat, at: nat) {
    || (at == maximum && forall q: nat | minimum <= q <= p :: !MayCut(lang, text, q))
    || (minimum <= at <= p && MayCut(lang, text, at) && forall q: nat | at < q <= p :: !MayCut(lang, text, q))
  }

  lemma {:induction false} LastExactly(lang: Language, text: string, minimum: nat, p: int, maximum: nat)
    requires p < |text|
    ensures CutsUpTo(lang, text, minimum, p, maximum, LastWordEnd(lang, text, minimum, p, maximum))
    decreases p
  {
    hide MayCut, WordEnd;
    if p >= minimum {
      MayCutIs(lang, text, p);
      if !WordEnd(lang, text, p) {
        LastExactly(lang, text, minimum, p - 1, maximum);
        OneLess(lang, text, minimum, p, maximum, LastWordEnd(lang, text, minimum, p - 1, maximum));
      }
    }
  }

  lemma OneLess(lang: Language, text: string, minimum: nat, p: int, maximum: nat, at: nat)
    requires p >= minimum && !MayCut(lang, text, p) && CutsUpTo(lang, text, minimum, p - 1, maximum, at)
    ensures CutsUpTo(lang, text, minimum, p, maximum, at)
  {
    hide MayCut;
  }

  lemma WordSplitExactly(lang: Language, text: string, minimum: nat, maximum: nat)
    ensures CutsAt(lang, text, minimum, maximum, SafeWordSplit(lang, text, minimum, maximum))
  {
    hide LastWordEnd, MayCut;
    var p := if |text| <= maximum then |text| - 1 else maximum;
    LastExactly(lang, text, minimum, p, maximum);
    forall q: nat | q >= |text| ensures !MayCut(lang, text, q) { NoneBehind(lang, text, q); }
  }

  lemma NoneBehind(lang: Language, text: string, q: nat)
    requires q >= |text|
    ensures !MayCut(lang, text, q)
  {
  }

  /** Long sentences and long pending text are cut between 120 and 220, long segments from the smaller of 80 and the half on. */
  lemma FirstCuts(lang: Language, maximum: nat, text: string)
    requires maximum >= 1 && NoLeadingBlank(text)
    ensures |text| > 220 ==>
              exists at: nat :: CutsAt(lang, text, 120, 220, at) && SplitLong(lang, text)[0] == Strip(text[..at])
    ensures |text| >= 220 ==>
              exists at: nat :: at <= |text| && CutsAt(lang, text, 120, 220, at) && CutPending(lang, text).0[0] == Strip(text[..at])
    ensures |text| > maximum ==>
              exists least: nat, at: nat ::
                && least == (if maximum / 2 < 80 then maximum / 2 else 80) && at <= |text|
                && CutsAt(lang, text, least, maximum, at) && SplitAtWord(lang, maximum, text)[0] == Strip(text[..at])
  {
    hide CutsAt, SafeWordSplit, Strip;
    WordSplitExactly(lang, text, 120, 220);
    WordSplitExactly(lang, text, Min(80, maximum / 2), maximum);
  }

  // ----- clauses -----

  /** A blank behind a comma, a semicolon or a colon. */
  predicate BehindClause(text: string, i: nat)
    requires 0 < i < |text|
  {
    Blank(text[i]) && (text[i - 1] == ',' || text[i - 1] == ';' || text[i - 1] == ':')
  }

  lemma {:induction false} ClauseEndExactly(text: string, i: nat)
    requires 0 < i <= |text|
    ensures var end := NextClauseEnd(text, i);
      && i <= end <= |text| && (end < |text| ==> BehindClause(text, end))
      && forall k | i <= k < end :: !BehindClause(text, k)
    decreases |text| - i
  {
    if i < |text| && !ClauseEnd(text, i) { ClauseEndExactly(text, i + 1); }
  }

  /** A text that fits is one segment. */
  lemma ShortStays(lang: Language, maximum: nat, text: string)
    requires maximum >= 1 && NoLeadingBlank(text) && |text| <= maximum
    ensures SplitSegment(lang, maximum, text) == [text]
  {
  }

  predicate Trim(s: string) { s != "" && !Blank(s[0]) && !Blank(s[|s| - 1]) }

  predicate AllTrim(pieces: seq<string>) { forall i | 0 <= i < |pieces| :: Trim(pieces[i]) }

  lemma TrimStays(s: string)
    requires Trim(s)
    ensures Strip(s) == s && Strip(" " + s) == s
  {
    assert (" " + s)[1..] == s;
    assert StripLeft(s) == s;
  }

  lemma TrimTogether(a: seq<string>, b: seq<string>)
    requires AllTrim(a) && AllTrim(b)
    ensures AllTrim(a + b)
  {
  }

  /** A stripped clause, unless it is blank. */
  function Kept(clause: string): seq<string> { if Strip(clause) != "" then [Strip(clause)] else [] }

  lemma KeptTrims(clause: string)
    ensures AllTrim(Kept(clause))
  {
    StripEnds(clause);
  }

  lemma ClausesStep(text: string)
    requires text != ""
    ensures var end := NextClauseEnd(text, 1);
      var rest := text[SkipBlanks(text, end)..];
      |rest| < |text| && Clauses(text) == Kept(text[..end]) + Clauses(rest)
  {
    hide Strip, SkipBlanks, NextClauseEnd, Tight;
  }

  lemma {:induction false} ClausesTrim(text: string)
    ensures AllTrim(Clauses(text))
    decreases |text|
  {
    if text != "" {
      hide Clauses, Kept, AllTrim, SkipBlanks, NextClauseEnd, Tight;
      var end := NextClauseEnd(text, 1);
      var rest := text[SkipBlanks(text, end)..];
      ClausesStep(text);
      KeptTrims(text[..end]);
      ClausesTrim(rest);
      TrimTogether(Kept(text[..end]), Clauses(rest));
    }
  }

  /** What the packing makes of what is pending and the next clause. */
  lemma Joins(pending: string, clause: string)
    requires Trim(clause) && (pending == "" || Trim(pending))
    ensures Strip(pending + " " + clause) == if pending == "" then clause else pending + " " + clause
    ensures Trim(Strip(pending + " " + clause))
  {
    hide Strip;
    TrimStays(clause);
    var all := pending + " " + clause;
    if pending == "" {
      assert all == " " + clause;
    } else {
      assert all[0] == pending[0] && all[|all| - 1] == clause[|clause| - 1];
      TrimStays(all);
    }
  }

  /** `part` stands somewhere in `whole`. */
  ghost predicate Contains(whole: string, part: string) {
    exists i: nat :: StandsAt(whole, part, i)
  }

  predicate StandsAt(whole: string, part: string, i: nat) { i + |part| <= |whole| && whole[i..i + |part|] == part }

  lemma ContainsJoined(pending: string, clause: string, part: string)
    ensures Contains(pending, part) ==> Contains(pending + " " + clause, part)
    ensures Contains(pending + " " + clause, clause) && Contains(clause, clause)
  {
    var all := pending + " " + clause;
    if Contains(pending, part) {
      var i: nat :| StandsAt(pending, part, i);
      assert StandsAt(all, part, i);
    }
    assert StandsAt(all, clause, |pending| + 1);
    assert StandsAt(clause, clause, 0);
  }

  ghost predicate SomeContains(segments: seq<string>, part: string) {
    exists k :: 0 <= k < |segments| && Contains(segments[k], part)
  }

  lemma SomeJoined(a: seq<string>, b: seq<string>, part: string)
    requires SomeContains(a, part) || SomeContains(b, part)
    ensures SomeContains(a + b, part)
  {
    hide Contains;
    if SomeContains(a, part) {
      var k :| 0 <= k < |a| && Contains(a[k], part);
      assert (a + b)[k] == a[k];
    } else {
      var k :| 0 <= k < |b| && Contains(b[k], part);
      assert (a + b)[|a| + k] == b[k];
    }
  }

  lemma OneSegment(lang: Language, maximum: nat, text: string)
    requires maximum >= 1 && NoLeadingBlank(text) && text != "" && |text| <= maximum
    ensures SplitAtWord(lang, maximum, text) == [text]
  {
  }

  lemma {:induction false} PackKeepsWhole(lang: Language, maximum: nat, pending: string, clauses: seq<string>, clause: string)
    requires maximum >= 1 && NoLeadingBlank(pending) && Tight(clauses)
    requires (pending == "" || Trim(pending)) && AllTrim(clauses) && 1 <= |clause| <= maximum
    requires clause in clauses || (pending != "" && |pending| <= maximum && Contains(pending, clause))
    ensures SomeContains(Pack(lang, maximum, pending, clauses), clause)
    decreases clauses
  {
    hide Strip, SplitAtWord, Contains, SomeContains;
    if pending != "" && |pending| <= maximum {
      OneSegment(lang, maximum, pending);
      if Contains(pending, clause) { OneContains(pending, clause); }
    }
    if clauses != [] {
      var first, rest := clauses[0], clauses[1..];
      Joins(pending, first);
      ContainsJoined(pending, first, clause);
      ContainsJoined(pending, first, first);
      StripEnds(pending + " " + first);
      assert clause in clauses ==> clause == first || clause in rest;
      var candidate := Strip(pending + " " + first);
      if pending != "" && |candidate| > maximum {
        if clause in clauses { PackKeepsWhole(lang, maximum, first, rest, clause); }
        SomeJoined(SplitAtWord(lang, maximum, pending), Pack(lang, maximum, first, rest), clause);
      } else {
        PackKeepsWhole(lang, maximum, candidate, rest, clause);
      }
    }
  }

  lemma OneContains(text: string, part: string)
    requires Contains(text, part)
    ensures SomeContains([text], part)
  {
    hide Contains;
    assert [text][0] == text;
  }

  /** A clause that fits is never cut: it stands as a whole in one segment. */
  lemma ClauseStaysWhole(lang: Language, maximum: nat, text: string, clause: string)
    requires maximum >= 1 && NoLeadingBlank(text) && |text| > maximum
    requires |Clauses(text)| > 1 && clause in Clauses(text) && |clause| <= maximum
    ensures SomeContains(SplitSegment(lang, maximum, text), clause)
  {
    hide Clauses, Pack, SplitAtWord, SomeContains;
    ClausesTrim(text);
    PackKeepsWhole(lang, maximum, "", Clauses(text), clause);
  }

  /** Segments that stand next to each other would not have fitted together. */
  ghost predicate Greedy(segments: seq<string>, maximum: nat, clauses: seq<string>) {
    forall k | 0 < k < |segments| :: Crowded(segments[k - 1], segments[k], maximum, clauses)
  }

  /** Some clause that the right one begins with has no room behind the left one. */
  ghost predicate Crowded(left: string, right: string, maximum: nat, clauses: seq<string>) {
    exists c: string :: c in clauses && NoRoom(left, right, maximum, c)
  }

  predicate NoRoom(left: string, right: string, maximum: nat, c: string) { c <= right && |left| + 1 + |c| > maximum }

  /** The first segment begins with what is pending, or with the first clause. */
  predicate Leads(segments: seq<string>, first: string) { segments != [] && first <= segments[0] }

  lemma {:induction false} PackGreedy(lang: Language, maximum: nat, pending: string, clauses: seq<string>)
    requires maximum >= 1 && NoLeadingBlank(pending) && Tight(clauses)
    requires (pending == "" || Trim(pending)) && AllTrim(clauses) && |pending| <= maximum
    requires forall i | 0 <= i < |clauses| :: |clauses[i]| <= maximum
    ensures Greedy(Pack(lang, maximum, pending, clauses), maximum, clauses)
    ensures pending != "" ==> Leads(Pack(lang, maximum, pending, clauses), pending)
    ensures pending == "" && clauses != [] ==> Leads(Pack(lang, maximum, pending, clauses), clauses[0])
    decreases clauses
  {
    hide Strip, SplitAtWord, Greedy, Trim, AllTrim, Leads;
    if pending != "" { OneSegment(lang, maximum, pending); }
    if clauses == [] {
      NoneCrowded(if pending != "" then [pending] else [], maximum, clauses);
      if pending != "" { LeadsItself(pending, []); }
    } else {
      var first, rest := clauses[0], clauses[1..];
      assert AllTrim(rest) && Trim(first) by { RestTrim(clauses); }
      Joins(pending, first);
      StripEnds(pending + " " + first);
      var candidate := Strip(pending + " " + first);
      if pending != "" && |candidate| > maximum {
        PackGreedy(lang, maximum, first, rest);
        GreedyMore(pending, Pack(lang, maximum, first, rest), maximum, clauses);
        LeadsItself(pending, Pack(lang, maximum, first, rest));
        assert first != "" by { TrimSome(first); }
      } else {
        PackGreedy(lang, maximum, candidate, rest);
        GreedyAmong(Pack(lang, maximum, candidate, rest), maximum, clauses);
        assert candidate != "" by { TrimSome(candidate); }
        if pending != "" { LeadsLess(Pack(lang, maximum, candidate, rest), candidate, pending); }
      }
    }
  }

  lemma RestTrim(clauses: seq<string>)
    requires clauses != [] && AllTrim(clauses)
    ensures AllTrim(clauses[1..]) && Trim(clauses[0])
  {
    hide Trim;
  }

  lemma TrimSome(s: string)
    requires Trim(s)
    ensures s != ""
  {
  }

  lemma NoneCrowded(segments: seq<string>, maximum: nat, clauses: seq<string>)
    requires |segments| <= 1
    ensures Greedy(segments, maximum, clauses)
  {
  }

  lemma LeadsItself(first: string, rest: seq<string>)
    ensures Leads([first] + rest, first) && Leads([first], first)
  {
  }

  lemma LeadsLess(segments: seq<string>, whole: string, part: string)
    requires Leads(segments, whole) && part <= whole
    ensures Leads(segments, part)
  {
  }

  lemma GreedyAmong(segments: seq<string>, maximum: nat, clauses: seq<string>)
    requires clauses != [] && Greedy(segments, maximum, clauses[1..])
    ensures Greedy(segments, maximum, clauses)
  {
    hide NoRoom;
    forall k | 0 < k < |segments| ensures Crowded(segments[k - 1], segments[k], maximum, clauses) {
      assert Crowded(segments[k - 1], segments[k], maximum, clauses[1..]);
    }
  }

  lemma CrowdedBy(left: string, right: string, maximum: nat, clauses: seq<string>)
    requires clauses != [] && NoRoom(left, right, maximum, clauses[0])
    ensures Crowded(left, right, maximum, clauses)
  {
    hide NoRoom;
  }

  lemma GreedyMore(pending: string, later: seq<string>, maximum: nat, clauses: seq<string>)
    requires clauses != [] && Greedy(later, maximum, clauses[1..])
    requires Leads(later, clauses[0]) && |pending| + 1 + |clauses[0]| > maximum
    ensures Greedy([pending] + later, maximum, clauses)
  {
    hide Crowded;
    GreedyAmong(later, maximum, clauses);
    CrowdedBy(pending, later[0], maximum, clauses);
    var all := [pending] + later;
    forall k | 0 < k < |all| ensures Crowded(all[k - 1], all[k], maximum, clauses) {
      if k > 1 { assert Crowded(later[k - 2], later[k - 1], maximum, clauses); }
    }
  }

  /** Where all clauses fit, they are packed as tightly as their order allows. */
  lemma PacksTightly(lang: Language, maximum: nat, text: string)
    requires maximum >= 1 && NoLeadingBlank(text) && |text| > maximum && |Clauses(text)| > 1
    requires forall i | 0 <= i < |Clauses(text)| :: |Clauses(text)[i]| <= maximum
    ensures Greedy(SplitSegment(lang, maximum, text), maximum, Clauses(text))
  {
    hide Clauses, Pack, SplitAtWord, Greedy;
    ClausesTrim(text);
    PackGreedy(lang, maximum, "", Clauses(text));
  }
}

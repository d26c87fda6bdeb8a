/** Text on its way to speech: stable sentences, cuts at words and short segments. */
module Segmentation {
  import opened Domain
  import opened Text

  /** Which periods end no sentence, and which blanks separate nothing that may be torn apart. */
  datatype Language = Language(
    protectedPeriod: (string, nat, nat, bool) -> bool,
    protectedJoin: (string, string) -> bool)

  // ----- sentence boundaries -----

  predicate Candidate(text: string, i: nat)
    requires i < |text|
  {
    text[i] in {'.', '!', '?'} && (i + 1 == |text| || Blank(text[i + 1]))
  }

  function SkipBlanks(text: string, i: nat): (j: nat)
    requires i <= |text|
    ensures i <= j <= |text| && (forall k | i <= k < j :: Blank(text[k])) && (j < |text| ==> !Blank(text[j]))
    decreases |text| - i
  {
    if i < |text| && Blank(text[i]) then SkipBlanks(text, i + 1) else i
  }

  predicate Ends(lang: Language, text: string, i: nat, streaming: bool)
    requires i < |text|
  {
    Candidate(text, i) && !(text[i] == '.' && lang.protectedPeriod(text, i, SkipBlanks(text, i + 1), streaming))
  }

  /** The first sentence end at or after `i`. */
  function FirstEnd(lang: Language, text: string, i: nat, streaming: bool): (end: Option<nat>)
    requires i <= |text|
    ensures end.Some? ==> i <= end.value < |text| && Ends(lang, text, end.value, streaming)
    decreases |text| - i
  {
    if i == |text| then None
    else if Ends(lang, text, i, streaming) then Some(i)
    else FirstEnd(lang, text, i + 1, streaming)
  }

  /** Complete sentences, and what has to wait for more text. */
  function TakeStable(lang: Language, text: string): (seq<string>, string)
    decreases |text|
  {
    var end := FirstEnd(lang, text, 0, true);
    if end.None? then ([], text)
    else
      var fragment := Strip(text[..end.value + 1]);
      var (rest, pending) := TakeStable(lang, text[SkipBlanks(text, end.value + 1)..]);
      ((if fragment != "" then [fragment] else []) + rest, pending)
  }

  /** The sentences of a complete text. */
  function Sentences(lang: Language, text: string): seq<string>
    decreases |text|
  {
    if text == "" then []
    else
      var end := FirstEnd(lang, text, 0, false);
      if end.None? then [text]
      else
        var fragment := Strip(text[..end.value + 1]);
        SolidStrip(text[SkipBlanks(text, end.value + 1)..]);
        (if fragment != "" then [fragment] else [])
        + Sentences(lang, Strip(text[SkipBlanks(text, end.value + 1)..]))
  }

  // ----- cutting at words -----

  /** A run of blanks begins here. */
  predicate RunStarts(text: string, p: nat)
    requires p < |text|
  {
    Blank(text[p]) && (p == 0 || !Blank(text[p - 1]))
  }

  predicate WordEnd(lang: Language, text: string, p: nat)
    requires p < |text|
  {
    RunStarts(text, p) && !lang.protectedJoin(text[..p], text[p..])
  }

  /** The last word end in `minimum..p`, or `maximum` when there is none. */
  function LastWordEnd(lang: Language, text: string, minimum: nat, p: int, maximum: nat): (at: nat)
    requires p < |text|
    ensures at == maximum || (minimum <= at <= p && WordEnd(lang, text, at))
    decreases p
  {
    if p < minimum then maximum
    else if WordEnd(lang, text, p) then p
    else LastWordEnd(lang, text, minimum, p - 1, maximum)
  }

  function SafeWordSplit(lang: Language, text: string, minimum: nat, maximum: nat): (at: nat)
    ensures at <= maximum && (at < maximum ==> minimum <= at < |text| && RunStarts(text, at))
  {
    LastWordEnd(lang, text, minimum, if |text| <= maximum then |text| - 1 else maximum, maximum)
  }

  /** A long sentence in fragments of at most 220 characters. */
  function SplitLong(lang: Language, text: string): seq<string>
    decreases |text|
  {
    if |text| > 220 then
      var at := SafeWordSplit(lang, text, 120, 220);
      [Strip(text[..at])] + SplitLong(lang, StripLeft(text[at..]))
    else if text != "" then [text] else []
  }

  function SplitEach(lang: Language, fragments: seq<string>): seq<string> {
    if fragments == [] then []
    else SplitEach(lang, fragments[..|fragments| - 1]) + SplitLong(lang, fragments[|fragments| - 1])
  }

  /** Pending text never reaches 220 characters. */
  function CutPending(lang: Language, pending: string): (seq<string>, string)
    decreases |pending|
  {
    if |pending| < 220 then ([], pending)
    else
      var at := SafeWordSplit(lang, pending, 120, 220);
      var (rest, last) := CutPending(lang, StripLeft(pending[at..]));
      ([Strip(pending[..at])] + rest, last)
  }

  function TakeBoundaries(lang: Language, text: string): (seq<string>, string) {
    var (stable, pending) := TakeStable(lang, text);
    var (cut, rest) := CutPending(lang, pending);
    (SplitEach(lang, stable) + cut, rest)
  }

  // ----- the stream -----

  /** Everything a model says, delta by delta: the fragments so far and the pending text. */
  function Stream(lang: Language, deltas: seq<string>): (seq<string>, string) {
    if deltas == [] then ([], "")
    else
      var (fragments, pending) := Stream(lang, deltas[..|deltas| - 1]);
      var delta := deltas[|deltas| - 1];
      if delta == "" then (fragments, pending)
      else
        var (ready, rest) := TakeBoundaries(lang, pending + delta);
        (fragments + ready, rest)
  }

  /** At the end of the stream what is pending becomes the last fragment. */
  function Spoken(lang: Language, deltas: seq<string>): seq<string> {
    var (fragments, pending) := Stream(lang, deltas);
    fragments + (if Strip(pending) != "" then [Strip(pending)] else [])
  }

  // ----- what is said of a fragment -----

  const DISCLOSURE := "Ich bin HumanFlow, ein KI-Assistent."
  const NOTHING_SAID := "Was möchtest du als Nächstes wissen?"

  /**
   * The transaction guard may replace a fragment; `without` is a text without the model's own
   * self-introductions. Both are patterns of the language and of the appointment at hand.
   */
  datatype Review = Review(guard: string -> string, without: string -> string, identityRequested: bool)
  {
    /** The disclosure check looks for introductions, except in later fragments of one that was asked for. */
    predicate Checks(disclosed: bool) { !disclosed || !identityRequested }

    /** The first fragment ever spoken introduces the assistant; later ones do so only on request. */
    function Passed(disclosed: bool, fragment: string): string {
      var text := Strip(guard(fragment));
      if !disclosed then
        var remainder := StripSeparators(without(text));
        if remainder == "" then DISCLOSURE else DISCLOSURE + " " + remainder
      else if identityRequested then text
      else StripSeparators(without(text))
    }
  }

  /** The fragments that are left of a list, one after the other; an empty one is not spoken. */
  function Reviewed(r: Review, disclosed: bool, fragments: seq<string>): seq<string> {
    if fragments == [] then []
    else
      var front := fragments[..|fragments| - 1];
      var passed := r.Passed(disclosed || front != [], fragments[|fragments| - 1]);
      Reviewed(r, disclosed, front) + (if passed == "" then [] else [passed])
  }

  /** A whole response; where nothing at all would be said, it asks back. */
  function Response(lang: Language, r: Review, disclosed: bool, deltas: seq<string>): seq<string> {
    var reviewed := Reviewed(r, disclosed, Spoken(lang, deltas));
    reviewed + (if Strip(Spaced(reviewed)) == "" then [NOTHING_SAID] else [])
  }

  // ----- planning a fragment -----

  /** The words of a text. */
  function Words(text: string): seq<string>
    decreases |text|
  {
    var start := SkipBlanks(text, 0);
    if start == |text| then []
    else
      var end := WordStop(text, start);
      [text[start..end]] + Words(text[end..])
  }

  function WordStop(text: string, i: nat): (j: nat)
    requires i < |text| && !Blank(text[i])
    ensures i < j <= |text| && (forall k | i <= k < j :: !Blank(text[k])) && (j < |text| ==> Blank(text[j]))
    decreases |text| - i
  {
    if i + 1 < |text| && !Blank(text[i + 1]) then WordStop(text, i + 1) else i + 1
  }

  /** Words separated by single blanks. */
  function Spaced(words: seq<string>): string {
    if words == [] then ""
    else if |words| == 1 then words[0]
    else Spaced(words[..|words| - 1]) + " " + words[|words| - 1]
  }

  predicate ClauseEnd(text: string, i: nat)
    requires 0 < i < |text|
  {
    text[i - 1] in {',', ';', ':'} && Blank(text[i])
  }

  /** Where the clause that is being read at `i` ends. */
  function NextClauseEnd(text: string, i: nat): (end: nat)
    requires 0 < i <= |text|
    ensures i <= end <= |text| && (end < |text| ==> ClauseEnd(text, end))
    decreases |text| - i
  {
    if i == |text| || ClauseEnd(text, i) then i else NextClauseEnd(text, i + 1)
  }

  predicate NoLeadingBlank(text: string) { text != "" ==> !Blank(text[0]) }

  predicate Tight(pieces: seq<string>) { forall p | p in pieces :: p != "" && NoLeadingBlank(p) }

  /** The clauses of a text, without those that are blank. */
  function Clauses(text: string): (clauses: seq<string>)
    ensures Tight(clauses)
    decreases |text|
  {
    if text == "" then []
    else
      var end := NextClauseEnd(text, 1);
      StripEnds(text[..end]);
      (if Strip(text[..end]) != "" then [Strip(text[..end])] else []) + Clauses(text[SkipBlanks(text, end)..])
  }

  function Min(a: nat, b: nat): nat { if a <= b then a else b }

  /** Cutting at words into segments of at most `maximum` characters. */
  function SplitAtWord(lang: Language, maximum: nat, text: string): seq<string>
    requires maximum >= 1 && NoLeadingBlank(text)
    decreases |text|
  {
    if |text| <= maximum then if text != "" then [text] else []
    else
      var at := SafeWordSplit(lang, text, Min(80, maximum / 2), maximum);
      SolidStrip(text[at..]);
      StripEnds(text[at..]);
      [Strip(text[..at])] + SplitAtWord(lang, maximum, Strip(text[at..]))
  }

  /** Clauses packed together for as long as they fit. */
  function Pack(lang: Language, maximum: nat, pending: string, clauses: seq<string>): seq<string>
    requires maximum >= 1 && NoLeadingBlank(pending) && Tight(clauses)
    decreases clauses
  {
    if clauses == [] then if pending != "" then SplitAtWord(lang, maximum, pending) else []
    else
      var candidate := Strip(pending + " " + clauses[0]);
      StripEnds(pending + " " + clauses[0]);
      if pending != "" && |candidate| > maximum
      then SplitAtWord(lang, maximum, pending) + Pack(lang, maximum, clauses[0], clauses[1..])
      else Pack(lang, maximum, candidate, clauses[1..])
  }

  function SplitSegment(lang: Language, maximum: nat, text: string): seq<string>
    requires maximum >= 1 && NoLeadingBlank(text)
  {
    if |text| <= maximum then [text]
    else if |Clauses(text)| > 1 then Pack(lang, maximum, "", Clauses(text))
    else SplitAtWord(lang, maximum, text)
  }

  function PlanEach(lang: Language, maximum: nat, sentences: seq<string>): seq<string>
    requires maximum >= 1
  {
    if sentences == [] then []
    else
      var sentence := Strip(sentences[|sentences| - 1]);
      StripEnds(sentences[|sentences| - 1]);
      PlanEach(lang, maximum, sentences[..|sentences| - 1]) + NonEmpty(SplitSegment(lang, maximum, sentence))
  }

  function NonEmpty(pieces: seq<string>): seq<string> {
    if pieces == [] then []
    else NonEmpty(pieces[..|pieces| - 1]) + (if pieces[|pieces| - 1] != "" then [pieces[|pieces| - 1]] else [])
  }

  /** The segments of a fragment; a text without words is an error. */
  function Plan(lang: Language, maximum: nat, text: string): Result<seq<string>, string>
    requires maximum >= 1
  {
    var clean := Spaced(Words(text));
    if clean == "" then Err("text must not be empty") else Ok(PlanEach(lang, maximum, Sentences(lang, Strip(clean))))
  }
}

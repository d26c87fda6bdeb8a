/** Strings as the text stages see them: blanks, stripping and what is left without blanks. */
module Text {

  /** The characters that a string is stripped of and split at. */
  predicate Blank(c: char) {
    var n := c as int;
    || 0x09 <= n <= 0x0d || 0x1c <= n <= 0x20 || n == 0x85 || n == 0xa0 || n == 0x1680
    || 0x2000 <= n <= 0x200a || n == 0x2028 || n == 0x2029 || n == 0x202f || n == 0x205f || n == 0x3000
  }

  function StripLeft(s: string): (r: string)
    ensures |r| <= |s| && r == s[|s| - |r|..]
    ensures r != "" ==> !Blank(r[0])
  {
    if s != "" && Blank(s[0]) then StripLeft(s[1..]) else s
  }

  function StripRight(s: string): (r: string)
    ensures |r| <= |s| && r == s[..|r|]
    ensures r != "" ==> !Blank(r[|r| - 1])
  {
    if s != "" && Blank(s[|s| - 1]) then StripRight(s[..|s| - 1]) else s
  }

  function Strip(s: string): string { StripRight(StripLeft(s)) }

  /** Everything but the blanks, in order. */
  function Solid(s: string): string {
    if s == "" then "" else (if Blank(s[0]) then "" else [s[0]]) + Solid(s[1..])
  }

  lemma {:induction false} SolidAppend(s: string, t: string)
    ensures Solid(s + t) == Solid(s) + Solid(t)
  {
    if s == "" {
      assert s + t == t;
    } else {
      assert (s + t)[1..] == s[1..] + t;
      SolidAppend(s[1..], t);
    }
  }

  lemma {:induction false} SolidStripLeft(s: string)
    ensures Solid(StripLeft(s)) == Solid(s)
  {
    if s != "" && Blank(s[0]) { SolidStripLeft(s[1..]); }
  }

  lemma {:induction false} SolidStripRight(s: string)
    ensures Solid(StripRight(s)) == Solid(s)
  {
    if s != "" && Blank(s[|s| - 1]) {
      SolidStripRight(s[..|s| - 1]);
      SolidAppend(s[..|s| - 1], [s[|s| - 1]]);
      assert s == s[..|s| - 1] + [s[|s| - 1]];
    }
  }

  /** Stripping loses only blanks. */
  lemma SolidStrip(s: string)
    ensures Solid(Strip(s)) == Solid(s) && |Strip(s)| <= |s|
  {
    SolidStripLeft(s);
    SolidStripRight(StripLeft(s));
  }

  /** A stripped string neither begins nor ends with a blank. */
  lemma StripEnds(s: string)
    ensures Strip(s) != "" ==> !Blank(Strip(s)[0]) && !Blank(Strip(s)[|Strip(s)| - 1])
  {
  }

  lemma {:induction false} StripLeftKeepsLast(s: string)
    requires s != "" && !Blank(s[|s| - 1])
    ensures StripLeft(s) != ""
  {
    if Blank(s[0]) { StripLeftKeepsLast(s[1..]); }
  }

  lemma StripKeepsLast(s: string)
    requires s != "" && !Blank(s[|s| - 1])
    ensures Strip(s) != "" && Strip(s)[|Strip(s)| - 1] == s[|s| - 1]
  {
    StripLeftKeepsLast(s);
  }

  /** What is stripped stays as it is when it is stripped again. */
  lemma StripAgain(s: string)
    ensures Strip(Strip(s)) == Strip(s)
  {
    StripEnds(s);
  }

  // ----- spaces and commas -----

  predicate Separator(c: char) { c == ' ' || c == ',' }

  function StripSeparatorsLeft(s: string): string {
    if s != "" && Separator(s[0]) then StripSeparatorsLeft(s[1..]) else s
  }

  function StripSeparatorsRight(s: string): string {
    if s != "" && Separator(s[|s| - 1]) then StripSeparatorsRight(s[..|s| - 1]) else s
  }

  function StripSeparators(s: string): string { StripSeparatorsRight(StripSeparatorsLeft(s)) }

  predicate OuterComma(s: string) { s != "" && (s[0] == ',' || s[|s| - 1] == ',') }

  /** Everything but the commas, in order. */
  function Wordy(s: string): string {
    if s == "" then "" else Wordy(s[..|s| - 1]) + (if s[|s| - 1] == ',' then "" else [s[|s| - 1]])
  }

  lemma {:induction false} WordyAppend(s: string, t: string)
    ensures Wordy(s + t) == Wordy(s) + Wordy(t)
  {
    if t == "" {
      assert s + t == s;
    } else {
      assert (s + t)[..|s + t| - 1] == s + t[..|t| - 1];
      WordyAppend(s, t[..|t| - 1]);
    }
  }

  /** A separator is a blank or a comma. */
  lemma SeparatorSolid(c: char)
    requires Separator(c)
    ensures Solid([c]) == (if c == ',' then "," else "") && Wordy(Solid([c])) == ""
  {
    assert [c][1..] == "" && Wordy("") == "";
    assert Wordy(",") == "" by { assert ","[..0] == ""; }
  }

  /** `less` is `more` without some commas; without none only if it has the length of `more`. */
  predicate FewerCommas(less: string, more: string) {
    Wordy(less) == Wordy(more) && |less| <= |more|
  }

  lemma SeparatorGoes(c: char, rest: string, kept: string)
    requires Separator(c) && FewerCommas(kept, Solid(rest))
    ensures FewerCommas(kept, Solid([c] + rest)) && FewerCommas(kept, Solid(rest + [c]))
    ensures c == ',' ==> |kept| < |Solid([c] + rest)| && |kept| < |Solid(rest + [c])|
  {
    hide Solid, Wordy;
    SeparatorSolid(c);
    SolidAppend([c], rest);
    SolidAppend(rest, [c]);
    WordyAppend(Solid([c]), Solid(rest));
    WordyAppend(Solid(rest), Solid([c]));
  }

  lemma {:induction false} SeparatorsLeft(s: string)
    ensures var kept := Solid(StripSeparatorsLeft(s));
      FewerCommas(kept, Solid(s)) && (s != "" && s[0] == ',' ==> |kept| < |Solid(s)|)
  {
    hide Solid, Wordy;
    if s != "" && Separator(s[0]) {
      SeparatorsLeft(s[1..]);
      SeparatorGoes(s[0], s[1..], Solid(StripSeparatorsLeft(s)));
      assert [s[0]] + s[1..] == s;
    }
  }

  lemma {:induction false} SeparatorsRight(s: string)
    ensures var kept := Solid(StripSeparatorsRight(s));
      FewerCommas(kept, Solid(s)) && (s != "" && s[|s| - 1] == ',' ==> |kept| < |Solid(s)|)
  {
    hide Solid, Wordy;
    if s != "" && Separator(s[|s| - 1]) {
      SeparatorsRight(s[..|s| - 1]);
      SeparatorGoes(s[|s| - 1], s[..|s| - 1], Solid(StripSeparatorsRight(s)));
      assert s[..|s| - 1] + [s[|s| - 1]] == s;
    }
  }

  /** Of a string without outer blanks the separators that go are commas, if any go. */
  lemma SeparatorsGo(s: string)
    requires s != "" ==> !Blank(s[0]) && !Blank(s[|s| - 1])
    ensures FewerCommas(Solid(StripSeparators(s)), Solid(s))
    ensures if OuterComma(s) then |Solid(StripSeparators(s))| < |Solid(s)| else StripSeparators(s) == s
  {
    hide Solid, Wordy;
    assert Blank(' ');
    SeparatorsLeft(s);
    SeparatorsRight(StripSeparatorsLeft(s));
  }
}

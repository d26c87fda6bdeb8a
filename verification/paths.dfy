/** Repository paths and the rules that say which of them a task may touch. */
module Paths {

  predicate SlashFree(c: string) { '/' !in c }

  /** What a path is made of: no empty component and none that stands for the same directory. */
  predicate Components(parts: seq<string>) {
    forall p | p in parts :: p != "" && p != "." && SlashFree(p)
  }

  /** Where the component that begins the text ends. */
  function Slash(s: string): (i: nat)
    ensures i <= |s| && SlashFree(s[..i]) && (i < |s| ==> s[i] == '/')
  {
    if s == "" || s[0] == '/' then 0 else 1 + Slash(s[1..])
  }

  /** The components of a path. */
  function Parts(s: string): (parts: seq<string>)
    ensures Components(parts)
    decreases |s|
  {
    if s == "" then []
    else
      var i := Slash(s);
      var head := if s[..i] in {"", "."} then [] else [s[..i]];
      if i == |s| then head else head + Parts(s[i + 1..])
  }

  /** Components separated by slashes. */
  function Join(parts: seq<string>): string {
    if parts == [] then ""
    else if |parts| == 1 then parts[0]
    else parts[0] + "/" + Join(parts[1..])
  }

  predicate Absolute(s: string) { s != "" && s[0] == '/' }

  /** The normalized form that rules and paths are compared in. */
  function Normalized(s: string): string {
    if Parts(s) == [] then if Absolute(s) then "" else "." else Join(Parts(s))
  }

  predicate StartsWith(s: string, prefix: string) { prefix <= s }

  predicate EndsWith(s: string, suffix: string) { |suffix| <= |s| && s[|s| - |suffix|..] == suffix }

  predicate Wild(s: string) { '*' in s || '?' in s || '[' in s }

  /** Cuts slashes off the end. */
  function Trim(s: string): string {
    if s != "" && s[|s| - 1] == '/' then Trim(s[..|s| - 1]) else s
  }

  predicate Below(path: string, root: string) { path == root || StartsWith(path, root + "/") }

  /** Component by component from the right; `fits` compares a component with a pattern. */
  predicate Globbed(fits: (string, string) -> bool, path: seq<string>, rule: seq<string>) {
    && 0 < |rule| <= |path|
    && forall k | 0 <= k < |rule| :: fits(path[|path| - |rule| + k], rule[k])
  }

  predicate Matches(fits: (string, string) -> bool, path: string, rule: string) {
    var p, r := Normalized(path), Normalized(rule);
    if p == "" || r == "" then false
    else if EndsWith(r, "/**") then Below(p, Trim(r[..|r| - 3]))
    else if !Wild(r) then Below(p, r)
    else Globbed(fits, Parts(p), Parts(r))
  }

  /** The components before the first one with a wildcard. */
  function Plain(parts: seq<string>): (plain: seq<string>)
    ensures plain <= parts
  {
    if parts == [] || Wild(parts[0]) then [] else [parts[0]] + Plain(parts[1..])
  }

  /** What a path begins with before its components: two slashes are not the same root as one or as many. */
  function Lead(s: string): string {
    if !Absolute(s) then ""
    else if |s| >= 2 && s[1] == '/' && (|s| == 2 || s[2] != '/') then "//"
    else "/"
  }

  /** The leading part counts as a component of its own. */
  function LiteralPrefix(rule: string): string {
    Trim(Join((if Lead(rule) == "" then [] else [Lead(rule)]) + Plain(Parts(rule))))
  }

  predicate MayOverlap(left: string, right: string) {
    var l, r := LiteralPrefix(left), LiteralPrefix(right);
    l == "" || r == "" || l == r || StartsWith(l, r + "/") || StartsWith(r, l + "/")
  }

  // ----- strings and components tell the same story -----

  lemma {:induction false} PartsOfOne(c: string)
    requires c != "" && c != "." && SlashFree(c)
    ensures Parts(c) == [c] && Slash(c) == |c|
  {
    SlashOf(c, "");
    assert c + "" == c;
  }

  /** A slash-free text reaches to the first slash. */
  lemma {:induction false} SlashOf(c: string, rest: string)
    requires SlashFree(c) && (rest == "" || rest[0] == '/')
    ensures Slash(c + rest) == |c|
  {
    if c != "" {
      assert (c + rest)[1..] == c[1..] + rest && (c + rest)[0] == c[0];
      assert SlashFree(c[1..]) by { assert forall x | x in c[1..] :: x in c; }
      SlashOf(c[1..], rest);
    } else {
      assert c + rest == rest;
    }
  }

  lemma PartsOfMore(c: string, rest: string)
    requires c != "" && c != "." && SlashFree(c)
    ensures Parts(c + "/" + rest) == [c] + Parts(rest)
  {
    var s := c + "/" + rest;
    assert s == c + ("/" + rest);
    SlashOf(c, "/" + rest);
    assert s[..|c|] == c && s[|c| + 1..] == rest;
  }

  lemma {:induction false} PartsOfJoin(parts: seq<string>)
    requires Components(parts)
    ensures Parts(Join(parts)) == parts
    ensures parts != [] ==> Join(parts) != "" && Join(parts)[|Join(parts)| - 1] != '/'
  {
    if |parts| == 1 {
      assert parts[0] in parts;
      PartsOfOne(parts[0]);
      assert parts[0][|parts[0]| - 1] in parts[0];
    } else if |parts| > 1 {
      assert parts[0] in parts;
      assert Components(parts[1..]) by { assert forall p | p in parts[1..] :: p in parts; }
      PartsOfJoin(parts[1..]);
      PartsOfMore(parts[0], Join(parts[1..]));
      assert parts == [parts[0]] + parts[1..];
    }
  }

  lemma {:induction false} JoinConcat(a: seq<string>, b: seq<string>)
    requires a != [] && b != []
    ensures Join(a + b) == Join(a) + "/" + Join(b)
  {
    if |a| == 1 {
      assert (a + b)[1..] == b;
    } else {
      assert (a + b)[1..] == a[1..] + b;
      JoinConcat(a[1..], b);
      assert a[0] + "/" + (Join(a[1..]) + "/" + Join(b)) == a[0] + "/" + Join(a[1..]) + "/" + Join(b);
    }
  }

  /** Being below a root is having its components as a prefix. */
  lemma {:induction false} BelowParts(a: seq<string>, b: seq<string>)
    requires Components(a) && Components(b) && b != []
    ensures Below(Join(a), Join(b)) <==> b <= a
  {
    hide Parts, Join;
    PartsOfJoin(a);
    PartsOfJoin(b);
    if b <= a {
      if |b| < |a| {
        JoinConcat(b, a[|b|..]);
        assert a == b + a[|b|..];
      } else {
        assert a == b;
      }
    }
    if StartsWith(Join(a), Join(b) + "/") {
      var rest := Join(a)[|Join(b)| + 1..];
      PartsBeyond(b, rest);
      assert Join(a) == Join(b) + "/" + rest;
      assert a == b + Parts(rest);
    }
  }

  lemma {:induction false} PartsBeyond(b: seq<string>, rest: string)
    requires Components(b) && b != []
    ensures Parts(Join(b) + "/" + rest) == b + Parts(rest)
  {
    hide Parts;
    if |b| == 1 {
      assert b[0] in b;
      PartsOfMore(b[0], rest);
      assert b == [b[0]];
    } else {
      assert Components(b[1..]) by { assert forall p | p in b[1..] :: p in b; }
      assert b[0] in b;
      PartsBeyond(b[1..], rest);
      var tail := Join(b[1..]) + "/" + rest;
      assert Join(b) + "/" + rest == b[0] + "/" + tail;
      PartsOfMore(b[0], tail);
      assert [b[0]] + (b[1..] + Parts(rest)) == b + Parts(rest);
    }
  }

  lemma PlainComponents(parts: seq<string>)
    requires Components(parts)
    ensures Components(Plain(parts))
  {
    var plain := Plain(parts);
    forall p | p in plain ensures p in parts {
      var k :| 0 <= k < |plain| && plain[k] == p;
      assert parts[k] == p;
    }
  }

  lemma TrimNothing(s: string)
    requires s == "" || s[|s| - 1] != '/'
    ensures Trim(s) == s
  {
  }

  /** How the literal prefix begins. */
  function Front(rule: string): string { if Lead(rule) == "" then "" else Lead(rule) + "/" }

  lemma LiteralPrefixIs(rule: string)
    ensures var plain := Plain(Parts(rule));
      LiteralPrefix(rule) == if plain == [] then "" else Front(rule) + Join(plain)
    ensures LiteralPrefix(rule) == "" <==> Plain(Parts(rule)) == []
  {
    hide Parts, Plain, Join, Trim, Lead;
    var plain := Plain(Parts(rule));
    PlainComponents(Parts(rule));
    PartsOfJoin(plain);
    LeadCases(rule);
    if plain == [] {
      NothingBehind(Lead(rule));
    } else if Lead(rule) == "" {
      assert [] + plain == plain;
      TrimNothing(Join(plain));
    } else {
      PrefixOf(Lead(rule), plain);
    }
  }

  lemma NothingBehind(lead: string)
    requires lead in {"", "/", "//"}
    ensures Trim(Join((if lead == "" then [] else [lead]) + [])) == ""
  {
    SlashesTrimmed();
    assert [lead] + [] == [lead];
  }

  lemma PrefixOf(lead: string, plain: seq<string>)
    requires plain != [] && Join(plain) != "" && Join(plain)[|Join(plain)| - 1] != '/'
    ensures Trim(Join([lead] + plain)) == lead + "/" + Join(plain)
  {
    hide Join;
    JoinConcat([lead], plain);
    assert Join([lead]) == lead by { JoinOne(lead); }
    TrimNothing(lead + "/" + Join(plain));
  }

  lemma JoinOne(part: string)
    ensures Join([part]) == part
  {
  }

  lemma SlashesTrimmed()
    ensures Trim("/") == "" && Trim("//") == ""
  {
    assert "/"[..0] == "" && "//"[..1] == "/";
  }

  /** Texts that begin differently are not below one another. */
  lemma FrontsApart(f: string, g: string, x: string, y: string)
    requires f in {"", "//", "///"} && g in {"", "//", "///"} && f != g
    requires x != "" && x[0] != '/' && y != "" && y[0] != '/'
    ensures !Below(f + x, g + y)
  {
    var a, b := f + x, g + y;
    if |f| < |g| {
      assert a[|f|] == x[0] && b[|f|] == g[|f|] == '/';
    } else {
      assert b[|g|] == y[0] && a[|g|] == f[|g|] == '/';
    }
  }

  lemma SameFront(f: string, x: string, y: string)
    ensures Below(f + x, f + y) <==> Below(x, y)
  {
    if Below(x, y) {
      if x != y { assert f + y + "/" <= f + x by { assert x == (y + "/") + x[|y| + 1..]; assert f + x == (f + y + "/") + x[|y| + 1..]; } }
    }
    if Below(f + x, f + y) {
      assert x == (f + x)[|f|..] && y == (f + y)[|f|..];
      if f + x != f + y { assert y + "/" == (f + y + "/")[|f|..]; assert y + "/" <= x; }
    }
  }

  lemma FirstIsNoSlash(parts: seq<string>)
    requires Components(parts) && parts != []
    ensures Join(parts) != "" && Join(parts)[0] != '/'
  {
    assert parts[0] in parts;
    assert parts[0][0] in parts[0];
    assert Join(parts)[0] == parts[0][0];
  }

  /** The overlap test compares the leading parts and the components before the first wildcard. */
  lemma OverlapParts(left: string, right: string)
    ensures var l, r := Plain(Parts(left)), Plain(Parts(right));
      MayOverlap(left, right) <==> l == [] || r == [] || (Lead(left) == Lead(right) && (l <= r || r <= l))
  {
    hide Parts, Plain, LiteralPrefix, Join, Lead;
    var l, r := Plain(Parts(left)), Plain(Parts(right));
    LiteralPrefixIs(left);
    LiteralPrefixIs(right);
    PlainComponents(Parts(left));
    PlainComponents(Parts(right));
    if l != [] && r != [] {
      FirstIsNoSlash(l);
      FirstIsNoSlash(r);
      assert (Lead(left) == Lead(right) <==> Front(left) == Front(right))
             && Front(left) in {"", "//", "///"} && Front(right) in {"", "//", "///"} by {
        LeadFront(left, right);
      }
      if Lead(left) == Lead(right) {
        SameFront(Front(left), Join(l), Join(r));
        SameFront(Front(left), Join(r), Join(l));
        BelowParts(l, r);
        BelowParts(r, l);
      } else {
        FrontsApart(Front(left), Front(right), Join(l), Join(r));
        FrontsApart(Front(right), Front(left), Join(r), Join(l));
      }
      OverlapBelow(left, right);
    }
  }

  lemma LeadFront(left: string, right: string)
    ensures Lead(left) == Lead(right) <==> Front(left) == Front(right)
    ensures Front(left) in {"", "//", "///"} && Front(right) in {"", "//", "///"}
  {
    assert "/" + "/" == "//" && "//" + "/" == "///";
  }

  lemma OverlapBelow(left: string, right: string)
    requires LiteralPrefix(left) != "" && LiteralPrefix(right) != ""
    ensures MayOverlap(left, right)
            <==> Below(LiteralPrefix(left), LiteralPrefix(right)) || Below(LiteralPrefix(right), LiteralPrefix(left))
  {
    hide LiteralPrefix;
  }

  // ----- rules that are anchored at the root -----

  /** A rule without wildcards or for everything below a directory. */
  predicate Anchored(rule: string) { EndsWith(Normalized(rule), "/**") || !Wild(Normalized(rule)) }

  /** The directory or file that an anchored rule stands for. */
  function Root(rule: string): seq<string> {
    var parts := Parts(rule);
    if EndsWith(Normalized(rule), "/**") && parts != [] then parts[..|parts| - 1] else parts
  }

  lemma {:induction false} JoinLast(parts: seq<string>)
    requires |parts| >= 2
    ensures Join(parts) == Join(parts[..|parts| - 1]) + "/" + parts[|parts| - 1]
  {
    JoinConcat(parts[..|parts| - 1], parts[|parts| - 1..]);
    assert parts == parts[..|parts| - 1] + parts[|parts| - 1..];
  }

  lemma OneIsSlashFree(parts: seq<string>)
    requires Components(parts)
    ensures |parts| <= 1 ==> SlashFree(Join(parts))
  {
    if |parts| == 1 { assert parts[0] in parts; }
  }

  /** A rule that ends in a double star has it as its last component. */
  lemma StarsLast(parts: seq<string>)
    requires Components(parts) && EndsWith(Join(parts), "/**")
    ensures |parts| >= 2 && parts[|parts| - 1] == "**"
    ensures Join(parts)[..|Join(parts)| - 3] == Join(parts[..|parts| - 1])
  {
    var s := Join(parts);
    var head := s[..|s| - 3];
    assert s == head + "/" + "**";
    PartsOfJoin(parts);
    assert s[|s| - 3] == '/' && '/' in s;
    OneIsSlashFree(parts);
    JoinLast(parts);
    var last := parts[|parts| - 1];
    var front := Join(parts[..|parts| - 1]);
    LastComponent(front, last, head, "**");
  }

  /** The last slash separates a text in only one way. */
  lemma LastComponent(a: string, x: string, b: string, y: string)
    requires SlashFree(x) && SlashFree(y) && a + "/" + x == b + "/" + y
    ensures a == b && x == y
  {
    var s := a + "/" + x;
    assert s == b + "/" + y;
    assert s[|a|] == '/' && s[|b|] == '/';
    assert forall i | |a| < i < |s| :: s[i] == x[i - |a| - 1] && s[i] in x;
    assert forall i | |b| < i < |s| :: s[i] == y[i - |b| - 1] && s[i] in y;
    assert |a| == |b|;
    assert a == s[..|a|] && b == s[..|b|] && x == s[|a| + 1..] && y == s[|b| + 1..];
  }

  lemma NormalizedParts(s: string)
    ensures Parts(s) != [] ==> Normalized(s) == Join(Parts(s)) && Parts(Normalized(s)) == Parts(s)
    ensures Parts(s) != [] ==> Normalized(s) != ""
  {
    hide Parts;
    PartsOfJoin(Parts(s));
  }

  /** What an anchored rule matches: the paths that begin with the components of its root. */
  lemma AnchoredMatches(fits: (string, string) -> bool, path: string, rule: string)
    requires Anchored(rule) && Parts(path) != [] && Parts(rule) != []
    ensures Root(rule) != [] && (Matches(fits, path, rule) <==> Root(rule) <= Parts(path))
    ensures Plain(Parts(rule)) <= Root(rule)
  {
    hide Parts, Join, Globbed;
    NormalizedParts(path);
    NormalizedParts(rule);
    var parts := Parts(rule);
    PartsOfJoin(parts);
    if EndsWith(Normalized(rule), "/**") {
      StarsLast(parts);
      var root := parts[..|parts| - 1];
      assert Components(root) by { assert forall p | p in root :: p in parts; }
      PartsOfJoin(root);
      TrimNothing(Join(root));
      BelowParts(Parts(path), root);
      PlainStops(parts, |parts| - 1);
    } else {
      BelowParts(Parts(path), parts);
    }
  }

  /** The components fit from the last one on, as many as the rule has. */
  predicate FitsFromRight(fits: (string, string) -> bool, path: seq<string>, rule: seq<string>) {
    rule == []
    || (&& path != [] && fits(path[|path| - 1], rule[|rule| - 1])
        && FitsFromRight(fits, path[..|path| - 1], rule[..|rule| - 1]))
  }

  lemma {:induction false} GlobbedIs(fits: (string, string) -> bool, path: seq<string>, rule: seq<string>)
    requires rule != []
    ensures Globbed(fits, path, rule) <==> FitsFromRight(fits, path, rule)
  {
    if path != [] {
      var p, r := path[..|path| - 1], rule[..|rule| - 1];
      if |rule| > 1 { GlobbedIs(fits, p, r); }
      if |rule| <= |path| {
        assert forall k | 0 <= k < |r| :: p[|p| - |r| + k] == path[|path| - |rule| + k] && r[k] == rule[k];
        assert path[|path| - |rule| + (|rule| - 1)] == path[|path| - 1];
        if Globbed(fits, path, rule) {
          assert forall k | 0 <= k < |r| :: fits(path[|path| - |rule| + k], rule[k]);
        }
      }
    }
  }

  /** Any other rule with a wildcard is compared component by component from the right. */
  lemma GlobExactly(fits: (string, string) -> bool, path: string, rule: string)
    requires Parts(path) != [] && Parts(rule) != []
    requires Wild(Normalized(rule)) && !EndsWith(Normalized(rule), "/**")
    ensures Matches(fits, path, rule) <==> FitsFromRight(fits, Parts(path), Parts(rule))
  {
    hide Parts, Normalized, Globbed, FitsFromRight;
    NormalizedParts(path);
    NormalizedParts(rule);
    GlobbedIs(fits, Parts(path), Parts(rule));
  }

  /** The root itself neither matches nor is matched; a path of the current directory is a dot. */
  lemma RootMatchesNothing(fits: (string, string) -> bool, path: string, rule: string)
    ensures Parts(path) == [] ==> Normalized(path) == if Absolute(path) then "" else "."
    ensures (Parts(path) == [] && Absolute(path)) || (Parts(rule) == [] && Absolute(rule)) ==> !Matches(fits, path, rule)
  {
    hide Parts;
  }

  /** The plain components end before the first one with a wildcard. */
  lemma {:induction false} PlainStops(parts: seq<string>, k: nat)
    requires k < |parts| && Wild(parts[k])
    ensures Plain(parts) <= parts[..k]
  {
    if k > 0 && !Wild(parts[0]) {
      PlainStops(parts[1..], k - 1);
      assert parts[1..][..k - 1] == parts[1..k];
      assert [parts[0]] + parts[1..k] == parts[..k];
    }
  }

  lemma PrefixesCompare(a: seq<string>, b: seq<string>, p: seq<string>)
    requires a <= p && b <= p
    ensures a <= b || b <= a
  {
    if |a| <= |b| { assert a == p[..|a|] == b[..|a|]; } else { assert b == p[..|b|] == a[..|b|]; }
  }

  /** The repository root itself is matched by no anchored rule for something in it. */
  lemma RootUnmatched(fits: (string, string) -> bool, path: string, rule: string)
    requires Anchored(rule) && Parts(path) == [] && Parts(rule) != []
    ensures !Matches(fits, path, rule)
  {
    hide Parts, Join, Globbed;
    NormalizedParts(rule);
    var parts := Parts(rule);
    PartsOfJoin(parts);
    assert Parts(".") == [] by { DotHasNone(); }
    if EndsWith(Normalized(rule), "/**") {
      StarsLast(parts);
      var root := parts[..|parts| - 1];
      assert Components(root) by { assert forall p | p in root :: p in parts; }
      PartsOfJoin(root);
      TrimNothing(Join(root));
    }
  }

  lemma DotHasNone()
    ensures Parts(".") == []
  {
    SlashOf(".", "");
    assert "." + "" == ".";
  }

  /**
   * Two anchored rules that match one path are reported as overlapping exactly when they begin in the
   * same way or one of them has no component before its first wildcard.
   */
  lemma AnchoredOverlap(fits: (string, string) -> bool, path: string, left: string, right: string)
    requires Anchored(left) && Anchored(right)
    requires Matches(fits, path, left) && Matches(fits, path, right)
    ensures MayOverlap(left, right)
            <==> Lead(left) == Lead(right) || LiteralPrefix(left) == "" || LiteralPrefix(right) == ""
  {
    hide Parts, Plain, Matches, MayOverlap, Anchored, Root, LiteralPrefix, Lead;
    OverlapParts(left, right);
    LiteralPrefixIs(left);
    LiteralPrefixIs(right);
    NothingPlain();
    if Parts(left) != [] && Parts(right) != [] {
      if Parts(path) == [] {
        RootUnmatched(fits, path, left);
      } else {
        AnchoredMatches(fits, path, left);
        AnchoredMatches(fits, path, right);
        PrefixesCompare(Plain(Parts(left)), Plain(Parts(right)), Parts(path));
      }
    }
  }

  lemma NothingPlain()
    ensures Plain([]) == []
  {
  }

  // ----- rules that are not -----

  /** No anchored rule that begins in the same way can match a path of this rule without being reported. */
  ghost predicate Safe(fits: (string, string) -> bool, rule: string) {
    forall other, path | Lead(other) == Lead(rule) && Anchored(other)
      && Matches(fits, path, rule) && Matches(fits, path, other) :: MayOverlap(rule, other)
  }

  /** No anchored rule at all can. */
  ghost predicate SafeAgainstAll(fits: (string, string) -> bool, rule: string) {
    forall other, path | Anchored(other) && Matches(fits, path, rule) && Matches(fits, path, other) ::
      MayOverlap(rule, other)
  }

  /** A path one directory further down. */
  function Deeper(d: string, path: string): string { d + "/" + path }

  /** A glob is anchored on the right only, so it matches the same path anywhere below. */
  lemma GlobMatchesDeeper(fits: (string, string) -> bool, path: string, rule: string, d: string)
    requires !Anchored(rule) && Matches(fits, path, rule) && d != "" && d != "." && SlashFree(d)
    requires Parts(path) != []
    ensures Matches(fits, Deeper(d, path), rule)
  {
    hide Parts, Join, Globbed, Normalized, EndsWith, Wild;
    PartsOfMore(d, path);
    NormalizedParts(path);
    NormalizedParts(Deeper(d, path));
    GlobbedDeeper(fits, Parts(path), Parts(Normalized(rule)), d);
  }

  lemma GlobbedDeeper(fits: (string, string) -> bool, path: seq<string>, rule: seq<string>, d: string)
    requires Globbed(fits, path, rule)
    ensures Globbed(fits, [d] + path, rule)
  {
    forall k | 0 <= k < |rule| ensures fits(([d] + path)[|[d] + path| - |rule| + k], rule[k]) {
      assert ([d] + path)[1 + |path| - |rule| + k] == path[|path| - |rule| + k];
    }
  }

  /** Everything below one directory, as a rule that begins with `lead`. */
  lemma DirectoryRule(fits: (string, string) -> bool, lead: string, d: string, path: string)
    requires d != "" && d != "." && SlashFree(d) && !Wild(d) && Parts(path) != [] && lead in {"", "/", "//"}
    ensures var rule := lead + d + "/**";
      && Parts(rule) == [d, "**"] && Plain(Parts(rule)) == [d] && Lead(rule) == lead
      && Anchored(rule) && Matches(fits, Deeper(d, path), rule)
  {
    hide Parts, Globbed, Join, Matches;
    var rule := lead + d + "/**";
    DirectoryParts(lead, d);
    NormalizedParts(rule);
    EndsInStars(d);
    assert Anchored(rule) && Root(rule) == [d];
    PartsOfMore(d, path);
    AnchoredMatches(fits, Deeper(d, path), rule);
  }

  lemma DirectoryParts(lead: string, d: string)
    requires d != "" && d != "." && SlashFree(d) && !Wild(d) && lead in {"", "/", "//"}
    ensures var rule := lead + d + "/**";
      Parts(rule) == [d, "**"] && Plain(Parts(rule)) == [d] && Lead(rule) == lead
    ensures Join([d, "**"]) == d + "/**"
  {
    hide Parts, Lead;
    var rest := d + "/" + "**";
    assert lead + d + "/**" == lead + rest;
    PartsOfMore(d, "**");
    PartsOfOne("**");
    assert [d] + ["**"] == [d, "**"];
    assert d[0] in d;
    LeadingSlashes(lead, rest);
    assert Wild("**") by { assert "**"[0] == '*'; }
    assert Plain([d, "**"]) == [d] by { assert [d, "**"][1..] == ["**"]; }
  }

  lemma EndsInStars(d: string)
    ensures EndsWith(d + "/**", "/**")
  {
    assert (d + "/**")[|d|..] == "/**";
  }

  /** Leading slashes are no components. */
  lemma LeadingSlashes(lead: string, s: string)
    requires lead in {"", "/", "//"} && s != "" && s[0] != '/'
    ensures Parts(lead + s) == Parts(s) && Lead(lead + s) == lead
  {
    hide Parts;
    OneSlash(s);
    OneSlash("/" + s);
    assert "" + s == s && "/" + ("/" + s) == "//" + s;
  }

  lemma OneSlash(s: string)
    ensures Parts("/" + s) == Parts(s)
  {
    assert ("/" + s)[1..] == s && ("/" + s)[..0] == "";
  }

  /**
   * The overlap test is safe for a rule against every anchored rule that begins in the same way exactly
   * when the rule is anchored itself, has no component before its first wildcard, or matches nothing
   * below the root.
   */
  lemma SafeExactly(fits: (string, string) -> bool, rule: string)
    ensures Safe(fits, rule) <==>
            || Anchored(rule)
            || LiteralPrefix(rule) == ""
            || forall path | Parts(path) != [] :: !Matches(fits, path, rule)
  {
    hide Parts, Plain, Matches, MayOverlap, Anchored, LiteralPrefix, Lead;
    if Anchored(rule) {
      forall other, path | Lead(other) == Lead(rule) && Anchored(other)
        && Matches(fits, path, rule) && Matches(fits, path, other)
        ensures MayOverlap(rule, other)
      {
        AnchoredOverlap(fits, path, rule, other);
      }
    } else if LiteralPrefix(rule) == "" {
      EmptyPrefixOverlaps(rule);
    } else if forall path | Parts(path) != [] :: !Matches(fits, path, rule) {
      MatchesNothing(fits, rule);
    } else {
      var path :| Parts(path) != [] && Matches(fits, path, rule);
      Escapes(fits, path, rule);
    }
  }

  /**
   * Against rules that may begin with slashes it is never safe for a rule that has a component before
   * its first wildcard and matches anything below the root: matching ignores the slashes, the test
   * does not.
   */
  lemma SafeAgainstAllExactly(fits: (string, string) -> bool, rule: string)
    ensures SafeAgainstAll(fits, rule) <==>
            || LiteralPrefix(rule) == ""
            || forall path | Parts(path) != [] :: !Matches(fits, path, rule)
  {
    hide Parts, Plain, Matches, MayOverlap, Anchored, LiteralPrefix, Lead;
    if LiteralPrefix(rule) == "" {
      EmptyPrefixOverlaps(rule);
    } else if forall path | Parts(path) != [] :: !Matches(fits, path, rule) {
      MatchesNothing(fits, rule);
    } else {
      var path :| Parts(path) != [] && Matches(fits, path, rule);
      SlashEscapes(fits, path, rule);
    }
  }

  lemma MatchesNothing(fits: (string, string) -> bool, rule: string)
    requires forall path | Parts(path) != [] :: !Matches(fits, path, rule)
    ensures SafeAgainstAll(fits, rule)
  {
    hide Parts, Plain, Matches, MayOverlap, Anchored, LiteralPrefix, Lead;
    forall other, path | Anchored(other) && Matches(fits, path, rule) && Matches(fits, path, other)
      ensures MayOverlap(rule, other)
    {
      OverlapParts(rule, other);
      NothingPlain();
      if Parts(other) != [] { RootUnmatched(fits, path, other); }
    }
  }

  lemma EmptyPrefixOverlaps(rule: string)
    requires LiteralPrefix(rule) == ""
    ensures forall other :: MayOverlap(rule, other)
  {
  }

  lemma LeadCases(rule: string)
    ensures Lead(rule) in {"", "/", "//"}
  {
  }

  lemma Escapes(fits: (string, string) -> bool, path: string, rule: string)
    requires !Anchored(rule) && LiteralPrefix(rule) != "" && Parts(path) != [] && Matches(fits, path, rule)
    ensures exists other, deeper ::
              && Lead(other) == Lead(rule) && Anchored(other)
              && Matches(fits, deeper, rule) && Matches(fits, deeper, other) && !MayOverlap(rule, other)
  {
    hide Parts, Plain, Matches, MayOverlap, Anchored, LiteralPrefix, Lead;
    LiteralPrefixIs(rule);
    LeadCases(rule);
    var plain := Plain(Parts(rule));
    var d := if plain[0] == "a" then "b" else "a";
    var other := Lead(rule) + d + "/**";
    GlobMatchesDeeper(fits, path, rule, d);
    DirectoryRule(fits, Lead(rule), d, path);
    OverlapParts(rule, other);
    assert Matches(fits, Deeper(d, path), rule) && Matches(fits, Deeper(d, path), other);
  }

  /** The first component of a path as a rule that begins differently matches the path unreported. */
  lemma SlashEscapes(fits: (string, string) -> bool, path: string, rule: string)
    requires LiteralPrefix(rule) != "" && Parts(path) != [] && Matches(fits, path, rule)
    ensures exists other, deeper ::
              Anchored(other) && Matches(fits, deeper, rule) && Matches(fits, deeper, other) && !MayOverlap(rule, other)
  {
    hide Parts, Plain, Matches, MayOverlap, Anchored, LiteralPrefix, Lead;
    LiteralPrefixIs(rule);
    if !Anchored(rule) {
      Escapes(fits, path, rule);
    } else {
      var lead := if Lead(rule) == "" then "/" else "";
      var plain := Plain(Parts(rule));
      PlainComponents(Parts(rule));
      assert plain[0] in plain;
      NothingPlain();
      PlainNotWild(Parts(rule));
      var other := lead + plain[0];
      ComponentRule(fits, lead, plain[0], path);
      AnchoredMatches(fits, path, rule);
      OverlapParts(rule, other);
    }
  }

  lemma PlainNotWild(parts: seq<string>)
    requires Plain(parts) != []
    ensures parts != [] && Plain(parts)[0] == parts[0] && !Wild(parts[0])
  {
  }

  /** One component, as a rule, matches every path that begins with it. */
  lemma ComponentRule(fits: (string, string) -> bool, lead: string, d: string, path: string)
    requires d != "" && d != "." && SlashFree(d) && !Wild(d) && lead in {"", "/", "//"}
    requires Parts(path) != []
    ensures var rule := lead + d;
      && Parts(rule) == [d] && Plain(Parts(rule)) == [d] && Lead(rule) == lead && Anchored(rule)
      && (Parts(path)[0] == d ==> Matches(fits, path, rule))
  {
    hide Parts, Globbed;
    var rule := lead + d;
    assert d[0] in d;
    PartsOfOne(d);
    LeadingSlashes(lead, d);
    NormalizedParts(rule);
    assert Join([d]) == d;
    assert |d| >= 3 ==> d[|d| - 3..][0] == d[|d| - 3] && d[|d| - 3] in d;
    assert "/**"[0] == '/';
    AnchoredMatches(fits, path, rule);
  }
}

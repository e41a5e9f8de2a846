/**
 * Worker module globs, compiled to regular expression text one token at a time.
 */
module Globs {
  import opened Options
  import opened Regexes

  // ---- What a glob means, without regular expressions ----

  // `.` does not cross a line terminator, so neither does `**`.
  predicate OneLine(s: string) {
    forall i :: 0 <= i < |s| ==> s[i] !in LINE_TERMINATORS
  }

  predicate OneSegment(s: string) {
    forall i :: 0 <= i < |s| ==> s[i] != '/'
  }

  // A slash with one line, or part of one, before it.
  predicate SlashAt(path: string, i: nat)
    requires i < |path|
  {
    path[i] == '/' && OneLine(path[..i])
  }

  // The text of `p` at its start decides, and the rest of `p` matches the rest of `path`.
  ghost predicate Matches(p: string, path: string)
    decreases |p|, 0
  {
    if p == "" then path == ""
    else if "**/" <= p then
      || Matches(p[3..], path)
      || (exists i :: 0 <= i < |path| && AfterSlash(p[3..], path, i))
    else if "**" <= p then exists i :: 0 <= i <= |path| && OneLine(path[..i]) && Matches(p[2..], path[i..])
    else if p[0] == '*' then exists i :: 0 <= i <= |path| && OneSegment(path[..i]) && Matches(p[1..], path[i..])
    else if p[0] == '?' then path != "" && path[0] != '/' && Matches(p[1..], path[1..])
    else path != "" && path[0] == p[0] && Matches(p[1..], path[1..])
  }

  // `p` matches what follows the slash at `i`.
  ghost predicate AfterSlash(p: string, path: string, i: nat)
    requires i < |path|
    decreases |p|, 1
  {
    SlashAt(path, i) && Matches(p, path[i + 1..])
  }

  // ---- The compiler ----

  datatype Token = DeepSlash | Deep | Within | Any | Literal(c: char)

  function Next(p: string): (t: Token)
    requires p != ""
  {
    if "**/" <= p then DeepSlash else if "**" <= p then Deep
    else if p[0] == '*' then Within else if p[0] == '?' then Any else Literal(p[0])
  }

  function Width(t: Token): (n: nat)
    ensures 1 <= n <= 3
  {
    match t case DeepSlash => 3 case Deep => 2 case _ => 1
  }

  function Text(t: Token): (s: string)
    ensures s != "" && s[0] !in "*+?{|)"
  {
    match t
    case DeepSlash => "(?:.*/)?"
    case Deep => ".*"
    case Within => "[^/]*"
    case Any => "[^/]"
    case Literal(c) => if c in SYNTAX_CHARACTERS then ['\\', c] else [c]
  }

  function Emitted(p: string): (s: string)
    decreases |p|
  {
    if p == "" then "" else Text(Next(p)) + Emitted(p[Width(Next(p))..])
  }

  function Split(s: string): (parts: seq<string>)
    ensures parts != []
  {
    if s == "" then [""]
    else if s[0] == '/' then [""] + Split(s[1..])
    else
      var parts := Split(s[1..]);
      [[s[0]] + parts[0]] + parts[1..]
  }

  predicate Unsafe(p: string) {
    p == "" || '\U{0000}' in p || p[0] == '/' || ".." in Split(p)
  }

  // Empty, absolute, with a NUL, or climbing out through a `..` between two slashes or ends.
  ghost predicate Refused(p: string) {
    || p == "" || p[0] == '/' || (exists i :: 0 <= i < |p| && p[i] == '\U{0000}')
    || (exists i, j :: HasSegment(p, i, j, ".."))
  }

  lemma UnsafeIsRefused(p: string)
    ensures Unsafe(p) <==> Refused(p)
  {
    SplitFindsSegments(p, "..");
  }

  lemma NothingEmitted()
    ensures Emitted("") == ""
  {}

  lemma NextAt(p: string, i: nat)
    requires i < |p|
    ensures Next(p[i..]) ==
            (if p[i] == '*' && i + 1 < |p| && p[i + 1] == '*' then
               if i + 2 < |p| && p[i + 2] == '/' then DeepSlash else Deep
             else if p[i] == '*' then Within else if p[i] == '?' then Any else Literal(p[i]))
    ensures i + Width(Next(p[i..])) <= |p|
    ensures Emitted(p[i..]) == Text(Next(p[i..])) + Emitted(p[i + Width(Next(p[i..]))..])
  {
    var rest := p[i..];
    assert rest[0] == p[i];
    assert "**/" <= rest <==> |rest| >= 3 && rest[0] == '*' && rest[1] == '*' && rest[2] == '/';
    assert rest[Width(Next(rest))..] == p[i + Width(Next(rest))..];
  }

  method GlobPattern(pattern: string) returns (r: Option<string>)
    ensures r == if Unsafe(pattern) then None else Some("^" + Emitted(pattern) + "$")
    ensures r.None? <==> Refused(pattern)
  {
    UnsafeIsRefused(pattern);
    hide Unsafe, Emitted, Next, Refused;
    if Unsafe(pattern) { return None; }
    var source := "^";
    var index := 0;
    assert pattern[0..] == pattern;
    while index < |pattern|
      invariant 0 <= index <= |pattern|
      invariant source + Emitted(pattern[index..]) == "^" + Emitted(pattern)
    {
      var c := pattern[index];
      ghost var t := Next(pattern[index..]);
      ghost var source0, index0 := source, index;
      NextAt(pattern, index);
      if c == '*' && index + 1 < |pattern| && pattern[index + 1] == '*' {
        if index + 2 < |pattern| && pattern[index + 2] == '/' {
          source := source + "(?:.*/)?";
          index := index + 2;
        } else {
          source := source + ".*";
          index := index + 1;
        }
      } else if c == '*' {
        source := source + "[^/]*";
      } else if c == '?' {
        source := source + "[^/]";
      } else {
        source := source + (if c in SYNTAX_CHARACTERS then ['\\', c] else [c]);
      }
      index := index + 1;
      assert source == source0 + Text(t) && index == index0 + Width(t);
      calc {
        source + Emitted(pattern[index..]);
        source0 + (Text(t) + Emitted(pattern[index..]));
        source0 + Emitted(pattern[index0..]);
      }
    }
    assert pattern[index..] == "" && source + "" == source;
    NothingEmitted();
    r := Some(source + "$");
  }

  // ---- The emitted text parses to the intended expression ----

  function Intended(t: Token): (r: Regex) {
    match t
    case DeepSlash => Opt(Then(Star(Dot), Then(One('/'), Empty)))
    case Deep => Star(Dot)
    case Within => Star(NoneOf(['/']))
    case Any => NoneOf(['/'])
    case Literal(c) => One(c)
  }

  function Meant(p: string): (r: Regex)
    decreases |p|
  {
    if p == "" then Then(End, Empty) else Then(Intended(Next(p)), Meant(p[Width(Next(p))..]))
  }

  predicate NoQuantifier(s: string) {
    s == "" || s[0] !in "*+?{"
  }

  lemma ClassParses(rest: string)
    ensures ParseAtom("[^/]" + rest) == Some(Rest(NoneOf(['/']), rest))
  {
    var s := "[^/]" + rest;
    assert s[2..] == "/]" + rest;
    assert s[2..][1..] == "]" + rest && ("]" + rest)[1..] == rest;
    assert [] + ['/'] == ['/'];
    assert ParseClass("]" + rest, ['/']) == Some(Rest(NoneOf(['/']), rest));
  }

  lemma SlashParses(rest: string)
    ensures ParseAlternative("/)" + rest) == Some(Rest(Then(One('/'), Empty), ")" + rest))
  {
    var slash, close := "/)" + rest, ")" + rest;
    assert slash[1..] == close;
    assert ParseTerm(slash) == Some(Rest(One('/'), close));
    assert ParseAlternative(close) == Some(Rest(Empty, close));
  }

  lemma DotStarParses(rest: string)
    ensures ParseTerm(".*/" + rest) == Some(Rest(Star(Dot), "/" + rest))
  {
    var s := ".*/" + rest;
    assert s[1..] == "*/" + rest && ("*/" + rest)[1..] == "/" + rest;
    assert ParseAtom(s) == Some(Rest(Dot, "*/" + rest));
  }

  lemma GroupParses(rest: string)
    ensures ParseAtom("(?:.*/)" + rest) == Some(Rest(Then(Star(Dot), Then(One('/'), Empty)), rest))
  {
    var s, inner := "(?:.*/)" + rest, ".*/)" + rest;
    SlashParses(rest);
    DotStarParses(")" + rest);
    assert inner == ".*/" + (")" + rest) && "/" + (")" + rest) == "/)" + rest;
    assert ParseAlternative(inner) == Some(Rest(Then(Star(Dot), Then(One('/'), Empty)), ")" + rest)) by {
      hide ParseTerm;
    }
    assert s[3..] == inner && (")" + rest)[1..] == rest;
    hide ParseAlternative;
  }

  lemma TokenParses(t: Token, rest: string)
    requires NoQuantifier(rest)
    ensures ParseTerm(Text(t) + rest) == Some(Rest(Intended(t), rest))
  {
    hide ParseDisjunction, ParseAlternative, ParseClass;
    var s := Text(t) + rest;
    match t
    case DeepSlash =>
      assert s == "(?:.*/)" + ("?" + rest);
      GroupParses("?" + rest);
      assert ("?" + rest)[1..] == rest;
    case Deep =>
      assert s[1..] == "*" + rest && ("*" + rest)[1..] == rest;
    case Within =>
      assert s == "[^/]" + ("*" + rest);
      ClassParses("*" + rest);
      assert ("*" + rest)[1..] == rest;
    case Any =>
      ClassParses(rest);
    case Literal(c) =>
      if c in SYNTAX_CHARACTERS { assert s[1] == c && s[2..] == rest; } else { assert s[0] == c && s[1..] == rest; }
  }

  lemma {:induction false} BodyParses(p: string)
    ensures ParseAlternative(Emitted(p) + "$") == Some(Rest(Meant(p), ""))
    ensures NoQuantifier(Emitted(p) + "$")
    decreases |p|
  {
    var s := Emitted(p) + "$";
    if p == "" {
      assert s == "$" && s[1..] == "";
      assert ParseAlternative("") == Some(Rest(Empty, ""));
    } else {
      var t := Next(p);
      var more := p[Width(t)..];
      BodyParses(more);
      assert s == Text(t) + (Emitted(more) + "$");
      TokenParses(t, Emitted(more) + "$");
    }
  }

  lemma EmittedTextParses(p: string)
    ensures ParsePattern("^" + Emitted(p) + "$") == Some(Then(Begin, Meant(p)))
  {
    var s := "^" + Emitted(p) + "$";
    assert s[1..] == Emitted(p) + "$";
    BodyParses(p);
    assert ParseTerm(s) == Some(Rest(Begin, s[1..]));
    assert ParseAlternative(s) == Some(Rest(Then(Begin, Meant(p)), ""));
    assert ParseDisjunction(s) == Some(Rest(Then(Begin, Meant(p)), ""));
  }

  // ---- The intended expression matches what the glob means ----

  lemma OneLineSplits(c: char, s: string)
    ensures OneLine([c] + s) <==> c !in LINE_TERMINATORS && OneLine(s)
  {
    assert ([c] + s)[0] == c && ([c] + s)[1..] == s;
    assert forall i :: 0 <= i < |s| ==> s[i] == ([c] + s)[i + 1];
  }

  lemma OneSegmentSplits(c: char, s: string)
    ensures OneSegment([c] + s) <==> c != '/' && OneSegment(s)
  {
    assert ([c] + s)[0] == c && ([c] + s)[1..] == s;
    assert forall i :: 0 <= i < |s| ==> s[i] == ([c] + s)[i + 1];
  }

  lemma {:induction false} StarDot(s: string, i: nat, j: nat)
    requires i <= j <= |s|
    ensures MatchAt(Star(Dot), s, i, j) <==> OneLine(s[i..j])
    decreases j - i
  {
    if i < j {
      StarDot(s, i + 1, j);
      assert s[i..j] == [s[i]] + s[i + 1..j];
      OneLineSplits(s[i], s[i + 1..j]);
      if OneLine(s[i..j]) { assert MatchAt(Dot, s, i, i + 1) && MatchAt(Star(Dot), s, i + 1, j); }
    }
  }

  lemma {:induction false} StarSegment(s: string, i: nat, j: nat)
    requires i <= j <= |s|
    ensures MatchAt(Star(NoneOf(['/'])), s, i, j) <==> OneSegment(s[i..j])
    decreases j - i
  {
    if i < j {
      StarSegment(s, i + 1, j);
      assert s[i..j] == [s[i]] + s[i + 1..j];
      OneSegmentSplits(s[i], s[i + 1..j]);
      if OneSegment(s[i..j]) {
        assert MatchAt(NoneOf(['/']), s, i, i + 1) && MatchAt(Star(NoneOf(['/'])), s, i + 1, j);
      }
    }
  }

  // `.*` followed by a slash.
  lemma DeepGroup(s: string, i: nat, j: nat)
    requires i <= j <= |s|
    ensures MatchAt(Then(Star(Dot), Then(One('/'), Empty)), s, i, j) <==>
              i < j && s[j - 1] == '/' && OneLine(s[i..j - 1])
  {
    var tail := Then(One('/'), Empty);
    forall k: nat | i <= k <= j ensures MatchAt(tail, s, k, j) <==> j == k + 1 && s[k] == '/' {
      if j == k + 1 && s[k] == '/' { assert MatchAt(One('/'), s, k, k + 1) && MatchAt(Empty, s, k + 1, j); }
    }
    if i < j { StarDot(s, i, j - 1); }
    if i < j && s[j - 1] == '/' && OneLine(s[i..j - 1]) {
      assert MatchAt(Star(Dot), s, i, j - 1) && MatchAt(tail, s, j - 1, j);
    }
  }

  // A token can take the first `m` characters.
  ghost predicate Fits(t: Token, path: string, m: nat)
    requires m <= |path|
  {
    match t
    case DeepSlash => m == 0 || SlashAt(path, m - 1)
    case Deep => OneLine(path[..m])
    case Within => OneSegment(path[..m])
    case Any => m == 1 && path[0] != '/'
    case Literal(c) => m == 1 && path[0] == c
  }

  // A token takes the first `m` characters and the rest of the glob matches the rest of the path.
  ghost predicate Takes(t: Token, more: string, path: string, m: nat)
    requires m <= |path|
  {
    Fits(t, path, m) && Matches(more, path[m..])
  }

  // The reference takes one token from the path, then matches the rest.
  lemma MatchesToken(p: string, path: string)
    requires p != ""
    ensures Matches(p, path) <==> exists m :: 0 <= m <= |path| && Takes(Next(p), p[Width(Next(p))..], path, m)
  {
    var t, more := Next(p), p[Width(Next(p))..];
    match t
    case DeepSlash => MatchesDeepSlash(p, path);
    case Deep => MatchesStar(p, path);
    case Within => MatchesStar(p, path);
    case _ => MatchesOne(p, path);
  }

  lemma MatchesOne(p: string, path: string)
    requires p != "" && (Next(p).Any? || Next(p).Literal?)
    ensures Matches(p, path) <==> exists m :: 0 <= m <= |path| && Takes(Next(p), p[1..], path, m)
  {
    var t, more := Next(p), p[1..];
    if Matches(p, path) { assert Takes(t, more, path, 1); }
    hide Matches;
    if m: nat :| m <= |path| && Takes(t, more, path, m) { assert m == 1; }
  }

  lemma MatchesStar(p: string, path: string)
    requires p != "" && (Next(p).Deep? || Next(p).Within?)
    ensures Matches(p, path) <==> exists m :: 0 <= m <= |path| && Takes(Next(p), p[Width(Next(p))..], path, m)
  {
    var t, more := Next(p), p[Width(Next(p))..];
    if Matches(p, path) {
      var m: nat :| m <= |path| && Fits(t, path, m) && Matches(more, path[m..]);
      assert Takes(t, more, path, m);
    }
    if m: nat :| m <= |path| && Takes(t, more, path, m) { assert Fits(t, path, m) && Matches(more, path[m..]); }
  }

  lemma TakesSlash(more: string, path: string, m: nat)
    requires 0 < m <= |path|
    ensures Takes(DeepSlash, more, path, m) <==> AfterSlash(more, path, m - 1)
  {
    hide Matches, SlashAt;
  }

  lemma TakesNothing(more: string, path: string)
    ensures Takes(DeepSlash, more, path, 0) <==> Matches(more, path)
  {
    hide Matches;
    assert path[0..] == path;
  }

  lemma MatchesDeepSlash(p: string, path: string)
    requires p != "" && Next(p).DeepSlash?
    ensures Matches(p, path) <==> exists m :: 0 <= m <= |path| && Takes(DeepSlash, p[3..], path, m)
  {
    var more := p[3..];
    hide Takes, AfterSlash;
    TakesNothing(more, path);
    if i: nat :| i < |path| && AfterSlash(more, path, i) { TakesSlash(more, path, i + 1); }
    if m: nat :| m <= |path| && Takes(DeepSlash, more, path, m) {
      if m > 0 { TakesSlash(more, path, m); }
    }
  }

  // What the intended expression of one token matches.
  lemma TokenMatches(t: Token, s: string, i: nat, k: nat)
    requires i <= k <= |s|
    ensures MatchAt(Intended(t), s, i, k) <==> Fits(t, s[i..], k - i)
  {
    var path := s[i..];
    assert path[..k - i] == s[i..k];
    match t
    case DeepSlash =>
      DeepGroup(s, i, k);
      if i < k { assert path[..k - i - 1] == s[i..k - 1]; }
    case Deep => StarDot(s, i, k);
    case Within => StarSegment(s, i, k);
    case _ =>
  }

  lemma {:induction false} MeantMatches(p: string, s: string, i: nat)
    requires i <= |s|
    ensures MatchAt(Meant(p), s, i, |s|) <==> Matches(p, s[i..])
    decreases |p|, 1
  {
    if p != "" {
      MeantThenMatches(p, s, i);
    } else if i == |s| {
      assert MatchAt(End, s, i, i) && MatchAt(Empty, s, i, |s|);
    }
  }

  lemma {:induction false} MeantThenMatches(p: string, s: string, i: nat)
    requires i <= |s| && p != ""
    ensures MatchAt(Meant(p), s, i, |s|) <==> Matches(p, s[i..])
    decreases |p|, 0
  {
    var t := Next(p);
    var more := p[Width(t)..];
    assert Meant(p) == Then(Intended(t), Meant(more));
    if MatchAt(Meant(p), s, i, |s|) {
      hide *;
      var k := ThenSplits(Intended(t), Meant(more), s, i, |s|);
      MeantMatches(more, s, k);
      OneToken(t, more, s, i, k);
      TokenLeads(p, s[i..], k - i);
    }
    if Matches(p, s[i..]) {
      hide *;
      var m := TokenTaken(p, s[i..]);
      MeantMatches(more, s, i + m);
      OneToken(t, more, s, i, i + m);
    }
  }

  lemma TokenTaken(p: string, path: string) returns (m: nat)
    requires p != "" && Matches(p, path)
    ensures m <= |path| && Takes(Next(p), p[Width(Next(p))..], path, m)
  {
    MatchesToken(p, path);
    m :| 0 <= m <= |path| && Takes(Next(p), p[Width(Next(p))..], path, m);
  }

  lemma TokenLeads(p: string, path: string, m: nat)
    requires p != "" && m <= |path| && Takes(Next(p), p[Width(Next(p))..], path, m)
    ensures Matches(p, path)
  {
    MatchesToken(p, path);
  }

  // One token in front of a glob whose rest is already known to match alike.
  lemma OneToken(t: Token, more: string, s: string, i: nat, k: nat)
    requires i <= k <= |s| && (MatchAt(Meant(more), s, k, |s|) <==> Matches(more, s[k..]))
    ensures Takes(t, more, s[i..], k - i) <==> MatchAt(Intended(t), s, i, k) && MatchAt(Meant(more), s, k, |s|)
    ensures Takes(t, more, s[i..], k - i) ==> MatchAt(Then(Intended(t), Meant(more)), s, i, |s|)
  {
    TokenMatches(t, s, i, k);
    TakesHere(t, more, s, i, k);
    hide Matches, Takes, Fits, Intended, MatchAt, Meant;
    if Takes(t, more, s[i..], k - i) { ThenJoins(Intended(t), Meant(more), s, i, k, |s|); }
  }

  lemma ThenJoins(a: Regex, b: Regex, s: string, i: nat, k: nat, j: nat)
    requires i <= k <= j <= |s| && MatchAt(a, s, i, k) && MatchAt(b, s, k, j)
    ensures MatchAt(Then(a, b), s, i, j)
  {}

  lemma TakesHere(t: Token, more: string, s: string, i: nat, k: nat)
    requires i <= k <= |s|
    ensures Takes(t, more, s[i..], k - i) <==> Fits(t, s[i..], k - i) && Matches(more, s[k..])
  {
    assert s[i..][k - i..] == s[k..];
  }

  lemma ThenSplits(a: Regex, b: Regex, s: string, i: nat, j: nat) returns (k: nat)
    requires i <= j <= |s| && MatchAt(Then(a, b), s, i, j)
    ensures i <= k <= j && MatchAt(a, s, i, k) && MatchAt(b, s, k, j)
  {
    k :| i <= k <= j && MatchAt(a, s, i, k) && MatchAt(b, s, k, j);
  }

  lemma AnchoredTest(r: Regex, s: string)
    ensures Test(Then(Begin, r), s) <==> exists j :: 0 <= j <= |s| && MatchAt(r, s, 0, j)
  {
    var re := Then(Begin, r);
    if j :| 0 <= j <= |s| && MatchAt(r, s, 0, j) {
      assert MatchAt(Begin, s, 0, 0) && MatchAt(re, s, 0, j);
    }
    if Test(re, s) {
      var i: nat, j: nat :| i <= j <= |s| && MatchAt(re, s, i, j);
      var k := ThenSplits(Begin, r, s, i, j);
      assert MatchAt(r, s, 0, j);
    }
  }

  // The expression compiled from a glob accepts exactly the paths the glob means.
  lemma CompiledGlobMatchesExactly(p: string, path: string)
    ensures ParsePattern("^" + Emitted(p) + "$").Some?
    ensures Test(ParsePattern("^" + Emitted(p) + "$").value, path) <==> Matches(p, path)
  {
    EmittedTextParses(p);
    AnchoredTest(Meant(p), path);
    MeantMatches(p, path, 0);
    assert path[0..] == path;
    hide Matches, Test, Meant, MatchAt, ParsePattern, Emitted;
    if j :| 0 <= j <= |path| && MatchAt(Meant(p), path, 0, j) { EndsAtTheEnd(p, path, 0, j); }
  }

  lemma {:induction false} EndsAtTheEnd(p: string, s: string, i: nat, j: nat)
    requires i <= j <= |s| && MatchAt(Meant(p), s, i, j)
    ensures j == |s|
    decreases |p|
  {
    if p != "" {
      var more := p[Width(Next(p))..];
      var k :| i <= k <= j && MatchAt(Intended(Next(p)), s, i, k) && MatchAt(Meant(more), s, k, j);
      EndsAtTheEnd(more, s, k, j);
    }
  }

  // ---- Paths without line terminators, and unsafe globs ----

  // The reading of a glob that its users have in mind: `**` takes anything.
  ghost predicate Plainly(p: string, path: string)
    decreases |p|
  {
    if p == "" then path == ""
    else if "**/" <= p then
      || Plainly(p[3..], path)
      || (exists i :: 0 <= i < |path| && path[i] == '/' && Plainly(p[3..], path[i + 1..]))
    else if "**" <= p then exists i :: 0 <= i <= |path| && Plainly(p[2..], path[i..])
    else if p[0] == '*' then exists i :: 0 <= i <= |path| && OneSegment(path[..i]) && Plainly(p[1..], path[i..])
    else if p[0] == '?' then path != "" && path[0] != '/' && Plainly(p[1..], path[1..])
    else path != "" && path[0] == p[0] && Plainly(p[1..], path[1..])
  }

  lemma {:induction false} PlainOnOneLine(p: string, path: string)
    requires OneLine(path)
    ensures Matches(p, path) <==> Plainly(p, path)
    decreases |p|
  {
    if p != "" {
      var more := p[Width(Next(p))..];
      forall i | 0 <= i <= |path|
        ensures OneLine(path[..i]) && (Matches(more, path[i..]) <==> Plainly(more, path[i..]))
      {
        PlainOnOneLine(more, path[i..]);
      }
      assert path[0..] == path;
      if "**/" <= p {
        forall i: nat | i < |path|
          ensures AfterSlash(more, path, i) <==> path[i] == '/' && Plainly(more, path[i + 1..])
        {
          assert OneLine(path[..i]);
          PlainOnOneLine(more, path[i + 1..]);
        }
      }
    }
  }

  // A glob is refused exactly when it is empty, absolute, holds a NUL or climbs with a `..` segment.
  ghost predicate HasSegment(p: string, i: nat, j: nat, part: string) {
    && i <= j <= |p| && p[i..j] == part
    && (i == 0 || p[i - 1] == '/') && (j == |p| || p[j] == '/')
  }

  lemma {:induction false} FirstSegment(p: string, part: string)
    requires OneSegment(part)
    ensures part == Split(p)[0] <==> HasSegment(p, 0, |part|, part)
  {
    if p != "" && p[0] != '/' {
      if part != "" {
        FirstSegment(p[1..], part[1..]);
        assert p == [p[0]] + p[1..] && part == [part[0]] + part[1..];
      }
    }
  }

  lemma SegmentShifts(p: string, i: nat, j: nat, part: string)
    requires p != "" && 0 < i <= j
    ensures HasSegment(p, i, j, part) <==> HasSegment(p[1..], i - 1, j - 1, part) && (i == 1 ==> p[0] == '/')
  {
    if j <= |p| { assert p[1..][i - 1..j - 1] == p[i..j]; }
  }

  lemma {:induction false} LaterSegments(p: string, part: string)
    requires OneSegment(part)
    ensures part in Split(p)[1..] <==> exists i, j :: 0 < i && HasSegment(p, i, j, part)
  {
    if p != "" {
      var more := p[1..];
      LaterSegments(more, part);
      FirstSegment(more, part);
      assert Split(more) == [Split(more)[0]] + Split(more)[1..];
      if i: nat, j: nat :| 0 < i && HasSegment(p, i, j, part) {
        SegmentShifts(p, i, j, part);
        assert HasSegment(more, i - 1, j - 1, part);
      }
      if i: nat, j: nat :| 0 < i && HasSegment(more, i, j, part) { SegmentShifts(p, i + 1, j + 1, part); }
      if p[0] == '/' && HasSegment(more, 0, |part|, part) { SegmentShifts(p, 1, |part| + 1, part); }
    }
  }

  // Splitting at the slashes yields exactly the stretches between slashes.
  lemma SplitFindsSegments(p: string, part: string)
    requires OneSegment(part)
    ensures part in Split(p) <==> exists i, j :: HasSegment(p, i, j, part)
  {
    assert Split(p) == [Split(p)[0]] + Split(p)[1..];
    FirstSegment(p, part);
    LaterSegments(p, part);
  }
}

/**
 * The part of ECMAScript regular expressions that globs are compiled to: a pattern parser for the
 * `u` flag (section 22.2.1 of ECMA-262) and matching by positions (section 22.2.2). Characters
 * are code points. The parser refuses whatever is outside that part.
 */
module Regexes {
  import opened Options

  datatype Regex =
    | Empty
    | Begin
    | End
    | One(c: char)
    | Dot
    | NoneOf(excluded: seq<char>)
    | Star(body: Regex)
    | Opt(body: Regex)
    | Then(first: Regex, second: Regex)
    | Or(left: Regex, right: Regex)

  const LINE_TERMINATORS: string := "\n\r\U{2028}\U{2029}"
  const SYNTAX_CHARACTERS: string := "^$\\.*+?()[]{}|"

  // ---- Matching ----

  // `r` matches the characters of `s` from position `i` up to position `j`.
  ghost predicate MatchAt(r: Regex, s: string, i: nat, j: nat)
    requires i <= j <= |s|
    decreases r, j - i
  {
    match r
    case Empty => i == j
    case Begin => i == j == 0
    case End => i == j == |s|
    case One(c) => j == i + 1 && s[i] == c
    case Dot => j == i + 1 && s[i] !in LINE_TERMINATORS
    case NoneOf(cs) => j == i + 1 && s[i] !in cs
    case Star(b) => i == j || exists k :: i < k <= j && MatchAt(b, s, i, k) && MatchAt(r, s, k, j)
    case Opt(b) => i == j || MatchAt(b, s, i, j)
    case Then(a, b) => exists k :: i <= k <= j && MatchAt(a, s, i, k) && MatchAt(b, s, k, j)
    case Or(a, b) => MatchAt(a, s, i, j) || MatchAt(b, s, i, j)
  }

  // `RegExp.prototype.test`: a match anywhere.
  ghost predicate Test(r: Regex, s: string) {
    exists i, j :: 0 <= i <= j <= |s| && MatchAt(r, s, i, j)
  }

  // ---- Parsing ----

  datatype Rest = Rest(re: Regex, rest: string)

  function ParsePattern(s: string): (r: Option<Regex>) {
    match ParseDisjunction(s)
    case Some(Rest(re, "")) => Some(re)
    case _ => None
  }

  function ParseDisjunction(s: string): (r: Option<Rest>)
    ensures r.Some? ==> |r.value.rest| <= |s|
    decreases |s|, 3
  {
    var left := ParseAlternative(s);
    if left.None? || left.value.rest == "" || left.value.rest[0] != '|' then left
    else
      var right := ParseDisjunction(left.value.rest[1..]);
      if right.None? then None else Some(Rest(Or(left.value.re, right.value.re), right.value.rest))
  }

  function ParseAlternative(s: string): (r: Option<Rest>)
    ensures r.Some? ==> |r.value.rest| <= |s|
    decreases |s|, 2
  {
    if s == "" || s[0] == '|' || s[0] == ')' then Some(Rest(Empty, s))
    else
      var term := ParseTerm(s);
      if term.None? then None
      else
        var more := ParseAlternative(term.value.rest);
        if more.None? then None else Some(Rest(Then(term.value.re, more.value.re), more.value.rest))
  }

  function ParseTerm(s: string): (r: Option<Rest>)
    requires s != ""
    ensures r.Some? ==> |r.value.rest| < |s|
    decreases |s|, 1
  {
    if s[0] == '^' then Some(Rest(Begin, s[1..]))
    else if s[0] == '$' then Some(Rest(End, s[1..]))
    else
      var atom := ParseAtom(s);
      if atom.None? then None else ParseQuantifier(atom.value.re, atom.value.rest)
  }

  // A quantifier, if there is one; a lazy one matches the same strings.
  function ParseQuantifier(re: Regex, s: string): (r: Option<Rest>)
    ensures r.Some? ==> |r.value.rest| <= |s|
  {
    if s == "" || s[0] !in "*+?{" then Some(Rest(re, s))
    else if s[0] == '{' then None
    else
      var rest := if |s| > 1 && s[1] == '?' then s[2..] else s[1..];
      Some(Rest(if s[0] == '*' then Star(re) else if s[0] == '+' then Then(re, Star(re)) else Opt(re), rest))
  }

  function ParseAtom(s: string): (r: Option<Rest>)
    requires s != ""
    ensures r.Some? ==> |r.value.rest| < |s|
    decreases |s|, 0
  {
    if s[0] == '.' then Some(Rest(Dot, s[1..]))
    else if s[0] == '\\' then
      if |s| > 1 && (s[1] in SYNTAX_CHARACTERS || s[1] == '/') then Some(Rest(One(s[1]), s[2..])) else None
    else if s[0] == '[' then
      if |s| > 1 && s[1] == '^' then ParseClass(s[2..], []) else None
    else if s[0] == '(' then
      if |s| < 3 || s[1] != '?' || s[2] != ':' then None
      else
        var inner := ParseDisjunction(s[3..]);
        if inner.None? || inner.value.rest == "" || inner.value.rest[0] != ')' then None
        else Some(Rest(inner.value.re, inner.value.rest[1..]))
    else if s[0] in SYNTAX_CHARACTERS then None
    else Some(Rest(One(s[0]), s[1..]))
  }

  // The members of a negated class, up to the closing bracket; no ranges and no escapes.
  function ParseClass(s: string, members: seq<char>): (r: Option<Rest>)
    ensures r.Some? ==> |r.value.rest| < |s|
    decreases |s|, 0
  {
    if s == "" || s[0] in "\\-[" then None
    else if s[0] == ']' then Some(Rest(NoneOf(members), s[1..]))
    else ParseClass(s[1..], members + [s[0]])
  }
}

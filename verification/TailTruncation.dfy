/**
 * The tail of a command's output: at most 2000 lines and 50 KiB, whole lines where possible, and
 * otherwise the end of the last line cut between two characters. Text is its UTF-8 bytes.
 */
module TailTruncation {
  import opened Bytes

  const MAX_LINES: nat := 2000
  const MAX_BYTES: nat := 50 * 1024
  const NEWLINE: Byte := 10

  // ---- Lines ----

  function Split(s: seq<Byte>): (lines: seq<seq<Byte>>)
    ensures lines != []
  {
    if s == [] then [[]]
    else if s[0] == NEWLINE then [[]] + Split(s[1..])
    else
      var more := Split(s[1..]);
      [[s[0]] + more[0]] + more[1..]
  }

  function Join(lines: seq<seq<Byte>>): (s: seq<Byte>) {
    if lines == [] then [] else if |lines| == 1 then lines[0] else lines[0] + [NEWLINE] + Join(lines[1..])
  }

  // The text without one final newline.
  function Body(content: seq<Byte>): (s: seq<Byte>) {
    if content != [] && content[|content| - 1] == NEWLINE then content[..|content| - 1] else content
  }

  function Lines(content: seq<Byte>): (lines: seq<seq<Byte>>) {
    if content == [] then [] else Split(Body(content))
  }

  // A character in front of the first line is in front of the whole text.
  lemma JoinPrepends(c: Byte, lines: seq<seq<Byte>>)
    requires lines != []
    ensures Join([[c] + lines[0]] + lines[1..]) == [c] + Join(lines)
  {
    var more := [[c] + lines[0]] + lines[1..];
    assert more[1..] == lines[1..];
    if |lines| > 1 { assert Join(more) == [c] + lines[0] + [NEWLINE] + Join(lines[1..]); }
  }

  lemma JoinEmptyLine(lines: seq<seq<Byte>>)
    requires lines != []
    ensures Join([[]] + lines) == [NEWLINE] + Join(lines)
  {
    assert ([[]] + lines)[1..] == lines;
  }

  lemma {:induction false} JoinSplit(s: seq<Byte>)
    ensures Join(Split(s)) == s
  {
    if s != [] {
      hide Join;
      JoinSplit(s[1..]);
      var more := Split(s[1..]);
      if s[0] == NEWLINE { JoinEmptyLine(more); } else { JoinPrepends(s[0], more); }
      assert s == [s[0]] + s[1..];
    }
  }

  lemma LinesJoin(content: seq<Byte>)
    ensures Join(Lines(content)) == Body(content)
  {
    if content != [] { JoinSplit(Body(content)); }
  }

  // ---- Counting lines ----

  function Newlines(s: seq<Byte>): (n: nat) {
    if s == [] then 0 else (if s[0] == NEWLINE then 1 else 0) + Newlines(s[1..])
  }

  predicate OneLine(s: seq<Byte>) { NEWLINE !in s }

  lemma {:induction false} NewlinesAdd(a: seq<Byte>, b: seq<Byte>)
    ensures Newlines(a + b) == Newlines(a) + Newlines(b)
  {
    if a == [] {
      assert a + b == b;
    } else {
      assert (a + b)[1..] == a[1..] + b;
      NewlinesAdd(a[1..], b);
    }
  }

  lemma {:induction false} NoNewlines(s: seq<Byte>)
    requires OneLine(s)
    ensures Newlines(s) == 0
  {
    if s != [] { NoNewlines(s[1..]); }
  }

  // A newline ends a line and nothing else does.
  lemma {:induction false} SplitIsLines(s: seq<Byte>)
    ensures |Split(s)| == Newlines(s) + 1
    ensures forall i :: 0 <= i < |Split(s)| ==> OneLine(Split(s)[i])
  {
    if s != [] { SplitIsLines(s[1..]); }
  }

  lemma LineCount(content: seq<Byte>)
    ensures |Lines(content)| <= Newlines(content) + 1
  {
    if content != [] {
      var body := Body(content);
      SplitIsLines(body);
      if body != content {
        assert content == body + [NEWLINE];
        NewlinesAdd(body, [NEWLINE]);
      }
    }
  }

  lemma {:induction false} JoinedLines(lines: seq<seq<Byte>>)
    requires lines != [] && forall i :: 0 <= i < |lines| ==> OneLine(lines[i])
    ensures Newlines(Join(lines)) == |lines| - 1
  {
    NoNewlines(lines[0]);
    if |lines| > 1 {
      JoinedLines(lines[1..]);
      NewlinesAdd(lines[0], [NEWLINE]);
      NewlinesAdd(lines[0] + [NEWLINE], Join(lines[1..]));
      assert Newlines([NEWLINE]) == 1 + Newlines([]);
    }
  }

  // Joining some of the lines of a text gives that many lines, or one less if the last is empty.
  lemma KeptLines(content: seq<Byte>, k: nat)
    requires content != [] && k < |Lines(content)|
    ensures |Lines(Join(Lines(content)[k..]))| <= |Lines(content)| - k
  {
    var kept := Lines(content)[k..];
    SplitIsLines(Body(content));
    JoinedLines(kept);
    LineCount(Join(kept));
  }

  lemma PartOfALine(content: seq<Byte>, start: nat)
    requires content != [] && start <= |Lines(content)[|Lines(content)| - 1]|
    ensures |Lines(Lines(content)[|Lines(content)| - 1][start..])| <= 1
  {
    var part := Lines(content)[|Lines(content)| - 1][start..];
    SplitIsLines(Body(content));
    NoNewlines(part);
    LineCount(part);
  }

  predicate IsSuffix(a: seq<Byte>, b: seq<Byte>) {
    |a| <= |b| && b[|b| - |a|..] == a
  }

  lemma {:induction false} LaterLinesAreASuffix(lines: seq<seq<Byte>>, k: nat)
    requires k <= |lines|
    ensures IsSuffix(Join(lines[k..]), Join(lines))
  {
    if k == 0 {
      assert lines[0..] == lines;
    } else {
      assert lines[1..][k - 1..] == lines[k..];
      LaterLinesAreASuffix(lines[1..], k - 1);
    }
  }

  // What one more line in front adds.
  lemma JoinOneMore(lines: seq<seq<Byte>>, k: nat)
    requires k < |lines|
    ensures lines[k..] == [lines[k]] + lines[k + 1..]
    ensures |Join(lines[k..])| == |lines[k]| + (if k + 1 < |lines| then 1 else 0) + |Join(lines[k + 1..])|
  {
    assert lines[k..] == [lines[k]] + lines[k + 1..];
  }

  // ---- Characters ----

  // A byte that continues a character: its two high bits are 10.
  predicate Continues(b: Byte) { b as int / 64 == 2 }

  // `start` is where the longest suffix within the budget begins that does not begin inside a character.
  ghost predicate LongestWhole(line: seq<Byte>, start: nat) {
    && start <= |line| && |line| - start <= MAX_BYTES
    && (start < |line| ==> !Continues(line[start]))
    && (forall k :: 0 <= k < start && |line| - k <= MAX_BYTES ==> Continues(line[k]))
  }

  method PartialStart(line: seq<Byte>) returns (start: nat)
    ensures LongestWhole(line, start)
  {
    start := if |line| > MAX_BYTES then |line| - MAX_BYTES else 0;
    while start < |line| && Continues(line[start])
      invariant start <= |line| && |line| - start <= MAX_BYTES
      invariant forall k :: 0 <= k < start && |line| - k <= MAX_BYTES ==> Continues(line[k])
    {
      start := start + 1;
    }
  }

  // ---- The truncation ----

  datatype By = ByLines | ByBytes
  datatype Tail = Tail(
    content: seq<Byte>, truncated: bool, truncatedBy: By, totalLines: nat, outputLines: nat, lastLinePartial: bool)

  // Nothing could be added in front: the line budget is used up, all lines are there, or the next
  // line would break the byte budget.
  ghost predicate Maximal(lines: seq<seq<Byte>>, n: nat)
    requires n <= |lines|
  {
    || n == MAX_LINES || n == |lines|
    || |Join(lines[|lines| - n - 1..])| > MAX_BYTES
  }

  // Whole lines from the end, as many as both budgets allow; `full` when the next one is too long.
  method Collect(lines: seq<seq<Byte>>) returns (output: seq<seq<Byte>>, full: bool)
    ensures |output| <= |lines| && output == lines[|lines| - |output|..]
    ensures |output| <= MAX_LINES && |Join(output)| <= MAX_BYTES
    ensures full ==>
              |output| < MAX_LINES && |output| < |lines| && |Join(lines[|lines| - |output| - 1..])| > MAX_BYTES
    ensures !full ==> |output| == MAX_LINES || |output| == |lines|
  {
    hide Join;
    output, full := [], false;
    NoLines([]);
    var bytes := 0;
    var index := |lines| - 1;
    while index >= 0 && |output| < MAX_LINES
      invariant -1 <= index < |lines| && output == lines[index + 1..]
      invariant |output| <= MAX_LINES && bytes == |Join(output)| <= MAX_BYTES
      decreases index
    {
      var lineBytes := |lines[index]| + (if |output| > 0 then 1 else 0);
      JoinOneMore(lines, index);
      if bytes + lineBytes > MAX_BYTES { return output, true; }
      output := [lines[index]] + output;
      bytes := bytes + lineBytes;
      index := index - 1;
    }
  }

  method TruncatePiBashTail(content: seq<Byte>) returns (r: Tail)
    ensures |r.content| <= MAX_BYTES && |Lines(r.content)| <= r.outputLines <= MAX_LINES
    ensures r.totalLines == |Lines(content)|
    ensures r.truncated <==> |Lines(content)| > MAX_LINES || |content| > MAX_BYTES
    ensures !r.truncated ==> r.content == content && r.outputLines == r.totalLines
    ensures r.truncated ==> IsSuffix(r.content, Body(content))
    ensures r.lastLinePartial <==> r.truncated && |Lines(content)[|Lines(content)| - 1]| > MAX_BYTES
    ensures r.truncated && !r.lastLinePartial ==>
              && 0 < r.outputLines <= |Lines(content)|
              && r.content == Join(Lines(content)[|Lines(content)| - r.outputLines..])
              && Maximal(Lines(content), r.outputLines)
    ensures r.lastLinePartial ==>
              && r.outputLines == 1 && IsSuffix(r.content, Lines(content)[|Lines(content)| - 1])
              && LongestWhole(Lines(content)[|Lines(content)| - 1],
                  |Lines(content)[|Lines(content)| - 1]| - |r.content|)
    ensures r.truncated ==>
              (r.truncatedBy == ByBytes <==>
                 r.lastLinePartial || (r.outputLines < MAX_LINES && r.outputLines < |Lines(content)|))
  {
    hide Join, Split, Lines, IsSuffix, LongestWhole, Continues;
    var lines := Lines(content);
    var totalLines := |lines|;
    NoLines(content);
    if totalLines <= MAX_LINES && |content| <= MAX_BYTES {
      return Tail(content, false, ByLines, totalLines, totalLines, false);
    }
    LinesJoin(content);
    var output, full := Collect(lines);
    LastLineAlone(lines);
    if full && output == [] {
      var start := PartialStart(lines[totalLines - 1]);
      LastLineIsASuffix(lines, start);
      PartOfALine(content, start);
      return Tail(lines[totalLines - 1][start..], true, ByBytes, totalLines, 1, true);
    }
    LaterLinesAreASuffix(lines, totalLines - |output|);
    if output != [] {
      JoinIsLonger(lines, totalLines - |output|);
      KeptLines(content, totalLines - |output|);
    }
    return Tail(Join(output), true, if full then ByBytes else ByLines, totalLines, |output|, false);
  }

  lemma LastLineAlone(lines: seq<seq<Byte>>)
    requires lines != []
    ensures Join(lines[|lines| - 1..]) == lines[|lines| - 1]
  {
    assert lines[|lines| - 1..] == [lines[|lines| - 1]];
  }

  // The last line is part of every tail.
  lemma {:induction false} JoinIsLonger(lines: seq<seq<Byte>>, k: nat)
    requires k < |lines|
    ensures |Join(lines[k..])| >= |lines[|lines| - 1]|
    decreases |lines| - k
  {
    if k == |lines| - 1 { LastLineAlone(lines); } else { JoinOneMore(lines, k); JoinIsLonger(lines, k + 1); }
  }

  lemma NoLines(content: seq<Byte>)
    ensures Lines(content) == [] <==> content == []
    ensures Join([]) == []
  {}

  lemma LastLineIsASuffix(lines: seq<seq<Byte>>, start: nat)
    requires lines != [] && LongestWhole(lines[|lines| - 1], start)
    ensures start <= |lines[|lines| - 1]| && |lines[|lines| - 1]| - start <= MAX_BYTES
    ensures IsSuffix(lines[|lines| - 1][start..], lines[|lines| - 1])
    ensures IsSuffix(lines[|lines| - 1][start..], Join(lines))
  {
    var n := |lines| - 1;
    LaterLinesAreASuffix(lines, n);
    assert lines[n..] == [lines[n]];
  }

  // ---- The cut is between two characters (section 3 of RFC 3629) ----

  function Encode(c: char): (b: seq<Byte>)
    ensures b != [] && !Continues(b[0])
    ensures forall i :: 1 <= i < |b| ==> Continues(b[i])
  {
    var n := c as int;
    if n < 0x80 then [n as Byte]
    else if n < 0x800 then [(0xC0 + n / 64) as Byte, (0x80 + n % 64) as Byte]
    else if n < 0x10000 then [(0xE0 + n / 4096) as Byte, (0x80 + n / 64 % 64) as Byte, (0x80 + n % 64) as Byte]
    else
      [(0xF0 + n / 262144) as Byte, (0x80 + n / 4096 % 64) as Byte, (0x80 + n / 64 % 64) as Byte,
          (0x80 + n % 64) as Byte]
  }

  function Utf8(s: string): (b: seq<Byte>) {
    if s == "" then [] else Encode(s[0]) + Utf8(s[1..])
  }

  // A start that is not inside a character is the start of a character.
  lemma {:induction false} StartsACharacter(s: string, start: nat) returns (k: nat)
    requires start <= |Utf8(s)| && (start < |Utf8(s)| ==> !Continues(Utf8(s)[start]))
    ensures k <= |s| && Utf8(s)[start..] == Utf8(s[k..])
  {
    if start == 0 {
      assert s[0..] == s;
      return 0;
    }
    var e := Encode(s[0]);
    assert start < |Utf8(s)| ==> Utf8(s)[start] == Utf8(s[1..])[start - |e|];
    var j := StartsACharacter(s[1..], start - |e|);
    assert s[1..][j..] == s[j + 1..];
    assert Utf8(s)[start..] == Utf8(s[1..])[start - |e|..];
    return j + 1;
  }

  lemma {:induction false} Utf8Suffix(s: string, k: nat)
    requires k <= |s|
    ensures IsSuffix(Utf8(s[k..]), Utf8(s))
  {
    if k == 0 {
      assert s[0..] == s;
    } else {
      Utf8Suffix(s[1..], k - 1);
      assert s[1..][k - 1..] == s[k..];
    }
  }

  // Of a line that is too long, the longest run of whole characters at its end that fits is kept.
  lemma PartialLineKeepsWholeCharacters(s: string, start: nat) returns (k: nat)
    requires LongestWhole(Utf8(s), start)
    ensures k <= |s| && Utf8(s)[start..] == Utf8(s[k..]) && |Utf8(s[k..])| <= MAX_BYTES
    ensures k > 0 ==> |Utf8(s[k - 1..])| > MAX_BYTES
  {
    k := StartsACharacter(s, start);
    if k > 0 {
      var whole, more := Utf8(s), Utf8(s[k - 1..]);
      Utf8Suffix(s, k - 1);
      assert s[k - 1..][1..] == s[k..];
      var p := |whole| - |more|;
      assert whole[p..] == more;
      assert whole[p] == more[0] == Encode(s[k - 1])[0];
    }
  }
}

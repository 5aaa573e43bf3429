/**
 * String operations the stream decoder and the feedback form rely on:
 * JavaScript's `trim() === ''` test, `startsWith`, and `split('\n')` with its
 * inverse, plus the facts about line splitting that make the decoder's
 * carry-over buffer correct.
 */
module Text {

  /**
   * The characters JavaScript's `String.prototype.trim` removes: the
   * WhiteSpace and LineTerminator code points of ECMAScript (tab, vertical
   * tab, form feed, space, no-break space, byte-order mark, the other Unicode
   * space separators, line feed, carriage return, line and paragraph separator).
   */
  predicate IsWhitespace(c: char) {
    c == '\t' || c == '\n' || c == '\U{000B}' || c == '\U{000C}' || c == '\r' || c == ' '
    || c == '\U{00A0}' || c == '\U{1680}' || ('\U{2000}' <= c <= '\U{200A}')
    || c == '\U{2028}' || c == '\U{2029}' || c == '\U{202F}' || c == '\U{205F}'
    || c == '\U{3000}' || c == '\U{FEFF}'
  }

  /** Every character of `s` is whitespace: the test behind `s.trim() === ''` (see `BlankIffTrimEmpty`). */
  predicate IsBlank(s: string) {
    forall i :: 0 <= i < |s| ==> IsWhitespace(s[i])
  }

  /** `s.trimStart()`: what is left after the leading whitespace. */
  function TrimStart(s: string): (r: string)
    ensures |r| <= |s| && r == s[|s| - |r|..]
    ensures IsBlank(s[..|s| - |r|])
    ensures r != [] ==> !IsWhitespace(r[0])
  {
    if s != [] && IsWhitespace(s[0]) then TrimStart(s[1..]) else s
  }

  /** `s.trimEnd()`: what is left before the trailing whitespace. */
  function TrimEnd(s: string): (r: string)
    ensures |r| <= |s| && r == s[..|r|]
    ensures IsBlank(s[|r|..])
    ensures r != [] ==> !IsWhitespace(r[|r| - 1])
  {
    if s != [] && IsWhitespace(s[|s| - 1]) then TrimEnd(s[..|s| - 1]) else s
  }

  /** `s.trim()`. */
  function Trim(s: string): string {
    TrimEnd(TrimStart(s))
  }

  /** `s.trim() === ''` holds exactly when every character of `s` is whitespace. */
  lemma BlankIffTrimEmpty(s: string)
    ensures Trim(s) == "" <==> IsBlank(s)
  {
    var t := TrimStart(s);
    assert s == s[..|s| - |t|] + t;
    assert t != [] ==> t[0] == s[|s| - |t|];
  }

  predicate StartsWith(s: string, prefix: string) {
    |prefix| <= |s| && s[..|prefix|] == prefix
  }

  predicate NoNewline(s: string) {
    '\n' !in s
  }

  predicate AllNoNewline(parts: seq<string>) {
    forall i :: 0 <= i < |parts| ==> NoNewline(parts[i])
  }

  /** `parts.join('\n')`. */
  function Join(parts: seq<string>): string
    requires |parts| >= 1
  {
    if |parts| == 1 then parts[0] else parts[0] + "\n" + Join(parts[1..])
  }

  /** Each line followed by its terminator, concatenated. */
  function Terminated(lines: seq<string>): string {
    if lines == [] then "" else lines[0] + "\n" + Terminated(lines[1..])
  }

  /** The concatenation of a sequence of strings, in order. */
  function Concat(chunks: seq<string>): string {
    if chunks == [] then "" else Concat(chunks[..|chunks| - 1]) + chunks[|chunks| - 1]
  }

  /**
   * `s.split('\n')`: always at least one part, no part holds a line feed, and
   * joining the parts with line feeds gives `s` back.
   */
  function Split(s: string): (parts: seq<string>)
    ensures |parts| >= 1
    ensures AllNoNewline(parts)
    ensures Join(parts) == s
  {
    if s == [] then [""]
    else
      var rest := Split(s[1..]);
      if s[0] == '\n' then
        assert Join([""] + rest) == "" + "\n" + Join(rest);
        [""] + rest
      else
        var parts := [[s[0]] + rest[0]] + rest[1..];
        assert parts[1..] == rest[1..];
        assert |rest| > 1 ==> Join(rest) == rest[0] + "\n" + Join(rest[1..]);
        assert s == [s[0]] + s[1..];
        parts
  }

  /** The complete lines of `s`: every part of `s.split('\n')` but the last. */
  function CompleteLines(s: string): (lines: seq<string>)
    ensures AllNoNewline(lines)
  {
    var parts := Split(s);
    parts[..|parts| - 1]
  }

  /** The text after the last line feed of `s` (`lines.pop()`). */
  function Remainder(s: string): (rest: string)
    ensures NoNewline(rest)
  {
    var parts := Split(s);
    parts[|parts| - 1]
  }

  lemma {:induction false} SplitNoNewline(s: string)
    requires NoNewline(s)
    ensures Split(s) == [s]
  {
    if s != [] {
      assert NoNewline(s[1..]) by { assert forall c :: c in s[1..] ==> c in s; }
      SplitNoNewline(s[1..]);
      assert [s[0]] + s[1..] == s;
    }
  }

  lemma {:induction false} SplitAfterLine(x: string, y: string)
    requires NoNewline(x)
    ensures Split(x + "\n" + y) == [x] + Split(y)
  {
    var s := x + "\n" + y;
    if x == [] {
      assert s[0] == '\n' && s[1..] == y;
    } else {
      assert NoNewline(x[1..]) by { assert forall c :: c in x[1..] ==> c in x; }
      SplitAfterLine(x[1..], y);
      assert s[0] == x[0] && s[1..] == x[1..] + "\n" + y;
      assert [x[0]] + x[1..] == x;
    }
  }

  /** Splitting undoes joining, for parts that hold no line feed. */
  lemma {:induction false} SplitJoin(parts: seq<string>)
    requires |parts| >= 1 && AllNoNewline(parts)
    ensures Split(Join(parts)) == parts
  {
    if |parts| == 1 {
      SplitNoNewline(parts[0]);
    } else {
      SplitJoin(parts[1..]);
      SplitAfterLine(parts[0], Join(parts[1..]));
      assert [parts[0]] + parts[1..] == parts;
    }
  }

  lemma {:induction false} JoinTerminated(lines: seq<string>, last: string)
    ensures Join(lines + [last]) == Terminated(lines) + last
  {
    if lines != [] {
      JoinTerminated(lines[1..], last);
      assert (lines + [last])[1..] == lines[1..] + [last];
    }
  }

  lemma {:induction false} TerminatedAppend(a: seq<string>, b: seq<string>)
    ensures Terminated(a + b) == Terminated(a) + Terminated(b)
  {
    if a != [] {
      TerminatedAppend(a[1..], b);
      assert (a + b)[1..] == a[1..] + b;
    } else {
      assert a + b == b;
    }
  }

  /**
   * The split of a text is determined by the text: whenever complete lines
   * (each followed by a line feed) and a tail without a line feed make up `s`,
   * they are exactly the complete lines and the remainder of `s`.
   */
  lemma LinesUnique(lines: seq<string>, tail: string, s: string)
    requires AllNoNewline(lines) && NoNewline(tail)
    requires Terminated(lines) + tail == s
    ensures CompleteLines(s) == lines && Remainder(s) == tail
  {
    JoinTerminated(lines, tail);
    assert AllNoNewline(lines + [tail]);
    SplitJoin(lines + [tail]);
  }

  /** The complete lines and the remainder of `s` make up `s`. */
  lemma LinesAndRemainder(s: string)
    ensures Terminated(CompleteLines(s)) + Remainder(s) == s
  {
    var parts := Split(s);
    assert parts == parts[..|parts| - 1] + [parts[|parts| - 1]];
    JoinTerminated(parts[..|parts| - 1], parts[|parts| - 1]);
  }
}

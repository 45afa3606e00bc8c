/** How a buffered reader cuts a character stream into lines: every line is
    the text up to and including the next '\n'; what follows the last '\n'
    is an unterminated fragment. */
module Lines {

  /** Index of the first '\n' in `s`, or `|s|` when there is none. */
  function FirstNewline(s: string): (k: nat)
    ensures k <= |s|
    ensures k < |s| ==> s[k] == '\n'
    ensures forall j | 0 <= j < k :: s[j] != '\n'
  {
    if s == [] then 0
    else if s[0] == '\n' then 0
    else 1 + FirstNewline(s[1..])
  }

  /** A complete line: non-empty, ending in '\n', with no other '\n'. */
  predicate IsLine(l: string)
  {
    |l| > 0 && l[|l| - 1] == '\n' && forall j | 0 <= j < |l| - 1 :: l[j] != '\n'
  }

  /** The complete lines of `s`, in order, each with its terminating '\n'. */
  function CompleteLines(s: string): (lines: seq<string>)
    ensures forall i | 0 <= i < |lines| :: IsLine(lines[i])
    decreases |s|
  {
    var k := FirstNewline(s);
    if k == |s| then [] else [s[..k + 1]] + CompleteLines(s[k + 1..])
  }

  /** The fragment after the last '\n' (all of `s` when it has none). */
  function Unterminated(s: string): (t: string)
    ensures '\n' !in t
    decreases |s|
  {
    var k := FirstNewline(s);
    if k == |s| then s else Unterminated(s[k + 1..])
  }

  function Concat(lines: seq<string>): string
  {
    if lines == [] then [] else lines[0] + Concat(lines[1..])
  }

  function CountNewlines(s: string): nat
  {
    if s == [] then 0 else (if s[0] == '\n' then 1 else 0) + CountNewlines(s[1..])
  }

  /** Nothing is lost or reordered: the lines followed by the fragment are the input. */
  lemma {:induction false} LinesReassemble(s: string)
    ensures Concat(CompleteLines(s)) + Unterminated(s) == s
    decreases |s|
  {
    var k := FirstNewline(s);
    if k < |s| {
      var rest := s[k + 1..];
      LinesReassemble(rest);
      assert CompleteLines(s) == [s[..k + 1]] + CompleteLines(rest);
      assert Concat(CompleteLines(s)) == s[..k + 1] + Concat(CompleteLines(rest));
      assert Unterminated(s) == Unterminated(rest);
      assert s == s[..k + 1] + rest;
    }
  }

  /** The first line of a stream that starts with a complete line is that line. */
  lemma FirstNewlineOfLine(l: string, rest: string)
    requires IsLine(l)
    ensures FirstNewline(l + rest) == |l| - 1
  {
    var s := l + rest;
    assert s[|l| - 1] == '\n';
    assert forall j | 0 <= j < |l| - 1 :: s[j] == l[j];
  }

  /** Splitting inverts joining: any lines followed by a fragment without '\n'
      are cut back into exactly those lines and that fragment. */
  lemma {:induction false} SplitJoin(lines: seq<string>, t: string)
    requires forall i | 0 <= i < |lines| :: IsLine(lines[i])
    requires '\n' !in t
    ensures CompleteLines(Concat(lines) + t) == lines
    ensures Unterminated(Concat(lines) + t) == t
  {
    if lines == [] {
      assert Concat(lines) + t == t;
    } else {
      var l := lines[0];
      var rest := Concat(lines[1..]) + t;
      assert Concat(lines) + t == l + rest;
      FirstNewlineOfLine(l, rest);
      var s := l + rest;
      assert s[..|l|] == l;
      assert s[|l|..] == rest;
      SplitJoin(lines[1..], t);
      assert lines == [l] + lines[1..];
    }
  }

  lemma {:induction false} CountNewlinesAppend(a: string, b: string)
    ensures CountNewlines(a + b) == CountNewlines(a) + CountNewlines(b)
  {
    if a == [] {
      assert a + b == b;
    } else {
      assert (a + b)[1..] == a[1..] + b;
      CountNewlinesAppend(a[1..], b);
    }
  }

  lemma {:induction false} CountNewlinesNone(a: string)
    requires forall j | 0 <= j < |a| :: a[j] != '\n'
    ensures CountNewlines(a) == 0
  {
    if a != [] {
      CountNewlinesNone(a[1..]);
    }
  }

  /** One line is logged per '\n' in the input. */
  lemma {:induction false} OneLinePerNewline(s: string)
    ensures |CompleteLines(s)| == CountNewlines(s)
    decreases |s|
  {
    var k := FirstNewline(s);
    if k == |s| {
      CountNewlinesNone(s);
    } else {
      assert s == s[..k] + ([s[k]] + s[k + 1..]);
      CountNewlinesAppend(s[..k], [s[k]] + s[k + 1..]);
      CountNewlinesAppend([s[k]], s[k + 1..]);
      CountNewlinesNone(s[..k]);
      OneLinePerNewline(s[k + 1..]);
    }
  }
}

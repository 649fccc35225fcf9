/**
 * Newline framing, as used on both ends of a panel link: the firmware's
 * byte loop, the Python test client's receive buffer and the backend's line
 * scanner all cut a byte stream at '\n'. Feed is the reference definition:
 * it consumes the input one character at a time, closing the pending text
 * as a line at each '\n'.
 */
module Framing {

  datatype Frames = Frames(lines: seq<string>, rest: string)

  function Feed(pending: string, input: string): (f: Frames)
    decreases |input|
  {
    if input == [] then Frames([], pending)
    else if input[0] == '\n' then
      var tail := Feed("", input[1..]);
      Frames([pending] + tail.lines, tail.rest)
    else Feed(pending + [input[0]], input[1..])
  }

  /** Each line written back with its terminator. */
  function Terminated(lines: seq<string>): string
  {
    if lines == [] then "" else lines[0] + "\n" + Terminated(lines[1..])
  }

  predicate NoNewline(s: string) { '\n' !in s }

  /** The first '\n' of a string that has one. */
  function FirstNewline(s: string): (i: nat)
    requires '\n' in s
    ensures i < |s| && s[i] == '\n' && NoNewline(s[..i])
  {
    if s[0] == '\n' then 0
    else
      var j := FirstNewline(s[1..]);
      assert s[..j + 1] == [s[0]] + s[1..][..j];
      j + 1
  }

  /**
   * Framing is independent of how the stream is cut into chunks: feeding
   * `a` and then `b` from the leftover gives the same lines and leftover as
   * feeding `a + b` at once.
   */
  lemma {:induction false} FeedAppend(pending: string, a: string, b: string)
    ensures Feed(pending, a + b) ==
      Frames(Feed(pending, a).lines + Feed(Feed(pending, a).rest, b).lines, Feed(Feed(pending, a).rest, b).rest)
    decreases |a|
  {
    if a == [] {
      assert a + b == b;
    } else {
      assert (a + b)[0] == a[0] && (a + b)[1..] == a[1..] + b;
      if a[0] == '\n' {
        FeedAppend("", a[1..], b);
      } else {
        FeedAppend(pending + [a[0]], a[1..], b);
      }
    }
  }

  /** Input without a newline only grows the pending text. */
  lemma {:induction false} FeedNoNewline(pending: string, input: string)
    requires NoNewline(input)
    ensures Feed(pending, input) == Frames([], pending + input)
    decreases |input|
  {
    if input != [] {
      assert input[0] in input;
      assert forall c :: c in input[1..] ==> c in input;
      FeedNoNewline(pending + [input[0]], input[1..]);
      assert pending + [input[0]] + input[1..] == pending + input;
    }
  }

  /**
   * Nothing is lost or invented: the lines, each with its '\n', followed by
   * the leftover, spell out the pending text followed by the input.
   */
  lemma {:induction false} FeedReassembles(pending: string, input: string)
    ensures Terminated(Feed(pending, input).lines) + Feed(pending, input).rest == pending + input
    decreases |input|
  {
    if input == [] {
    } else if input[0] == '\n' {
      var tail := Feed("", input[1..]);
      FeedReassembles("", input[1..]);
      assert "" + input[1..] == input[1..];
      var lines := [pending] + tail.lines;
      assert lines[0] == pending && lines[1..] == tail.lines;
      assert Terminated(lines) == pending + "\n" + Terminated(tail.lines);
      StringAssoc(pending + "\n", Terminated(tail.lines), tail.rest);
      assert input == "\n" + input[1..];
      StringAssoc(pending, "\n", input[1..]);
    } else {
      FeedReassembles(pending + [input[0]], input[1..]);
      assert pending + [input[0]] + input[1..] == pending + input;
    }
  }

  lemma StringAssoc(a: string, b: string, c: string)
    ensures (a + b) + c == a + (b + c)
  {
  }

  /** Starting from newline-free pending text, no line and no leftover contains '\n'. */
  lemma {:induction false} FeedLinesClean(pending: string, input: string)
    requires NoNewline(pending)
    ensures NoNewline(Feed(pending, input).rest)
    ensures forall k :: 0 <= k < |Feed(pending, input).lines| ==> NoNewline(Feed(pending, input).lines[k])
    decreases |input|
  {
    if input == [] {
    } else if input[0] == '\n' {
      FeedLinesClean("", input[1..]);
    } else {
      FeedLinesClean(pending + [input[0]], input[1..]);
    }
  }

  /**
   * Cutting at the first '\n' and feeding the remainder from an empty
   * buffer is the same as feeding everything: the step of a
   * split-at-first-newline loop.
   */
  lemma SplitFirstLine(s: string)
    requires '\n' in s
    ensures Feed("", s) ==
      Frames([s[..FirstNewline(s)]] + Feed("", s[FirstNewline(s) + 1..]).lines, Feed("", s[FirstNewline(s) + 1..]).rest)
  {
    var i := FirstNewline(s);
    assert s == s[..i] + s[i..];
    FeedAppend("", s[..i], s[i..]);
    FeedNoNewline("", s[..i]);
    assert "" + s[..i] == s[..i];
    assert s[i..][0] == '\n' && s[i..][1..] == s[i + 1..];
  }

  /** Newline-free pending text can be treated as the start of the input. */
  lemma FeedFromEmpty(pending: string, input: string)
    requires NoNewline(pending)
    ensures Feed(pending, input) == Feed("", pending + input)
  {
    FeedAppend("", pending, input);
    FeedNoNewline("", pending);
    assert "" + pending == pending;
  }

  /**
   * The writer's side of the round trip: newline-free frames, each written
   * with one '\n' appended, are cut back into exactly those frames with
   * nothing left over.
   */
  lemma {:induction false} FeedTerminated(lines: seq<string>)
    requires forall k :: 0 <= k < |lines| ==> NoNewline(lines[k])
    ensures Feed("", Terminated(lines)) == Frames(lines, "")
  {
    if lines != [] {
      var head := lines[0] + "\n";
      FeedTerminated(lines[1..]);
      FeedAppend("", head, Terminated(lines[1..]));
      FeedAppend("", lines[0], "\n");
      FeedNoNewline("", lines[0]);
      assert "" + lines[0] == lines[0];
      assert Feed(lines[0], "\n") == Frames([lines[0]], "");
      assert [lines[0]] + lines[1..] == lines;
    }
  }
}

/**
 * The panel test client (esp32-panels/test_panel.py): it poses as a panel
 * towards the backend, frames the server's newline-delimited JSON replies,
 * correlates replies by type, and judges each exercise by its send success
 * rate.
 *
 * The socket, the clock and JSON are parameters: `encode` stands for
 * json.dumps, `decode` for json.loads (None where it raises
 * JSONDecodeError), per-call booleans say whether socket.send raised, the
 * receiver thread is a sequence of recv outcomes and each wait is a number
 * of 0.1 s polls with the messages that arrive during each sleep.
 */
module PanelTester {
  import opened Wrappers
  import Framing
  import Text
  import Values

  /** An inbound JSON object as far as the client reads it: "type" when it is a string, and len(data.devices). */
  datatype Message = Message(msgType: Option<string>, deviceCount: nat)

  /** One entry of an output exercise: the command, its value and an optional context. */
  datatype OutputCommand = OutputCommand(command: string, value: Values.Value, context: Option<Values.Value>)

  /** The context of a panel_input: the input exercise's raw reading, or the stress test's count of sends so far. */
  datatype InputContext = Calibrated(rawReading: real) | SentSoFar(messageCount: nat)

  /** The messages the client sends; timestamps are left out. */
  datatype Outgoing =
    | Heartbeat(clientId: string)
    | PanelInput(inputPanel: string, inputDevice: string, inputValue: real, context: InputContext)
    | PanelOutput(outputPanel: string, outputDevice: string, output: OutputCommand)

  /** What one socket.recv(1024) call produced, already decoded as UTF-8. */
  datatype RecvEvent =
    | Data(text: string)   // "" means the peer closed the connection
    | TimedOut             // socket.timeout
    | Failed               // any other exception, a UTF-8 decoding error included

  // ---------------------------------------------------------------------
  // str.strip()

  /** The characters str.isspace() accepts. */
  predicate IsPythonSpace(c: char)
  {
    c == ' ' || '\t' <= c <= '\r' || '\U{1c}' <= c <= '\U{1f}' || c == '\U{85}' || c == '\U{a0}' ||
    c == '\U{1680}' || '\U{2000}' <= c <= '\U{200a}' || c == '\U{2028}' || c == '\U{2029}' ||
    c == '\U{202f}' || c == '\U{205f}' || c == '\U{3000}'
  }

  predicate AllSpace(s: string) { forall k :: 0 <= k < |s| ==> IsPythonSpace(s[k]) }

  function TrimLeft(s: string): (r: string)
    ensures |r| <= |s| && r == s[|s| - |r|..]
    ensures AllSpace(s[..|s| - |r|])
    ensures r != [] ==> !IsPythonSpace(r[0])
  {
    if s != [] && IsPythonSpace(s[0]) then
      var r := TrimLeft(s[1..]);
      assert s[..|s| - |r|] == [s[0]] + s[1..][..|s[1..]| - |r|];
      r
    else s
  }

  function TrimRight(s: string): (r: string)
    ensures |r| <= |s| && r == s[..|r|]
    ensures AllSpace(s[|r|..])
    ensures r != [] ==> !IsPythonSpace(r[|r| - 1])
  {
    if s != [] && IsPythonSpace(s[|s| - 1]) then
      var r := TrimRight(s[..|s| - 1]);
      assert s[|r|..] == s[..|s| - 1][|r|..] + [s[|s| - 1]];
      r
    else s
  }

  /** str.strip(): the text between the first and the last non-space character. */
  function Strip(s: string): (r: string)
    ensures r == "" <==> AllSpace(s)
    ensures r != "" ==> !IsPythonSpace(r[0]) && !IsPythonSpace(r[|r| - 1])
  {
    var left := TrimLeft(s);
    var r := TrimRight(left);
    assert r == "" ==> AllSpace(left) && s == s[..|s| - |left|] + left;
    assert r != "" ==> (r[0] == left[0] && !IsPythonSpace(s[|s| - |left|]));
    r
  }

  // ---------------------------------------------------------------------
  // What the receiver keeps of each framed line

  /** A line is kept when its stripped text is non-blank and decodes; anything else is dropped. */
  function Accept(line: string, decode: string -> Option<Message>): seq<Message>
  {
    var text := Strip(line);
    if text == "" then []
    else match decode(text)
      case Some(m) => [m]
      case None => []
  }

  function AcceptAll(lines: seq<string>, decode: string -> Option<Message>): seq<Message>
  {
    if lines == [] then [] else Accept(lines[0], decode) + AcceptAll(lines[1..], decode)
  }

  lemma {:induction false} AcceptAllAppend(a: seq<string>, b: seq<string>, decode: string -> Option<Message>)
    ensures AcceptAll(a + b, decode) == AcceptAll(a, decode) + AcceptAll(b, decode)
  {
    if a == [] {
      assert a + b == b;
    } else {
      var head := Accept(a[0], decode);
      assert (a + b)[0] == a[0] && (a + b)[1..] == a[1..] + b;
      assert AcceptAll(a + b, decode) == head + AcceptAll(a[1..] + b, decode);
      AcceptAllAppend(a[1..], b, decode);
      assert AcceptAll(a, decode) == head + AcceptAll(a[1..], decode);
      AppendAssoc(head, AcceptAll(a[1..], decode), AcceptAll(b, decode));
    }
  }

  /** Blank or whitespace-only lines never yield a message. */
  lemma BlankLinesDropped(line: string, decode: string -> Option<Message>)
    requires AllSpace(line)
    ensures Accept(line, decode) == []
  {
  }

  /** A line that fails to decode is dropped, and the lines after it are still kept. */
  lemma UndecodableLineSkipped(line: string, rest: seq<string>, decode: string -> Option<Message>)
    requires decode(Strip(line)).None?
    ensures AcceptAll([line] + rest, decode) == AcceptAll(rest, decode)
  {
    assert ([line] + rest)[1..] == rest;
  }

  /**
   * The messages received do not depend on how the stream was chunked:
   * two chunks give exactly what their concatenation gives.
   */
  lemma ChunkingIrrelevant(buffer: string, c1: string, c2: string, decode: string -> Option<Message>)
    ensures var first := Framing.Feed(buffer, c1);
      var second := Framing.Feed(first.rest, c2);
      AcceptAll(first.lines, decode) + AcceptAll(second.lines, decode) == AcceptAll(Framing.Feed(buffer, c1 + c2).lines, decode)
      && second.rest == Framing.Feed(buffer, c1 + c2).rest
  {
    var first := Framing.Feed(buffer, c1);
    Framing.FeedAppend(buffer, c1, c2);
    AcceptAllAppend(first.lines, Framing.Feed(first.rest, c2).lines, decode);
  }

  // ---------------------------------------------------------------------
  // The receiver thread's stream

  /** Where the receiver stops: the first closed-connection read or failure, else the end. */
  function StopIndex(events: seq<RecvEvent>): (n: nat)
    ensures n <= |events|
    ensures forall k :: 0 <= k < n ==> events[k] == TimedOut || (events[k].Data? && events[k].text != "")
    ensures n < |events| ==> events[n] == Failed || events[n] == Data("")
  {
    if events == [] then 0
    else if events[0] == Failed || events[0] == Data("") then 0
    else 1 + StopIndex(events[1..])
  }

  /** The text the receiver appends to its buffer for these events. */
  function StreamText(events: seq<RecvEvent>): string
  {
    if events == [] then ""
    else (if events[0].Data? then events[0].text else "") + StreamText(events[1..])
  }

  lemma {:induction false} StreamTextSnoc(events: seq<RecvEvent>, e: RecvEvent)
    ensures StreamText(events + [e]) == StreamText(events) + (if e.Data? then e.text else "")
  {
    if events == [] {
      assert events + [e] == [e];
    } else {
      assert (events + [e])[0] == events[0] && (events + [e])[1..] == events[1..] + [e];
      StreamTextSnoc(events[1..], e);
    }
  }

  // ---------------------------------------------------------------------
  // wait_for_message

  /** The index of the oldest message of the given type. */
  function FindType(q: seq<Message>, t: string): (r: Option<nat>)
    ensures r.Some? ==> r.value < |q| && q[r.value].msgType == Some(t)
    ensures r.Some? ==> forall j :: 0 <= j < r.value ==> q[j].msgType != Some(t)
    ensures r.None? <==> forall j :: 0 <= j < |q| ==> q[j].msgType != Some(t)
  {
    if q == [] then None
    else if q[0].msgType == Some(t) then Some(0)
    else match FindType(q[1..], t)
      case None => None
      case Some(i) => Some(i + 1)
  }

  /**
   * One scan of the queue: the oldest message of type `t` and the queue
   * without exactly that entry, the others in their original order.
   */
  function TakeFirst(q: seq<Message>, t: string): (r: Option<(Message, seq<Message>)>)
    ensures r.None? <==> forall j :: 0 <= j < |q| ==> q[j].msgType != Some(t)
    ensures r.Some? ==> exists i :: (0 <= i < |q| && q[i] == r.value.0 && r.value.1 == q[..i] + q[i + 1..] &&
                                     q[i].msgType == Some(t) && forall j :: 0 <= j < i ==> q[j].msgType != Some(t))
  {
    match FindType(q, t)
    case None => None
    case Some(i) => Some((q[i], q[..i] + q[i + 1..]))
  }

  /** What arrives during the k-th sleep of a wait. */
  function Arrival(arrivals: seq<seq<Message>>, k: nat): seq<Message>
  {
    if k < |arrivals| then arrivals[k] else []
  }

  /** Everything that arrives during sleeps k .. n-1. */
  function Arrived(arrivals: seq<seq<Message>>, k: nat, n: nat): seq<Message>
    decreases n - k
  {
    if k >= n then [] else Arrival(arrivals, k) + Arrived(arrivals, k + 1, n)
  }

  /** The reference definition of waiting from poll k on: scan, else sleep and let the k-th batch arrive. */
  function WaitFrom(q: seq<Message>, t: string, polls: nat, arrivals: seq<seq<Message>>, k: nat): (Option<Message>, seq<Message>)
    decreases polls - k
  {
    if k >= polls then (None, q)
    else match TakeFirst(q, t)
      case Some(found) => (Some(found.0), found.1)
      case None => WaitFrom(q + Arrival(arrivals, k), t, polls, arrivals, k + 1)
  }

  /**
   * A wait that times out returns None and removes nothing: the queue ends
   * as it began plus whatever arrived.
   */
  lemma {:induction false} WaitTimeoutRemovesNothing(q: seq<Message>, t: string, polls: nat, arrivals: seq<seq<Message>>, k: nat)
    requires WaitFrom(q, t, polls, arrivals, k).0.None?
    ensures WaitFrom(q, t, polls, arrivals, k).1 == q + Arrived(arrivals, k, polls)
    decreases polls - k
  {
    if k < polls {
      WaitTimeoutRemovesNothing(q + Arrival(arrivals, k), t, polls, arrivals, k + 1);
      assert q + Arrival(arrivals, k) + Arrived(arrivals, k + 1, polls) == q + Arrived(arrivals, k, polls);
    }
  }

  /**
   * A successful wait is one scan of the queue as it stood at some poll j:
   * the oldest message of the requested type then, taken out alone.
   */
  lemma {:induction false} WaitFoundIsOneScan(q: seq<Message>, t: string, polls: nat, arrivals: seq<seq<Message>>, k: nat)
    requires WaitFrom(q, t, polls, arrivals, k).0.Some?
    ensures exists j :: (k <= j < polls &&
                         TakeFirst(q + Arrived(arrivals, k, j), t) == Some((WaitFrom(q, t, polls, arrivals, k).0.value, WaitFrom(q, t, polls, arrivals, k).1)))
    decreases polls - k
  {
    var w := WaitFrom(q, t, polls, arrivals, k);
    assert k < polls;
    if TakeFirst(q, t).Some? {
      assert Arrived(arrivals, k, k) == [] && q + [] == q;
      assert TakeFirst(q + Arrived(arrivals, k, k), t) == Some((w.0.value, w.1));
    } else {
      var q' := q + Arrival(arrivals, k);
      assert w == WaitFrom(q', t, polls, arrivals, k + 1);
      WaitFoundIsOneScan(q', t, polls, arrivals, k + 1);
      var j :| k + 1 <= j < polls && TakeFirst(q' + Arrived(arrivals, k + 1, j), t) == Some((w.0.value, w.1));
      assert Arrived(arrivals, k, j) == Arrival(arrivals, k) + Arrived(arrivals, k + 1, j);
      AppendAssoc(q, Arrival(arrivals, k), Arrived(arrivals, k + 1, j));
    }
  }

  lemma AppendNil<T>(a: seq<T>)
    ensures a + [] == a
  {
  }

  lemma AppendAssoc<T>(a: seq<T>, b: seq<T>, c: seq<T>)
    ensures (a + b) + c == a + (b + c)
  {
  }

  /** Replies are consumed by type in arrival order: [A(x), B(y), C(x)] yields A for x, then C for x. */
  lemma CorrelationExample(a: Message, b: Message, c: Message)
    requires a.msgType == Some("x") && b.msgType == Some("y") && c.msgType == Some("x")
    ensures WaitFrom([a, b, c], "x", 1, [], 0) == (Some(a), [b, c])
    ensures WaitFrom([b, c], "x", 1, [], 0) == (Some(c), [b])
  {
    assert [a, b, c][..0] + [a, b, c][1..] == [b, c];
    assert FindType([b, c][1..], "x") == Some(0);
    assert [b, c][..1] + [b, c][2..] == [b];
  }

  // ---------------------------------------------------------------------
  // Pass thresholds of the individual tests

  /** success_rate = (success_count / len(values)) * 100 */
  function SuccessRate(succeeded: nat, total: nat): real
    requires total > 0
  {
    (succeeded as real / total as real) * 100.0
  }

  /** A percentage x / d * 100 compares with a bound as 100 * x compares with bound * d. */
  lemma PercentOrder(x: real, d: real, bound: real)
    requires d > 0.0
    ensures (x / d) * 100.0 >= bound <==> 100.0 * x >= bound * d
  {
    var r := x / d;
    assert r * d == x;
    if r * 100.0 >= bound {
      assert (r * 100.0 - bound) * d >= 0.0;
    } else {
      assert (bound - r * 100.0) * d > 0.0;
    }
  }

  /** An exercise passes exactly when at least nine sends out of ten succeeded. */
  lemma ExercisePassIff(succeeded: nat, total: nat)
    requires total > 0
    ensures SuccessRate(succeeded, total) >= 90.0 <==> 10 * succeeded >= 9 * total
  {
    PercentOrder(succeeded as real, total as real, 90.0);
  }

  lemma ExerciseBoundary()
    ensures SuccessRate(9, 10) >= 90.0 && !(SuccessRate(8, 10) >= 90.0)
  {
    ExercisePassIff(9, 10);
    ExercisePassIff(8, 10);
  }

  function Max(a: int, b: int): int { if a >= b then a else b }

  /** error_rate = (error_count / max(1, message_count + error_count)) * 100 */
  function StressErrorRate(errors: nat, sent: nat): real
  {
    (errors as real / Max(1, sent + errors) as real) * 100.0
  }

  /** The stress test passes exactly when fewer than one send in twenty failed. */
  lemma StressPassIff(errors: nat, sent: nat)
    ensures StressErrorRate(errors, sent) < 5.0 <==> 20 * errors < Max(1, sent + errors)
  {
    PercentOrder(errors as real, Max(1, sent + errors) as real, 5.0);
  }

  /** An error rate of exactly 5% fails; a run that sent nothing has rate 0 and passes. */
  lemma StressBoundary()
    ensures !(StressErrorRate(1, 19) < 5.0)
    ensures StressErrorRate(0, 0) == 0.0
  {
    StressPassIff(1, 19);
  }

  /**
   * The result-line markers as the source spells them: both are the empty
   * string, so the summary cannot tell passes from failures.
   */
  function ResultMarker(passed: bool): string { if passed then "" else "" }

  const PassMarker: string := ""

  function StartsWith(s: string, prefix: string): bool
  {
    |prefix| <= |s| && s[..|prefix|] == prefix
  }

  function CountPassed(results: seq<string>): (n: nat)
    ensures n <= |results|
  {
    if results == [] then 0
    else (if StartsWith(results[0], PassMarker) then 1 else 0) + CountPassed(results[1..])
  }

  /** As written, every result line counts as passed, so the summary's `failed` is always 0. */
  lemma {:induction false} EveryResultCountsAsPassed(results: seq<string>)
    ensures CountPassed(results) == |results|
  {
    if results != [] {
      assert results[0][..0] == PassMarker;
      EveryResultCountsAsPassed(results[1..]);
    }
  }

  function CountTrue(bs: seq<bool>): (n: nat)
    ensures n <= |bs|
  {
    if bs == [] then 0 else (if bs[0] then 1 else 0) + CountTrue(bs[1..])
  }

  lemma {:induction false} CountTrueSnoc(bs: seq<bool>, b: bool)
    ensures CountTrue(bs + [b]) == CountTrue(bs) + (if b then 1 else 0)
  {
    if bs == [] {
      assert bs + [b] == [b];
    } else {
      assert (bs + [b])[0] == bs[0] && (bs + [b])[1..] == bs[1..] + [b];
      CountTrueSnoc(bs[1..], b);
    }
  }

  /** The text put on the wire for a series of sends, given which of them went through. */
  function WireText(msgs: seq<Outgoing>, delivered: seq<bool>, encode: Outgoing -> string): string
    requires |delivered| == |msgs|
  {
    if msgs == [] then ""
    else (if delivered[0] then encode(msgs[0]) + "\n" else "") + WireText(msgs[1..], delivered[1..], encode)
  }

  lemma {:induction false} WireTextSnoc(msgs: seq<Outgoing>, delivered: seq<bool>, m: Outgoing, d: bool, encode: Outgoing -> string)
    requires |delivered| == |msgs|
    ensures WireText(msgs + [m], delivered + [d], encode) == WireText(msgs, delivered, encode) + (if d then encode(m) + "\n" else "")
  {
    if msgs == [] {
      assert msgs + [m] == [m] && delivered + [d] == [d];
    } else {
      assert (msgs + [m])[1..] == msgs[1..] + [m] && (delivered + [d])[1..] == delivered[1..] + [d];
      WireTextSnoc(msgs[1..], delivered[1..], m, d, encode);
    }
  }

  /** Which sends of a series go through: all accepted ones, provided the socket is usable. */
  function Delivered(open: bool, accepted: seq<bool>): seq<bool>
  {
    seq(|accepted|, k requires 0 <= k < |accepted| => open && accepted[k])
  }

  /** The input exercise sends each value as is, with the same value as its calibrated raw reading. */
  function InputMessages(panelId: string, deviceId: string, values: seq<real>): seq<Outgoing>
  {
    seq(|values|, k requires 0 <= k < |values| => PanelInput(panelId, deviceId, values[k], Calibrated(values[k])))
  }

  function OutputMessages(panelId: string, deviceId: string, commands: seq<OutputCommand>): seq<Outgoing>
  {
    seq(|commands|, k requires 0 <= k < |commands| => PanelOutput(panelId, deviceId, commands[k]))
  }

  /**
   * The stress test's k-th message goes to device test_device_{k mod 5}
   * and carries as raw_value the number of sends that went through
   * before it (`delivered` says which did).
   */
  function StressMessages(panelId: string, values: seq<real>, delivered: seq<bool>): seq<Outgoing>
    requires |delivered| == |values|
  {
    seq(|values|, k requires 0 <= k < |values| =>
      PanelInput(panelId, "test_device_" + Text.NatToString(k % 5), values[k], SentSoFar(CountTrue(delivered[..k]))))
  }

  /** message_count starts at 0 and grows by one exactly after a send that went through. */
  lemma StressCountAdvances(panelId: string, values: seq<real>, delivered: seq<bool>, k: nat)
    requires |delivered| == |values| && k < |values|
    ensures var ms := StressMessages(panelId, values, delivered);
      (k == 0 ==> ms[k].context.messageCount == 0) &&
      (k + 1 < |values| ==> ms[k + 1].context.messageCount == ms[k].context.messageCount + (if delivered[k] then 1 else 0))
  {
    assert delivered[..k + 1] == delivered[..k] + [delivered[k]];
    CountTrueSnoc(delivered[..k], delivered[k]);
  }

  function ExerciseLine(passed: bool, panelId: string, deviceId: string, kind: string, rateText: string): string
  {
    ResultMarker(passed) + " " + panelId + "." + deviceId + ": " + kind + " test " + rateText + "%"
  }

  lemma {:induction false} CountPassedSnoc(results: seq<string>, r: string)
    ensures CountPassed(results + [r]) == CountPassed(results) + (if StartsWith(r, PassMarker) then 1 else 0)
  {
    if results == [] {
      assert results + [r] == [r];
    } else {
      assert (results + [r])[0] == results[0] && (results + [r])[1..] == results[1..] + [r];
      CountPassedSnoc(results[1..], r);
    }
  }

  /** Accepting one more line appends what that line alone yields. */
  lemma AcceptAllSnoc(done: seq<string>, line: string, decode: string -> Option<Message>)
    ensures AcceptAll(done + [line], decode) == AcceptAll(done, decode) + Accept(line, decode)
  {
    AcceptAllAppend(done, [line], decode);
    assert [line][1..] == [];
    assert AcceptAll([line], decode) == Accept(line, decode) + [];
    AppendNil(Accept(line, decode));
  }

  /** One cut of the receiver loop: the first line moves from the buffer to the processed lines. */
  lemma FeedStep(whole: string, done: seq<string>, buffer: string)
    requires '\n' in buffer
    requires Framing.Feed("", whole) == Framing.Frames(done + Framing.Feed("", buffer).lines, Framing.Feed("", buffer).rest)
    ensures var i := Framing.FirstNewline(buffer);
      Framing.Feed("", whole) ==
        Framing.Frames((done + [buffer[..i]]) + Framing.Feed("", buffer[i + 1..]).lines, Framing.Feed("", buffer[i + 1..]).rest)
  {
    var i := Framing.FirstNewline(buffer);
    Framing.SplitFirstLine(buffer);
    var tail := Framing.Feed("", buffer[i + 1..]);
    assert done + ([buffer[..i]] + tail.lines) == (done + [buffer[..i]]) + tail.lines;
  }

  /** Once the buffer holds no '\n', the processed lines are all the lines and the buffer is the leftover. */
  lemma FeedFinish(whole: string, done: seq<string>, buffer: string)
    requires Framing.NoNewline(buffer)
    requires Framing.Feed("", whole) == Framing.Frames(done + Framing.Feed("", buffer).lines, Framing.Feed("", buffer).rest)
    ensures Framing.Feed("", whole) == Framing.Frames(done, buffer)
  {
    Framing.FeedNoNewline("", buffer);
    assert "" + buffer == buffer && done + [] == done;
  }

  // ---------------------------------------------------------------------
  // The tester object

  class Tester {
    /** self.socket exists and is connected, so socket.send can succeed. */
    var socketOpen: bool
    /** self.connected, the receiver thread's loop condition. */
    var connected: bool
    var messageBuffer: string
    var receivedMessages: seq<Message>
    var testResults: seq<string>
    /** Every byte handed to socket.send, in order. */
    var wire: string

    ghost predicate Valid()
      reads this
    {
      Framing.NoNewline(messageBuffer)
    }

    constructor ()
      ensures Valid() && !socketOpen && !connected
      ensures messageBuffer == "" && receivedMessages == [] && testResults == [] && wire == ""
    {
      socketOpen := false;
      connected := false;
      messageBuffer := "";
      receivedMessages := [];
      testResults := [];
      wire := "";
    }

    /** connect(): a failed attempt leaves a fresh, unconnected socket and does not touch `connected`. */
    method Connect(reachable: bool) returns (ok: bool)
      modifies this`socketOpen, this`connected
      ensures ok == reachable && socketOpen == reachable
      ensures connected == (reachable || old(connected))
    {
      socketOpen := reachable;
      if reachable {
        connected := true;
      }
      ok := reachable;
    }

    /** disconnect(): closes the socket and stops the receiver loop. */
    method Disconnect()
      modifies this`socketOpen, this`connected
      ensures !socketOpen && !connected
    {
      socketOpen := false;
      connected := false;
    }

    /**
     * send_message: the JSON text plus exactly one '\n' goes on the wire;
     * an unusable socket or a raising send yields false instead of an
     * exception.
     */
    method SendMessage(msg: Outgoing, encode: Outgoing -> string, accepted: bool) returns (ok: bool)
      modifies this`wire
      ensures ok == (socketOpen && accepted)
      ensures wire == old(wire) + (if ok then encode(msg) + "\n" else "")
    {
      ok := socketOpen && accepted;
      if ok {
        wire := wire + encode(msg) + "\n";
      }
    }

    /**
     * One pass of the receiver: append the chunk, then cut off and decode
     * every complete line. The buffer keeps only the unterminated tail,
     * and the kept messages are appended in arrival order.
     */
    method FeedChunk(data: string, decode: string -> Option<Message>)
      requires Valid()
      modifies this`messageBuffer, this`receivedMessages
      ensures Valid()
      ensures messageBuffer == Framing.Feed(old(messageBuffer), data).rest
      ensures receivedMessages == old(receivedMessages) + AcceptAll(Framing.Feed(old(messageBuffer), data).lines, decode)
    {
      ghost var whole := messageBuffer + data;
      Framing.FeedFromEmpty(messageBuffer, data);
      messageBuffer := messageBuffer + data;
      ghost var done: seq<string> := [];
      while '\n' in messageBuffer
        invariant Framing.Feed("", whole) ==
          Framing.Frames(done + Framing.Feed("", messageBuffer).lines, Framing.Feed("", messageBuffer).rest)
        invariant receivedMessages == old(receivedMessages) + AcceptAll(done, decode)
        decreases |messageBuffer|
      {
        ghost var line := messageBuffer[..Framing.FirstNewline(messageBuffer)];
        FeedStep(whole, done, messageBuffer);
        AcceptAllSnoc(done, line, decode);
        CutLine(decode);
        done := done + [line];
      }
      FeedFinish(whole, done, messageBuffer);
    }

    /** One iteration of the split loop: the first line leaves the buffer and is decoded unless blank. */
    method CutLine(decode: string -> Option<Message>)
      requires '\n' in messageBuffer
      modifies this`messageBuffer, this`receivedMessages
      ensures var i := Framing.FirstNewline(old(messageBuffer));
        messageBuffer == old(messageBuffer)[i + 1..] &&
        receivedMessages == old(receivedMessages) + Accept(old(messageBuffer)[..i], decode)
    {
      ghost var buffer := messageBuffer;
      var i := Framing.FirstNewline(messageBuffer);
      var line := messageBuffer[..i];
      messageBuffer := messageBuffer[i + 1..];
      AcceptLine(line, decode);
      assert buffer == old(messageBuffer) && line == buffer[..i];
    }

    /** A cut line is stripped, and queued once decoded unless it is blank or does not decode. */
    method AcceptLine(line: string, decode: string -> Option<Message>)
      modifies this`receivedMessages
      ensures receivedMessages == old(receivedMessages) + Accept(line, decode)
    {
      var text := Strip(line);
      if text != "" {
        match decode(text)
        case Some(m) =>
          receivedMessages := receivedMessages + [m];
        case None =>
      }
    }

    /**
     * _message_receiver over a sequence of recv outcomes: timeouts are
     * skipped, and the loop ends at the first empty read or failure. What
     * it received is what one chunk holding all the text would give.
     */
    method ReceiveLoop(events: seq<RecvEvent>, decode: string -> Option<Message>)
      requires Valid()
      modifies this`messageBuffer, this`receivedMessages
      ensures Valid()
      ensures !connected ==> messageBuffer == old(messageBuffer) && receivedMessages == old(receivedMessages)
      ensures connected ==>
        var f := Framing.Feed(old(messageBuffer), StreamText(events[..StopIndex(events)]));
        messageBuffer == f.rest && receivedMessages == old(receivedMessages) + AcceptAll(f.lines, decode)
    {
      if !connected {
        return;
      }
      var k := 0;
      var stop := StopIndex(events);
      while k < stop
        invariant 0 <= k <= stop && Valid()
        invariant var f := Framing.Feed(old(messageBuffer), StreamText(events[..k]));
          messageBuffer == f.rest && receivedMessages == old(receivedMessages) + AcceptAll(f.lines, decode)
      {
        assert events[..k + 1] == events[..k] + [events[k]];
        ReceiveStep(old(messageBuffer), old(receivedMessages), events[..k], events[k], decode);
        k := k + 1;
      }
    }

    /** One recv outcome that keeps the loop going: a chunk is fed to the buffer, a timeout changes nothing. */
    method ReceiveStep(ghost buffer0: string, ghost received0: seq<Message>, ghost prefix: seq<RecvEvent>, e: RecvEvent,
                       decode: string -> Option<Message>)
      requires Valid() && e != Failed
      requires var f := Framing.Feed(buffer0, StreamText(prefix));
        messageBuffer == f.rest && receivedMessages == received0 + AcceptAll(f.lines, decode)
      modifies this`messageBuffer, this`receivedMessages
      ensures Valid()
      ensures var f := Framing.Feed(buffer0, StreamText(prefix + [e]));
        messageBuffer == f.rest && receivedMessages == received0 + AcceptAll(f.lines, decode)
    {
      StreamTextSnoc(prefix, e);
      match e {
        case Data(text) =>
          ghost var before := Framing.Feed(buffer0, StreamText(prefix));
          ChunkingIrrelevant(buffer0, StreamText(prefix), text, decode);
          FeedChunk(text, decode);
          AppendAssoc(received0, AcceptAll(before.lines, decode),
                      AcceptAll(Framing.Feed(before.rest, text).lines, decode));
        case TimedOut =>
          assert StreamText(prefix) + "" == StreamText(prefix);
      }
    }

    /**
     * wait_for_message with a budget of 0.1 s polls: each poll scans the
     * queue oldest first; on a hit the entry is popped and returned,
     * otherwise the batch arriving during the sleep joins the queue.
     */
    method WaitForMessage(t: string, polls: nat, arrivals: seq<seq<Message>>) returns (r: Option<Message>)
      modifies this`receivedMessages
      ensures (r, receivedMessages) == WaitFrom(old(receivedMessages), t, polls, arrivals, 0)
    {
      r := None;
      var k := 0;
      while k < polls
        invariant 0 <= k <= polls
        invariant WaitFrom(old(receivedMessages), t, polls, arrivals, 0) == WaitFrom(receivedMessages, t, polls, arrivals, k)
      {
        var i := ScanQueue(t);
        if i < |receivedMessages| {
          r := Some(receivedMessages[i]);
          receivedMessages := receivedMessages[..i] + receivedMessages[i + 1..];
          return;
        }
        receivedMessages := receivedMessages + Arrival(arrivals, k);
        k := k + 1;
      }
    }

    /** The scan of one poll: the index of the oldest message of type t, or the queue's length when there is none. */
    method ScanQueue(t: string) returns (i: nat)
      ensures i <= |receivedMessages|
      ensures i == |receivedMessages| <==> FindType(receivedMessages, t).None?
      ensures i < |receivedMessages| ==> FindType(receivedMessages, t) == Some(i)
    {
      i := 0;
      while i < |receivedMessages| && receivedMessages[i].msgType != Some(t)
        invariant 0 <= i <= |receivedMessages|
        invariant forall j :: 0 <= j < i ==> receivedMessages[j].msgType != Some(t)
      {
        i := i + 1;
      }
    }

    /** The shared send loop of the exercises: returns how many sends went through. */
    method SendAll(msgs: seq<Outgoing>, encode: Outgoing -> string, accepted: seq<bool>) returns (succeeded: nat)
      requires |accepted| == |msgs|
      modifies this`wire
      ensures succeeded == CountTrue(Delivered(socketOpen, accepted))
      ensures wire == old(wire) + WireText(msgs, Delivered(socketOpen, accepted), encode)
    {
      succeeded := 0;
      var k := 0;
      ghost var delivered := Delivered(socketOpen, accepted);
      while k < |msgs|
        invariant 0 <= k <= |msgs|
        invariant succeeded == CountTrue(delivered[..k])
        invariant wire == old(wire) + WireText(msgs[..k], delivered[..k], encode)
      {
        var ok := SendMessage(msgs[k], encode, accepted[k]);
        assert msgs[..k + 1] == msgs[..k] + [msgs[k]] && delivered[..k + 1] == delivered[..k] + [ok];
        CountTrueSnoc(delivered[..k], ok);
        WireTextSnoc(msgs[..k], delivered[..k], msgs[k], ok, encode);
        if ok {
          succeeded := succeeded + 1;
        }
        k := k + 1;
      }
      assert msgs[..k] == msgs && delivered[..k] == delivered;
    }

    /**
     * test_panel_connection: send a heartbeat as the panel, then wait for
     * "panel_config"; one result line either way.
     */
    method TestPanelConnection(panelId: string, encode: Outgoing -> string, heartbeatAccepted: bool,
                               polls: nat, arrivals: seq<seq<Message>>) returns (ok: bool)
      modifies this`wire, this`receivedMessages, this`testResults
      ensures var sent := old(socketOpen) && heartbeatAccepted;
        wire == old(wire) + (if sent then encode(Heartbeat(panelId)) + "\n" else "") &&
        (!sent ==> !ok && receivedMessages == old(receivedMessages) &&
                   testResults == old(testResults) + [" " + panelId + ": Failed to send heartbeat"]) &&
        (sent ==> var w := WaitFrom(old(receivedMessages), "panel_config", polls, arrivals, 0);
                  ok == w.0.Some? && receivedMessages == w.1 &&
                  testResults == old(testResults) + [ConnectionLine(panelId, w.0)])
    {
      var sent := SendMessage(Heartbeat(panelId), encode, heartbeatAccepted);
      if !sent {
        testResults := testResults + [" " + panelId + ": Failed to send heartbeat"];
        return false;
      }
      var config := WaitForMessage("panel_config", polls, arrivals);
      testResults := testResults + [ConnectionLine(panelId, config)];
      ok := config.Some?;
    }

    /**
     * test_input_device: one panel_input per value; passes iff at least
     * 90% of the sends succeeded. The value list must not be empty (the
     * source divides by its length).
     */
    method TestInputDevice(panelId: string, deviceId: string, values: seq<real>, encode: Outgoing -> string,
                           accepted: seq<bool>, formatRate: real -> string) returns (passed: bool)
      requires |values| > 0 && |accepted| == |values|
      modifies this`wire, this`testResults
      ensures var delivered := Delivered(old(socketOpen), accepted);
        var rate := SuccessRate(CountTrue(delivered), |values|);
        passed == (rate >= 90.0) &&
        wire == old(wire) + WireText(InputMessages(panelId, deviceId, values), delivered, encode) &&
        testResults == old(testResults) + [ExerciseLine(passed, panelId, deviceId, "Input", formatRate(rate))]
    {
      var succeeded := SendAll(InputMessages(panelId, deviceId, values), encode, accepted);
      var rate := SuccessRate(succeeded, |values|);
      passed := rate >= 90.0;
      testResults := testResults + [ExerciseLine(passed, panelId, deviceId, "Input", formatRate(rate))];
    }

    /** test_output_device: the same rule over panel_output commands. */
    method TestOutputDevice(panelId: string, deviceId: string, commands: seq<OutputCommand>, encode: Outgoing -> string,
                            accepted: seq<bool>, formatRate: real -> string) returns (passed: bool)
      requires |commands| > 0 && |accepted| == |commands|
      modifies this`wire, this`testResults
      ensures var delivered := Delivered(old(socketOpen), accepted);
        var rate := SuccessRate(CountTrue(delivered), |commands|);
        passed == (rate >= 90.0) &&
        wire == old(wire) + WireText(OutputMessages(panelId, deviceId, commands), delivered, encode) &&
        testResults == old(testResults) + [ExerciseLine(passed, panelId, deviceId, "Output", formatRate(rate))]
    {
      var succeeded := SendAll(OutputMessages(panelId, deviceId, commands), encode, accepted);
      var rate := SuccessRate(succeeded, |commands|);
      passed := rate >= 90.0;
      testResults := testResults + [ExerciseLine(passed, panelId, deviceId, "Output", formatRate(rate))];
    }

    /**
     * run_stress_test: the connection test must pass; then `bursts` rounds
     * of five inputs (values[k] being the clock-derived value of send k),
     * judged by an error rate below 5%.
     */
    method RunStressTest(panelId: string, encode: Outgoing -> string, heartbeatAccepted: bool,
                         polls: nat, arrivals: seq<seq<Message>>,
                         bursts: nat, values: seq<real>, accepted: seq<bool>, formatRate: real -> string)
      returns (success: bool)
      requires |values| == 5 * bursts && |accepted| == |values|
      modifies this`wire, this`receivedMessages, this`testResults
      ensures var sent := old(socketOpen) && heartbeatAccepted;
        var w := WaitFrom(old(receivedMessages), "panel_config", polls, arrivals, 0);
        var connected := sent && w.0.Some?;
        var delivered := Delivered(old(socketOpen), accepted);
        var rate := StressErrorRate(|values| - CountTrue(delivered), CountTrue(delivered));
        success == (connected && rate < 5.0) &&
        receivedMessages == (if sent then w.1 else old(receivedMessages)) &&
        (!sent ==> wire == old(wire) && testResults == old(testResults) + [" " + panelId + ": Failed to send heartbeat"]) &&
        (sent && !connected ==>
          wire == old(wire) + encode(Heartbeat(panelId)) + "\n" && testResults == old(testResults) + [ConnectionLine(panelId, w.0)]) &&
        (connected ==>
          wire == old(wire) + encode(Heartbeat(panelId)) + "\n" + WireText(StressMessages(panelId, values, delivered), delivered, encode) &&
          testResults == old(testResults) + [ConnectionLine(panelId, w.0),
                                             ResultMarker(success) + " " + panelId + ": Stress test " + formatRate(rate) + "% errors"])
    {
      var connectionOk := TestPanelConnection(panelId, encode, heartbeatAccepted, polls, arrivals);
      if !connectionOk {
        return false;
      }
      success := StressRound(panelId, encode, bursts, values, accepted, formatRate);
    }

    /** The bursts of run_stress_test and their result line, once the connection test has passed. */
    method StressRound(panelId: string, encode: Outgoing -> string,
                       bursts: nat, values: seq<real>, accepted: seq<bool>, formatRate: real -> string)
      returns (success: bool)
      requires |values| == 5 * bursts && |accepted| == |values|
      modifies this`wire, this`testResults
      ensures var delivered := Delivered(socketOpen, accepted);
        var rate := StressErrorRate(|values| - CountTrue(delivered), CountTrue(delivered));
        success == (rate < 5.0) &&
        testResults == old(testResults) + [ResultMarker(success) + " " + panelId + ": Stress test " + formatRate(rate) + "% errors"] &&
        wire == old(wire) + WireText(StressMessages(panelId, values, delivered), delivered, encode)
    {
      var sent := SendAll(StressMessages(panelId, values, Delivered(socketOpen, accepted)), encode, accepted);
      var errors := |values| - sent;
      var errorRate := StressErrorRate(errors, sent);
      success := errorRate < 5.0;
      testResults := testResults + [ResultMarker(success) + " " + panelId + ": Stress test " + formatRate(errorRate) + "% errors"];
    }

    /**
     * print_test_summary's counters: a line counts as passed when it starts
     * with the pass marker; the pass rate exists only for a non-empty list.
     */
    method TestSummary() returns (passed: nat, failed: nat, passRate: Option<real>)
      ensures passed == CountPassed(testResults) && passed + failed == |testResults|
      ensures passRate == if |testResults| > 0 then Some((passed as real / |testResults| as real) * 100.0) else None
    {
      passed, failed := 0, 0;
      var k := 0;
      while k < |testResults|
        invariant 0 <= k <= |testResults|
        invariant passed == CountPassed(testResults[..k]) && passed + failed == k
      {
        assert testResults[..k + 1] == testResults[..k] + [testResults[k]];
        CountPassedSnoc(testResults[..k], testResults[k]);
        var hit := StartsWith(testResults[k], PassMarker);
        passed := passed + (if hit then 1 else 0);
        failed := failed + (if hit then 0 else 1);
        k := k + 1;
      }
      assert testResults[..k] == testResults;
      var total := passed + failed;
      passRate := if total > 0 then Some((passed as real / total as real) * 100.0) else None;
    }
  }

  /** The connection test's result line. */
  function ConnectionLine(panelId: string, config: Option<Message>): string
  {
    match config
    case Some(m) => " " + panelId + ": Connection successful (" + Text.NatToString(m.deviceCount) + " devices)"
    case None => " " + panelId + ": No configuration received"
  }
}

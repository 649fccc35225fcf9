/**
 * The backend's TCP endpoint for hardware panels (backend/server/tcp.go).
 * Each connection is a session that reads newline-framed JSON messages,
 * latches the panel id from the first heartbeat or status message, hands
 * the messages on to the panel registry, and queues its replies in a
 * bounded output queue that a writer drains onto the socket.
 *
 * JSON decoding and encoding are a Codec of functions supplied by the
 * caller; the clock is a parameter; the two goroutines of a session (the
 * reader loop and the writer) are methods the caller interleaves.
 */
module TcpServer {
  import opened Wrappers
  import Framing
  import opened Messages
  import PanelManager

  const PanelHeartbeatType := "panel_heartbeat"
  const PanelStatusType := "panel_status"
  const PanelInputType := "panel_input"
  const PanelConfigType := "panel_config"

  /** Capacity of a session's output channel. */
  const QueueCapacity := 100

  /** A session is dropped once its last message is more than this many seconds old. */
  const HeartbeatTimeout := 60.0

  /** networking.HeartbeatData; the ping time is seconds. */
  datatype HeartbeatData = HeartbeatData(clientId: string, ping: real)

  /** A received networking.Message: its type and its still-encoded data. */
  datatype Envelope = Envelope(mtype: string, data: string)

  /** What the server sends to a panel. */
  datatype Payload = HeartbeatPayload(heartbeat: HeartbeatData) | ConfigPayload(config: PanelConfiguration)

  /** An outgoing networking.Message, stamped with the send time. */
  datatype OutMessage = OutMessage(mtype: string, timestamp: real, payload: Payload)

  /**
   * The JSON layer: partial decoders for a line and for each payload, and
   * the encoder for outgoing messages.
   */
  datatype Codec = Codec(
    parse: string -> Option<Envelope>,
    heartbeat: string -> Option<HeartbeatData>,
    status: string -> Option<PanelStatusData>,
    input: string -> Option<PanelInputData>,
    encode: OutMessage -> string)
  {
    /** JSON output never contains a raw newline, so it can be framed by one. */
    ghost predicate Valid()
    {
      forall m :: Framing.NoNewline(encode(m))
    }
  }

  /** The heartbeat reply frame. */
  function ReplyFrame(codec: Codec, now: real, id: string, ping: real): string
  {
    codec.encode(OutMessage(PanelHeartbeatType, now, HeartbeatPayload(HeartbeatData(id, ping))))
  }

  /** The configuration frame. */
  function ConfigFrame(codec: Codec, now: real, config: PanelConfiguration): string
  {
    codec.encode(OutMessage(PanelConfigType, now, ConfigPayload(config)))
  }

  // ----- The output queue -----

  /**
   * A non-blocking send: the frame is appended while there is room;
   * a full queue drops it and stays as it is.
   */
  function Enqueue(queue: seq<string>, frame: string): (r: seq<string>)
    ensures queue <= r
    ensures |r| == |queue| + 1 <==> |queue| < QueueCapacity
    ensures |r| == |queue| <==> |queue| >= QueueCapacity
    ensures |queue| <= QueueCapacity ==> |r| <= QueueCapacity
    ensures |r| > |queue| ==> r[|queue|] == frame
  {
    if |queue| < QueueCapacity then queue + [frame] else queue
  }

  /** Every queued frame is newline-free and the queue is within its capacity. */
  predicate QueueValid(queue: seq<string>)
  {
    |queue| <= QueueCapacity && forall k :: 0 <= k < |queue| ==> Framing.NoNewline(queue[k])
  }

  lemma EnqueueKeepsValid(queue: seq<string>, frame: string)
    requires QueueValid(queue) && Framing.NoNewline(frame)
    ensures QueueValid(Enqueue(queue, frame))
  {
  }

  /** How many frames a drain writes before the write numbered failAt fails, if one does. */
  function Written(queued: nat, failAt: Option<nat>): (n: nat)
    ensures n <= queued
    ensures n < queued <==> failAt.Some? && failAt.value < queued
  {
    if failAt.Some? && failAt.value < queued then failAt.value else queued
  }

  // ----- The line scanner -----

  /** bufio.ScanLines drops one carriage return in front of the newline. */
  function DropCR(line: string): (r: string)
    ensures r <= line && |line| - 1 <= |r|
    ensures |line| > 0 && line[|line| - 1] == '\r' <==> |r| < |line|
  {
    if |line| > 0 && line[|line| - 1] == '\r' then line[..|line| - 1] else line
  }

  /**
   * The lines bufio.Scanner yields for a stream: the newline-terminated
   * ones, then the unterminated tail when it is not empty, each without a
   * trailing carriage return.
   */
  function ScannedLines(stream: string): seq<string>
  {
    var f := Framing.Feed("", stream);
    var raw := f.lines + (if f.rest == "" then [] else [f.rest]);
    seq(|raw|, k requires 0 <= k < |raw| => DropCR(raw[k]))
  }

  /** A message the loop acts on: a non-empty line that decodes. */
  predicate Acted(codec: Codec, line: string)
  {
    line != "" && codec.parse(line).Some?
  }

  /** The messages the reader loop hands on, in order. */
  function Parsed(codec: Codec, lines: seq<string>): (r: seq<Envelope>)
    ensures |r| <= |lines|
    ensures forall m :: m in r ==> exists k :: 0 <= k < |lines| && Acted(codec, lines[k]) && codec.parse(lines[k]) == Some(m)
    ensures (forall k :: 0 <= k < |lines| ==> !Acted(codec, lines[k])) ==> r == []
    decreases |lines|
  {
    if lines == [] then []
    else
      var init := lines[..|lines| - 1];
      var last := lines[|lines| - 1];
      assert forall k :: 0 <= k < |init| ==> init[k] == lines[k];
      Parsed(codec, init) + (if Acted(codec, last) then [codec.parse(last).value] else [])
  }

  /** The last-seen time after the first n lines: the clock at the last line acted on. */
  function SeenAfter(codec: Codec, lines: seq<string>, n: nat, clock: nat -> real, start: real): (t: real)
    requires n <= |lines|
    ensures (forall k :: 0 <= k < n ==> !Acted(codec, lines[k])) ==> t == start
    ensures n > 0 && Acted(codec, lines[n - 1]) ==> t == clock(n - 1)
    decreases n
  {
    if n == 0 then start
    else if Acted(codec, lines[n - 1]) then clock(n - 1)
    else SeenAfter(codec, lines, n - 1, clock, start)
  }

  /** The reader loop's progress after one more line. */
  lemma ParsedPrefix(codec: Codec, lines: seq<string>, i: nat)
    requires i < |lines|
    ensures Parsed(codec, lines[..i + 1]) ==
      Parsed(codec, lines[..i]) + (if Acted(codec, lines[i]) then [codec.parse(lines[i]).value] else [])
  {
    assert lines[..i + 1][..i] == lines[..i] && lines[..i + 1][i] == lines[i];
  }

  /**
   * What the session writes is what a panel's scanner reads back: frames
   * without newlines or a trailing carriage return, each written with one
   * '\n', scan as exactly those frames.
   */
  lemma ScanTerminated(frames: seq<string>)
    requires forall k :: 0 <= k < |frames| ==> Framing.NoNewline(frames[k])
    requires forall k :: 0 <= k < |frames| ==> DropCR(frames[k]) == frames[k]
    ensures ScannedLines(Framing.Terminated(frames)) == frames
  {
    Framing.FeedTerminated(frames);
    var f := Framing.Feed("", Framing.Terminated(frames));
    assert f.lines == frames && f.rest == "";
    var raw := f.lines + (if f.rest == "" then [] else [f.rest]);
    assert raw == frames;
    var scanned := ScannedLines(Framing.Terminated(frames));
    assert |scanned| == |frames|;
    forall k | 0 <= k < |frames|
      ensures scanned[k] == frames[k]
    {
      assert scanned[k] == DropCR(raw[k]);
    }
  }

  /** Removing the timed-out sessions marks each of them offline in the registry. */
  function AllOffline(panels: map<string, PanelManager.PanelState>, ids: set<string>): (r: map<string, PanelManager.PanelState>)
    ensures r.Keys == panels.Keys
    ensures forall id :: id in panels ==> r[id] == (if id in ids then panels[id].(isOnline := false) else panels[id])
  {
    map id | id in panels :: if id in ids then panels[id].(isOnline := false) else panels[id]
  }

  /** Marking one more id offline extends the set. */
  lemma AllOfflineStep(panels: map<string, PanelManager.PanelState>, ids: set<string>, id: string)
    ensures PanelManager.MarkedOffline(AllOffline(panels, ids), id) == AllOffline(panels, ids + {id})
  {
    var a := PanelManager.MarkedOffline(AllOffline(panels, ids), id);
    var b := AllOffline(panels, ids + {id});
    assert a.Keys == b.Keys;
    forall k | k in a.Keys
      ensures a[k] == b[k]
    {
    }
  }

  // ----- A session as a value -----

  /**
   * Everything the reader side of a session changes: the session's own
   * fields, the server's session map and event log, and the registry's
   * panel map.
   */
  datatype Session = Session(panelId: string, isConfigured: bool, outputQueue: seq<string>, lastSeen: real,
                             registered: map<string, Client>, dispatched: seq<InputEventData>,
                             panels: map<string, PanelManager.PanelState>)

  /** A session without a panel id takes the given one and registers `c` under it. */
  function Latched(s: Session, c: Client, id: string): (r: Session)
    ensures s.panelId != "" ==> r == s
    ensures s.panelId == "" ==> r.panelId == id && r.registered == s.registered[id := c]
  {
    if s.panelId == "" then s.(panelId := id, registered := s.registered[id := c]) else s
  }

  /** handleHeartbeat's effect, given the registry's configurations. */
  function HeartbeatStep(s: Session, c: Client, configs: map<string, PanelConfiguration>,
                         data: string, codec: Codec, now: real): Session
  {
    match codec.heartbeat(data)
    case None => s
    case Some(hb) =>
      var l := Latched(s, c, hb.clientId);
      var configuring := s.panelId == "" && l.panelId in configs;
      var q := if configuring then Enqueue(s.outputQueue, ConfigFrame(codec, now, configs[l.panelId])) else s.outputQueue;
      l.(isConfigured := s.isConfigured || configuring,
         outputQueue := Enqueue(q, ReplyFrame(codec, now, l.panelId, hb.ping)),
         panels := PanelManager.MarkedOnline(s.panels, l.panelId, now))
  }

  /** handleStatus's effect. */
  function StatusStep(s: Session, c: Client, data: string, codec: Codec): Session
  {
    match codec.status(data)
    case None => s
    case Some(st) =>
      var l := Latched(s, c, st.panelId);
      l.(panels := PanelManager.StatusRecorded(s.panels, l.panelId, st))
  }

  /** handleInput's effect. */
  function InputStep(s: Session, data: string, codec: Codec): Session
  {
    if !s.isConfigured || codec.input(data).None? then s
    else
      var input := codec.input(data).value.(panelId := s.panelId);
      var event := PanelManager.EventFor(s.panels, input);
      s.(panels := PanelManager.InputRecorded(s.panels, input),
         dispatched := s.dispatched + (if event.Some? then [event.value] else []))
  }

  /** handleMessage's effect: by message type. */
  function MessageStep(s: Session, c: Client, configs: map<string, PanelConfiguration>,
                       message: Envelope, codec: Codec, now: real): Session
  {
    if message.mtype == PanelHeartbeatType then HeartbeatStep(s, c, configs, message.data, codec, now)
    else if message.mtype == PanelStatusType then StatusStep(s, c, message.data, codec)
    else if message.mtype == PanelInputType then InputStep(s, message.data, codec)
    else s
  }

  /** One turn of the reader loop at time `now`. */
  function LineStep(s: Session, c: Client, configs: map<string, PanelConfiguration>,
                    line: string, now: real, codec: Codec): Session
  {
    if Acted(codec, line) then MessageStep(s.(lastSeen := now), c, configs, codec.parse(line).value, codec, now) else s
  }

  /** The session after the first n lines, line k read at clock(k). */
  function Run(s: Session, c: Client, configs: map<string, PanelConfiguration>, codec: Codec,
               lines: seq<string>, clock: nat -> real, n: nat): Session
    requires n <= |lines|
    decreases n
  {
    if n == 0 then s else LineStep(Run(s, c, configs, codec, lines, clock, n - 1), c, configs, lines[n - 1], clock(n - 1), codec)
  }

  /** The end of handleConnection: the session's entry goes and its panel is marked offline. */
  function Closed(s: Session): (r: Session)
    ensures r.panelId == s.panelId
    ensures r.panelId != "" ==> r.panelId !in r.registered
    ensures r.panelId != "" && r.panelId in r.panels ==> !r.panels[r.panelId].isOnline
  {
    if s.panelId == "" then s
    else s.(registered := s.registered - {s.panelId}, panels := PanelManager.MarkedOffline(s.panels, s.panelId))
  }

  /** One message never changes a latched panel id nor unconfigures the session, and keeps a valid queue valid. */
  lemma MessageStepKeeps(s: Session, c: Client, configs: map<string, PanelConfiguration>,
                         message: Envelope, codec: Codec, now: real)
    ensures var r := MessageStep(s, c, configs, message, codec, now);
      (s.panelId != "" ==> r.panelId == s.panelId) && (s.isConfigured ==> r.isConfigured) &&
      r.lastSeen == s.lastSeen && s.dispatched <= r.dispatched &&
      (codec.Valid() && QueueValid(s.outputQueue) ==> QueueValid(r.outputQueue))
  {
    var r := MessageStep(s, c, configs, message, codec, now);
    if message.mtype == PanelHeartbeatType && codec.heartbeat(message.data).Some? {
      var hb := codec.heartbeat(message.data).value;
      var l := Latched(s, c, hb.clientId);
      if codec.Valid() && QueueValid(s.outputQueue) {
        var configuring := s.panelId == "" && l.panelId in configs;
        var q := if configuring then Enqueue(s.outputQueue, ConfigFrame(codec, now, configs[l.panelId])) else s.outputQueue;
        if configuring {
          EnqueueKeepsValid(s.outputQueue, ConfigFrame(codec, now, configs[l.panelId]));
        }
        EnqueueKeepsValid(q, ReplyFrame(codec, now, l.panelId, hb.ping));
      }
    }
  }

  /**
   * Over any lines: a latched panel id stays, a configured session stays
   * configured, the event log only grows, a valid queue stays valid, and
   * the last-seen time is the clock at the last line acted on.
   */
  lemma {:induction false} RunKeeps(s: Session, c: Client, configs: map<string, PanelConfiguration>, codec: Codec,
                                    lines: seq<string>, clock: nat -> real, n: nat)
    requires n <= |lines|
    ensures var r := Run(s, c, configs, codec, lines, clock, n);
      (s.panelId != "" ==> r.panelId == s.panelId) && (s.isConfigured ==> r.isConfigured) &&
      s.dispatched <= r.dispatched &&
      (codec.Valid() && QueueValid(s.outputQueue) ==> QueueValid(r.outputQueue)) &&
      r.lastSeen == SeenAfter(codec, lines, n, clock, s.lastSeen)
    decreases n
  {
    if n > 0 {
      RunKeeps(s, c, configs, codec, lines, clock, n - 1);
      var p := Run(s, c, configs, codec, lines, clock, n - 1);
      var line := lines[n - 1];
      if Acted(codec, line) {
        MessageStepKeeps(p.(lastSeen := clock(n - 1)), c, configs, codec.parse(line).value, codec, clock(n - 1));
      }
    }
  }

  /** One connection. */
  class Client {
    var panelId: string
    var lastSeen: real
    var isConfigured: bool
    /** Encoded messages waiting for the writer. */
    var outputQueue: seq<string>
    /** Everything written to the socket so far. */
    var wire: string
    /** The writer stops for good after a failed write. */
    var writing: bool

    /** A fresh connection: no panel id yet, unconfigured, nothing queued. */
    constructor (now: real)
      ensures panelId == "" && lastSeen == now && !isConfigured
      ensures outputQueue == [] && wire == "" && writing
      ensures Valid()
    {
      panelId := "";
      lastSeen := now;
      isConfigured := false;
      outputQueue := [];
      wire := "";
      writing := true;
    }

    predicate Valid()
      reads this
    {
      QueueValid(outputQueue)
    }

    /** sendMessage: a non-blocking send on the output channel. */
    method SendMessage(frame: string)
      modifies this`outputQueue
      ensures outputQueue == Enqueue(old(outputQueue), frame)
      ensures old(Valid()) && Framing.NoNewline(frame) ==> Valid()
    {
      if |outputQueue| < QueueCapacity {
        outputQueue := outputQueue + [frame];
      }
    }

    /**
     * outputHandler: takes the queued frames in order and writes each with
     * one '\n' appended, until the write numbered failAt fails; that frame
     * has been taken but is not written, and the writer stops.
     */
    method OutputHandler(failAt: Option<nat>)
      modifies this`outputQueue, this`wire, this`writing
      ensures !old(writing) ==> outputQueue == old(outputQueue) && wire == old(wire) && !writing
      ensures old(writing) ==>
        var q := old(outputQueue);
        var n := Written(|q|, failAt);
        && wire == old(wire) + Framing.Terminated(q[..n])
        && outputQueue == (if n < |q| then q[n + 1..] else [])
        && writing == (n == |q|)
      ensures old(Valid()) ==> Valid()
    {
      if !writing {
        return;
      }
      ghost var q := outputQueue;
      ghost var w := wire;
      var sent := 0;
      while outputQueue != []
        invariant 0 <= sent <= |q| && outputQueue == q[sent..]
        invariant wire == w + Framing.Terminated(q[..sent])
        invariant failAt.Some? ==> sent <= failAt.value
        invariant writing
        decreases |outputQueue|
      {
        var frame := outputQueue[0];
        outputQueue := outputQueue[1..];
        if failAt == Some(sent) {
          writing := false;
          return;
        }
        TerminatedSnoc(q[..sent], frame);
        assert q[..sent + 1] == q[..sent] + [frame];
        wire := wire + (frame + "\n");
        sent := sent + 1;
      }
    }
  }

  /** Writing one more frame extends the terminated text by that frame and its '\n'. */
  lemma {:induction false} TerminatedSnoc(lines: seq<string>, line: string)
    ensures Framing.Terminated(lines + [line]) == Framing.Terminated(lines) + (line + "\n")
    decreases |lines|
  {
    if lines == [] {
      assert [line][1..] == [];
    } else {
      assert (lines + [line])[1..] == lines[1..] + [line];
      TerminatedSnoc(lines[1..], line);
    }
  }

  /** The listening side: the registered sessions and the panel registry. */
  class Server {
    var clients: map<string, Client>
    const manager: PanelManager.Manager
    /** The station events the registry has handed on, in order. */
    var dispatched: seq<InputEventData>

    /** The reader-side state of session c. */
    function State(c: Client): Session
      reads this, c, manager
    {
      Session(c.panelId, c.isConfigured, c.outputQueue, c.lastSeen, clients, dispatched, manager.panels)
    }

    /** NewTCPServer: no sessions yet. */
    constructor (manager: PanelManager.Manager)
      ensures this.manager == manager && clients == map[] && dispatched == []
    {
      this.manager := manager;
      clients := map[];
      dispatched := [];
    }

    /**
     * handleHeartbeat. A heartbeat that does not decode changes nothing.
     * Otherwise a session without a panel id takes the heartbeat's client
     * id, registers under it and, when the registry has a configuration
     * for that id, queues it and becomes configured; then the reply echoing
     * the ping is queued and the panel is marked online.
     */
    method HandleHeartbeat(c: Client, data: string, codec: Codec, now: real)
      modifies c`panelId, c`isConfigured, c`outputQueue, this`clients, manager`panels
      ensures codec.heartbeat(data).None? ==>
        c.panelId == old(c.panelId) && c.isConfigured == old(c.isConfigured) && c.outputQueue == old(c.outputQueue) &&
        clients == old(clients) && manager.panels == old(manager.panels)
      ensures codec.heartbeat(data).Some? ==>
        var hb := codec.heartbeat(data).value;
        var latching := old(c.panelId) == "";
        var configuring := latching && c.panelId in manager.configurations;
        && c.panelId == (if latching then hb.clientId else old(c.panelId))
        && clients == (if latching then old(clients)[c.panelId := c] else old(clients))
        && c.isConfigured == (old(c.isConfigured) || configuring)
        && c.outputQueue == Enqueue(if configuring then Enqueue(old(c.outputQueue), ConfigFrame(codec, now, manager.configurations[c.panelId]))
                                     else old(c.outputQueue),
                                     ReplyFrame(codec, now, c.panelId, hb.ping))
        && manager.panels == PanelManager.MarkedOnline(old(manager.panels), c.panelId, now)
      ensures codec.Valid() && old(c.Valid()) ==> c.Valid()
      ensures State(c) == HeartbeatStep(old(State(c)), c, manager.configurations, data, codec, now) && dispatched == old(dispatched)
    {
      var decoded := codec.heartbeat(data);
      if decoded.None? {
        return;
      }
      var hb := decoded.value;
      if c.panelId == "" {
        c.panelId := hb.clientId;
        clients := clients[c.panelId := c];
        var config := manager.GetPanelConfiguration(c.panelId);
        if config.Some? {
          c.SendMessage(ConfigFrame(codec, now, config.value));
          c.isConfigured := true;
        }
      }
      c.SendMessage(ReplyFrame(codec, now, c.panelId, hb.ping));
      manager.SetPanelOnline(c.panelId, now);
    }

    /**
     * handleStatus. A status that does not decode changes nothing.
     * Otherwise a session without a panel id takes the status's panel id and
     * registers under it, and the report is recorded for the session's id.
     */
    method HandleStatus(c: Client, data: string, codec: Codec)
      modifies c`panelId, this`clients, manager`panels
      ensures codec.status(data).None? ==>
        c.panelId == old(c.panelId) && clients == old(clients) && manager.panels == old(manager.panels)
      ensures codec.status(data).Some? ==>
        var st := codec.status(data).value;
        var latching := old(c.panelId) == "";
        && c.panelId == (if latching then st.panelId else old(c.panelId))
        && clients == (if latching then old(clients)[c.panelId := c] else old(clients))
        && manager.panels == PanelManager.StatusRecorded(old(manager.panels), c.panelId, st)
      ensures State(c) == StatusStep(old(State(c)), c, data, codec)
    {
      var decoded := codec.status(data);
      if decoded.None? {
        return;
      }
      if c.panelId == "" {
        c.panelId := decoded.value.panelId;
        clients := clients[c.panelId := c];
      }
      manager.UpdatePanelStatus(c.panelId, decoded.value);
    }

    /**
     * handleInput. Nothing happens before the session is configured or when
     * the input does not decode. Otherwise the input's panel id is replaced
     * by the session's and the registry processes it.
     */
    method HandleInput(c: Client, data: string, codec: Codec)
      modifies manager`panels, this`dispatched
      ensures !c.isConfigured || codec.input(data).None? ==>
        manager.panels == old(manager.panels) && dispatched == old(dispatched)
      ensures c.isConfigured && codec.input(data).Some? ==>
        var input := codec.input(data).value.(panelId := c.panelId);
        var event := PanelManager.EventFor(old(manager.panels), input);
        && manager.panels == PanelManager.InputRecorded(old(manager.panels), input)
        && dispatched == old(dispatched) + (if event.Some? then [event.value] else [])
      ensures State(c) == InputStep(old(State(c)), data, codec)
    {
      if !c.isConfigured {
        return;
      }
      var decoded := codec.input(data);
      if decoded.None? {
        return;
      }
      var input := decoded.value.(panelId := c.panelId);
      var event := manager.ProcessInput(input);
      if event.Some? {
        dispatched := dispatched + [event.value];
      }
    }

    /** handleMessage: dispatch on the message type; other types are ignored. */
    method HandleMessage(c: Client, message: Envelope, codec: Codec, now: real)
      modifies c`panelId, c`isConfigured, c`outputQueue, this`clients, this`dispatched, manager`panels
      ensures message.mtype !in {PanelHeartbeatType, PanelStatusType, PanelInputType} ==>
        c.panelId == old(c.panelId) && c.isConfigured == old(c.isConfigured) && c.outputQueue == old(c.outputQueue) &&
        clients == old(clients) && dispatched == old(dispatched) && manager.panels == old(manager.panels)
      ensures old(c.panelId) != "" ==> c.panelId == old(c.panelId)
      ensures old(c.isConfigured) ==> c.isConfigured
      ensures message.mtype != PanelInputType ==> dispatched == old(dispatched)
      ensures codec.Valid() && old(c.Valid()) ==> c.Valid()
      ensures State(c) == MessageStep(old(State(c)), c, manager.configurations, message, codec, now)
    {
      if message.mtype == PanelHeartbeatType {
        HandleHeartbeat(c, message.data, codec, now);
      } else if message.mtype == PanelStatusType {
        HandleStatus(c, message.data, codec);
      } else if message.mtype == PanelInputType {
        HandleInput(c, message.data, codec);
      }
    }

    /**
     * One turn of the reader loop: an empty line or one that does not decode
     * is skipped; otherwise the session is seen at `now` and the message
     * handled. Returns the message acted on, if any.
     */
    method ReadLine(c: Client, line: string, now: real, codec: Codec) returns (ghost acted: Option<Envelope>)
      modifies c`panelId, c`isConfigured, c`outputQueue, c`lastSeen, this`clients, this`dispatched, manager`panels
      ensures acted == (if Acted(codec, line) then codec.parse(line) else None)
      ensures c.lastSeen == (if Acted(codec, line) then now else old(c.lastSeen))
      ensures old(c.panelId) != "" ==> c.panelId == old(c.panelId)
      ensures codec.Valid() && old(c.Valid()) ==> c.Valid()
      ensures State(c) == LineStep(old(State(c)), c, manager.configurations, line, now, codec)
    {
      acted := None;
      if line != "" {
        var message := codec.parse(line);
        if message.Some? {
          c.lastSeen := now;
          HandleMessage(c, message.value, codec, now);
          acted := message;
        }
      }
    }

    /**
     * handleConnection: the reader loop over the scanned lines of the
     * stream, skipping empty lines and lines that do not decode, refreshing
     * the last-seen time only for the others; clock(k) is the time line k
     * is read. When the stream ends, the entry under the session's panel id
     * is removed and that panel is marked offline.
     */
    method HandleConnection(c: Client, stream: string, clock: nat -> real, codec: Codec) returns (ghost handled: seq<Envelope>)
      modifies c`panelId, c`isConfigured, c`outputQueue, c`lastSeen, this`clients, this`dispatched, manager`panels
      ensures handled == Parsed(codec, ScannedLines(stream))
      ensures c.lastSeen == SeenAfter(codec, ScannedLines(stream), |ScannedLines(stream)|, clock, old(c.lastSeen))
      ensures old(c.panelId) != "" ==> c.panelId == old(c.panelId)
      ensures c.panelId != "" ==> c.panelId !in clients
      ensures c.panelId != "" && c.panelId in manager.panels ==> !manager.panels[c.panelId].isOnline
      ensures codec.Valid() && old(c.Valid()) ==> c.Valid()
      ensures var lines := ScannedLines(stream);
        State(c) == Closed(Run(old(State(c)), c, manager.configurations, codec, lines, clock, |lines|))
    {
      var lines := ScannedLines(stream);
      handled := ReadLines(c, lines, clock, codec);
      if c.panelId != "" {
        clients := clients - {c.panelId};
        manager.SetPanelOffline(c.panelId);
      }
    }

    /** The reader loop of handleConnection over the scanned lines. */
    method ReadLines(c: Client, lines: seq<string>, clock: nat -> real, codec: Codec) returns (ghost handled: seq<Envelope>)
      modifies c`panelId, c`isConfigured, c`outputQueue, c`lastSeen, this`clients, this`dispatched, manager`panels
      ensures handled == Parsed(codec, lines)
      ensures c.lastSeen == SeenAfter(codec, lines, |lines|, clock, old(c.lastSeen))
      ensures old(c.panelId) != "" ==> c.panelId == old(c.panelId)
      ensures codec.Valid() && old(c.Valid()) ==> c.Valid()
      ensures State(c) == Run(old(State(c)), c, manager.configurations, codec, lines, clock, |lines|)
    {
      handled := [];
      ghost var start := c.lastSeen;
      ghost var s0 := State(c);
      var i := 0;
      while i < |lines|
        invariant 0 <= i <= |lines|
        invariant handled == Parsed(codec, lines[..i])
        invariant c.lastSeen == SeenAfter(codec, lines, i, clock, start)
        invariant old(c.panelId) != "" ==> c.panelId == old(c.panelId)
        invariant codec.Valid() && old(c.Valid()) ==> c.Valid()
        invariant State(c) == Run(s0, c, manager.configurations, codec, lines, clock, i)
      {
        handled := ReadNext(c, lines, i, clock, codec, handled, start, s0);
        i := i + 1;
      }
      assert lines[..i] == lines;
    }

    /** One turn of ReadLines: line i is read and the progress extends by it. */
    method ReadNext(c: Client, lines: seq<string>, i: nat, clock: nat -> real, codec: Codec,
                    ghost before: seq<Envelope>, ghost start: real, ghost s0: Session) returns (ghost after: seq<Envelope>)
      requires i < |lines| && before == Parsed(codec, lines[..i])
      requires c.lastSeen == SeenAfter(codec, lines, i, clock, start)
      requires State(c) == Run(s0, c, manager.configurations, codec, lines, clock, i)
      modifies c`panelId, c`isConfigured, c`outputQueue, c`lastSeen, this`clients, this`dispatched, manager`panels
      ensures after == Parsed(codec, lines[..i + 1])
      ensures c.lastSeen == SeenAfter(codec, lines, i + 1, clock, start)
      ensures old(c.panelId) != "" ==> c.panelId == old(c.panelId)
      ensures codec.Valid() && old(c.Valid()) ==> c.Valid()
      ensures State(c) == Run(s0, c, manager.configurations, codec, lines, clock, i + 1)
    {
      ParsedPrefix(codec, lines, i);
      var acted := ReadLine(c, lines[i], clock(i), codec);
      after := before;
      if acted.Some? {
        after := before + [acted.value];
      }
    }

    /**
     * checkClientHeartbeats: removes exactly the sessions last seen more
     * than the timeout before now and marks each of their panels offline.
     */
    method CheckClientHeartbeats(now: real) returns (ghost gone: set<string>)
      modifies this`clients, manager`panels
      ensures gone == old(set id | id in clients && now - clients[id].lastSeen > HeartbeatTimeout)
      ensures clients == old(clients) - gone
      ensures manager.panels == AllOffline(old(manager.panels), gone)
    {
      var todo := clients.Keys;
      gone := {};
      var start := clients;
      assert AllOffline(manager.panels, {}) == manager.panels;
      while todo != {}
        invariant todo <= start.Keys && start == old(clients)
        invariant forall id :: id in gone <==> id in start && id !in todo && now - old(start[id].lastSeen) > HeartbeatTimeout
        invariant clients == start - gone
        invariant manager.panels == AllOffline(old(manager.panels), gone)
        decreases |todo|
      {
        var id :| id in todo;
        assert start[id].lastSeen == old(start[id].lastSeen);
        todo := todo - {id};
        gone := ExpireIfSilent(id, now, start, gone, old(manager.panels));
      }
    }

    /** One turn of checkClientHeartbeats: the session under id goes when it has been silent too long. */
    method ExpireIfSilent(id: string, now: real, start: map<string, Client>, ghost before: set<string>,
                          ghost panels: map<string, PanelManager.PanelState>) returns (ghost after: set<string>)
      requires id in start && id !in before
      requires clients == start - before && manager.panels == AllOffline(panels, before)
      modifies this`clients, manager`panels
      ensures after == if now - start[id].lastSeen > HeartbeatTimeout then before + {id} else before
      ensures clients == start - after && manager.panels == AllOffline(panels, after)
    {
      after := before;
      var client := start[id];
      if now - client.lastSeen > HeartbeatTimeout {
        clients := clients - {id};
        AllOfflineStep(panels, before, id);
        manager.SetPanelOffline(id);
        after := before + {id};
      }
    }
  }
}

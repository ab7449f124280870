/**
 The relay between a browser's WebSocket and a child's: one queue in each direction, with
 the source paused while frames wait. And the owner of both sockets, which ends them once.
 */
module WebSocketBridge {
  import opened CanonicalJson
  import opened Utf8

  type Code = int

  const MAX_ITEMS := 16

  datatype Frame = Frame(data: seq<Byte>, binary: bool)
  datatype Direction = Inbound | Outbound

  /** A queue, and whether its source is paused. */
  datatype Lane = Lane(active: bool, bytes: int, items: seq<Frame>, paused: bool)

  /** `closed` holds the code of the first `finish`. */
  datatype State = State(closed: Option<Code>, inbound: Lane, outbound: Lane)
  /** What the relay sees of a destination when it looks: open, and how much it has buffered. */
  datatype Destination = Destination(open: bool, buffered: nat)

  function LaneOf(s: State, d: Direction): Lane {
    if d.Inbound? then s.inbound else s.outbound
  }

  function WithLane(s: State, d: Direction, lane: Lane): State {
    if d.Inbound? then s.(inbound := lane) else s.(outbound := lane)
  }

  function Finished(s: State, code: Code): State {
    if s.closed.Some? then s else s.(closed := Some(code))
  }

  /** `flush`: the frame handed to the destination, if any. */
  function Flushed(s: State, limit: nat, d: Direction, to: Destination): (State, Option<Frame>) {
    var lane := LaneOf(s, d);
    if s.closed.Some? || lane.active then (s, None)
    else if lane.items == [] then (WithLane(s, d, lane.(paused := false)), None)
    else
      var next := lane.items[0];
      var shifted := lane.(items := lane.items[1..], bytes := lane.bytes - |next.data|);
      if !to.open || to.buffered + |next.data| > limit then (Finished(WithLane(s, d, shifted), 1013), None)
      else (WithLane(s, d, shifted.(active := true)), Some(next))
  }

  predicate Accepts(s: State, limit: nat, d: Direction, frame: Frame, to: Destination) {
    && s.closed.None? && to.open && |frame.data| <= limit
    && |LaneOf(s, d).items| < MAX_ITEMS && LaneOf(s, d).bytes + |frame.data| <= limit
  }

  /** `forward`. */
  function Forwarded(s: State, limit: nat, d: Direction, frame: Frame, to: Destination): (State, Option<Frame>) {
    var lane := LaneOf(s, d);
    if s.closed.Some? || !to.open then (Finished(s, 1011), None)
    else if |frame.data| > limit then (Finished(s, 1009), None)
    else if |lane.items| >= MAX_ITEMS || lane.bytes + |frame.data| > limit then (Finished(s, 1013), None)
    else
      Flushed(
        WithLane(s, d, lane.(items := lane.items + [frame], bytes := lane.bytes + |frame.data|, paused := true)), limit,
            d, to)
  }

  /** The callback of a send. */
  function SendEnded(s: State, limit: nat, d: Direction, failed: bool, to: Destination): (State, Option<Frame>) {
    var idle := WithLane(s, d, LaneOf(s, d).(active := false));
    if failed || s.closed.Some? then (Finished(idle, 1011), None) else Flushed(idle, limit, d, to)
  }

  class Relay {
    const limit: nat
    var closed: Option<Code>
    var inbound: Lane
    var outbound: Lane

    function View(): State
      reads this
    {
      State(closed, inbound, outbound)
    }

    constructor (maxFrameBytes: nat)
      ensures limit == maxFrameBytes
      ensures View() == State(None, Lane(false, 0, [], false), Lane(false, 0, [], false))
    {
      limit := maxFrameBytes;
      closed, inbound, outbound := None, Lane(false, 0, [], false), Lane(false, 0, [], false);
    }

    /** Whether the owner is shut down by this call. */
    method Finish(code: Code) returns (shutsDown: bool)
      modifies this`closed
      ensures shutsDown == old(closed).None? && View() == Finished(old(View()), code)
    {
      if closed.Some? {
        return false;
      }
      closed := Some(code);
      return true;
    }

    method SetLane(d: Direction, lane: Lane)
      modifies this`inbound, this`outbound
      ensures View() == WithLane(old(View()), d, lane)
    {
      if d.Inbound? {
        inbound := lane;
      } else {
        outbound := lane;
      }
    }

    method Flush(d: Direction, to: Destination) returns (sent: Option<Frame>)
      modifies this
      ensures (View(), sent) == Flushed(old(View()), limit, d, to)
    {
      var lane := LaneOf(View(), d);
      if closed.Some? || lane.active {
        return None;
      }
      if lane.items == [] {
        SetLane(d, lane.(paused := false));
        return None;
      }
      var next := lane.items[0];
      lane := lane.(items := lane.items[1..], bytes := lane.bytes - |next.data|);
      SetLane(d, lane);
      if !to.open || to.buffered + |next.data| > limit {
        var shutsDown := Finish(1013);
        return None;
      }
      SetLane(d, lane.(active := true));
      return Some(next);
    }

    method Forward(d: Direction, frame: Frame, to: Destination) returns (sent: Option<Frame>)
      modifies this
      ensures (View(), sent) == Forwarded(old(View()), limit, d, frame, to)
    {
      var lane := LaneOf(View(), d);
      if closed.Some? || !to.open {
        var shutsDown := Finish(1011);
        return None;
      }
      if |frame.data| > limit {
        var shutsDown := Finish(1009);
        return None;
      }
      if |lane.items| >= MAX_ITEMS || lane.bytes + |frame.data| > limit {
        var shutsDown := Finish(1013);
        return None;
      }
      SetLane(d, lane.(items := lane.items + [frame], bytes := lane.bytes + |frame.data|, paused := true));
      sent := Flush(d, to);
    }

    method EndSend(d: Direction, failed: bool, to: Destination) returns (sent: Option<Frame>)
      modifies this
      ensures (View(), sent) == SendEnded(old(View()), limit, d, failed, to)
    {
      SetLane(d, LaneOf(View(), d).(active := false));
      if failed || closed.Some? {
        var shutsDown := Finish(1011);
        return None;
      }
      sent := Flush(d, to);
    }
  }

  // Runs of the relay.

  /** What each side of a direction has seen. */
  datatype Traffic = Traffic(accepted: seq<Frame>, sent: seq<Frame>, outstanding: nat)

  datatype System = System(s: State, inbound: Traffic, outbound: Traffic, shutdowns: seq<Code>)

  datatype Event =
    | Message(direction: Direction, frame: Frame, to: Destination)
    | SendCallback(direction: Direction, failed: bool, to: Destination)
    | Finish(code: Code)

  const IDLE: Lane := Lane(false, 0, [], false)
  const QUIET: Traffic := Traffic([], [], 0)
  const INITIAL: System := System(State(None, IDLE, IDLE), QUIET, QUIET, [])

  function TrafficOf(y: System, d: Direction): Traffic {
    if d.Inbound? then y.inbound else y.outbound
  }

  function WithTraffic(y: System, d: Direction, t: Traffic): System {
    if d.Inbound? then y.(inbound := t) else y.(outbound := t)
  }

  /** The new state, with a shutdown of the owner if this step closed the relay. */
  function Settled(y: System, s: State): System {
    y.(s := s, shutdowns := if y.s.closed.None? && s.closed.Some? then y.shutdowns + [s.closed.value] else y.shutdowns)
  }

  function Sent(t: Traffic, sent: Option<Frame>): Traffic {
    if sent.Some? then t.(sent := t.sent + [sent.value], outstanding := t.outstanding + 1) else t
  }

  /** A send is answered once: callbacks come only for sends that are outstanding. */
  function Apply(limit: nat, y: System, e: Event): System {
    match e
    case Message(d, frame, to) =>
      var (s, sent) := Forwarded(y.s, limit, d, frame, to);
      var t := TrafficOf(y, d);
      var accepted := if Accepts(y.s, limit, d, frame, to) then t.(accepted := t.accepted + [frame]) else t;
      WithTraffic(Settled(y, s), d, Sent(accepted, sent))
    case SendCallback(d, failed, to) =>
      var t := TrafficOf(y, d);
      if t.outstanding == 0 then y
      else
        var (s, sent) := SendEnded(y.s, limit, d, failed, to);
        WithTraffic(Settled(y, s), d, Sent(t.(outstanding := t.outstanding - 1), sent))
    case Finish(code) => Settled(y, Finished(y.s, code))
  }

  function Run(limit: nat, y: System, events: seq<Event>): System
    decreases |events|
  {
    if events == [] then y else Run(limit, Apply(limit, y, events[0]), events[1..])
  }

  // The invariant of one direction.

  function Total(items: seq<Frame>): nat {
    if items == [] then 0 else |items[0].data| + Total(items[1..])
  }

  predicate LaneKept(limit: nat, open: bool, lane: Lane, t: Traffic) {
    && lane.bytes == Total(lane.items) <= limit && |lane.items| <= MAX_ITEMS
    && t.outstanding == (if lane.active then 1 else 0)
    && t.sent <= t.accepted
    && (open ==>
          && t.accepted == t.sent + lane.items
          && (lane.paused <==> lane.active)
          && (lane.items != [] ==> lane.active))
  }

  predicate Kept(limit: nat, y: System) {
    && LaneKept(limit, y.s.closed.None?, y.s.inbound, y.inbound)
    && LaneKept(limit, y.s.closed.None?, y.s.outbound, y.outbound)
    && y.shutdowns == (if y.s.closed.Some? then [y.s.closed.value] else [])
  }

  lemma {:induction false} TotalAppend(items: seq<Frame>, frame: Frame)
    ensures Total(items + [frame]) == Total(items) + |frame.data|
  {
    if items == [] {
      assert items + [frame] == [frame];
    } else {
      TotalAppend(items[1..], frame);
      assert (items + [frame])[1..] == items[1..] + [frame];
    }
  }

  /** A lane about to be flushed: like a kept one, except that its source may be paused with no send. */
  predicate Ready(limit: nat, lane: Lane, t: Traffic) {
    && lane.bytes == Total(lane.items) <= limit && |lane.items| <= MAX_ITEMS
    && t.outstanding == (if lane.active then 1 else 0)
    && t.accepted == t.sent + lane.items
    && lane.paused
  }

  lemma FlushKeeps(limit: nat, s: State, d: Direction, to: Destination, t: Traffic)
    requires s.closed.None? && Ready(limit, LaneOf(s, d), t)
    ensures var (q, sent) := Flushed(s, limit, d, to); LaneKept(limit, q.closed.None?, LaneOf(q, d), Sent(t, sent))
  {
    var lane := LaneOf(s, d);
    var (q, sent) := Flushed(s, limit, d, to);
    if !lane.active && lane.items != [] {
      assert lane.items == [lane.items[0]] + lane.items[1..];
      assert t.accepted == (t.sent + [lane.items[0]]) + lane.items[1..];
    }
  }

  lemma OtherLane(limit: nat, s: State, d: Direction, e: Direction, to: Destination)
    requires d != e
    ensures LaneOf(Flushed(s, limit, d, to).0, e) == LaneOf(s, e)
  {
  }

  lemma ClosingKeeps(limit: nat, open: bool, lane: Lane, t: Traffic)
    requires LaneKept(limit, open, lane, t)
    ensures LaneKept(limit, false, lane, t)
  {
  }

  lemma MessageKeeps(limit: nat, y: System, d: Direction, frame: Frame, to: Destination)
    requires Kept(limit, y)
    ensures Kept(limit, Apply(limit, y, Message(d, frame, to)))
  {
    var lane, t := LaneOf(y.s, d), TrafficOf(y, d);
    ClosingKeeps(limit, y.s.closed.None?, y.s.inbound, y.inbound);
    ClosingKeeps(limit, y.s.closed.None?, y.s.outbound, y.outbound);
    if Accepts(y.s, limit, d, frame, to) {
      TotalAppend(lane.items, frame);
      var pushed := lane.(items := lane.items + [frame], bytes := lane.bytes + |frame.data|, paused := true);
      var accepted := t.(accepted := t.accepted + [frame]);
      assert accepted.accepted == accepted.sent + pushed.items;
      FlushKeeps(limit, WithLane(y.s, d, pushed), d, to, accepted);
      OtherLane(limit, WithLane(y.s, d, pushed), d, if d.Inbound? then Outbound else Inbound, to);
      hide Total, LaneKept, Flushed;
      FlushedCloses(WithLane(y.s, d, pushed), limit, d, to);
    }
  }

  lemma FlushedCloses(s: State, limit: nat, d: Direction, to: Destination)
    ensures var q := Flushed(s, limit, d, to).0; s.closed.Some? ==> q.closed == s.closed
  {
  }

  lemma CallbackKeeps(limit: nat, y: System, d: Direction, failed: bool, to: Destination)
    requires Kept(limit, y)
    ensures Kept(limit, Apply(limit, y, SendCallback(d, failed, to)))
  {
    var lane, t := LaneOf(y.s, d), TrafficOf(y, d);
    ClosingKeeps(limit, y.s.closed.None?, y.s.inbound, y.inbound);
    ClosingKeeps(limit, y.s.closed.None?, y.s.outbound, y.outbound);
    if t.outstanding > 0 && !failed && y.s.closed.None? {
      var idle := WithLane(y.s, d, lane.(active := false));
      FlushKeeps(limit, idle, d, to, t.(outstanding := t.outstanding - 1));
      OtherLane(limit, idle, d, if d.Inbound? then Outbound else Inbound, to);
      hide Total, LaneKept, Flushed;
    }
  }

  lemma ApplyKeeps(limit: nat, y: System, e: Event)
    requires Kept(limit, y)
    ensures Kept(limit, Apply(limit, y, e))
  {
    match e
    case Message(d, frame, to) => MessageKeeps(limit, y, d, frame, to);
    case SendCallback(d, failed, to) => CallbackKeeps(limit, y, d, failed, to);
    case Finish(code) =>
  }

  lemma {:induction false} RunKeeps(limit: nat, y: System, events: seq<Event>)
    requires Kept(limit, y)
    ensures Kept(limit, Run(limit, y, events))
    decreases |events|
  {
    hide Kept, Apply;
    if events != [] {
      ApplyKeeps(limit, y, events[0]);
      RunKeeps(limit, Apply(limit, y, events[0]), events[1..]);
    }
  }

  /**
   In every run and in each direction: the frames sent are the first of those accepted, in
   order; while the relay is open the rest are in the queue, whose bytes are counted and
   bounded; at most one send is outstanding; while open the source is paused exactly while a
   send is outstanding, which one is whenever frames wait. The owner is shut down once, with
   the first code.
   */
  lemma RelayKeepsOrder(limit: nat, events: seq<Event>, d: Direction)
    ensures var y := Run(limit, INITIAL, events);
            var lane, t := LaneOf(y.s, d), TrafficOf(y, d);
            && t.sent <= t.accepted && t.outstanding <= 1
            && lane.bytes == Total(lane.items) <= limit && |lane.items| <= MAX_ITEMS
            && (y.s.closed.None? ==>
                  && t.accepted == t.sent + lane.items
                  && (lane.paused <==> t.outstanding == 1)
                  && (lane.items != [] ==> t.outstanding == 1))
            && y.shutdowns == (if y.s.closed.Some? then [y.s.closed.value] else [])
  {
    RunKeeps(limit, INITIAL, events);
  }

  /** After the relay has closed, nothing more is sent or accepted, and its code stands. */
  lemma {:induction false} ClosedIsFinal(limit: nat, y: System, events: seq<Event>)
    requires y.s.closed.Some?
    ensures var z := Run(limit, y, events);
            && z.s.closed == y.s.closed && z.shutdowns == y.shutdowns
            && z.inbound.sent == y.inbound.sent && z.outbound.sent == y.outbound.sent
            && z.inbound.accepted == y.inbound.accepted && z.outbound.accepted == y.outbound.accepted
    decreases |events|
  {
    if events != [] {
      ClosedIsFinal(limit, Apply(limit, y, events[0]), events[1..]);
    }
  }

  /** The destination is open and has room for the frame. */
  predicate HasRoom(limit: nat, to: Destination, frame: Frame) {
    to.open && to.buffered + |frame.data| <= limit
  }

  function Callbacks(d: Direction, tos: seq<Destination>): seq<Event> {
    seq(|tos|, k requires 0 <= k < |tos| => SendCallback(d, false, tos[k]))
  }

  /** One callback that succeeds. */
  lemma DrainStep(limit: nat, y: System, d: Direction, to: Destination)
    requires Kept(limit, y) && y.s.closed.None? && LaneOf(y.s, d).active
    ensures var x, items := Apply(limit, y, SendCallback(d, false, to)), LaneOf(y.s, d).items;
            && Kept(limit, x) && TrafficOf(x, d).accepted == TrafficOf(y, d).accepted
            && (if items == [] then x.s.closed.None? && LaneOf(x.s, d) == IDLE
               && TrafficOf(x, d).sent == TrafficOf(x, d).accepted
                else if HasRoom(limit, to, items[0]) then x.s.closed.None? && LaneOf(x.s, d).active
                  && LaneOf(x.s, d).items == items[1..]
                else x.s.closed == Some(1013))
  {
    CallbackKeeps(limit, y, d, false, to);
  }

  /**
   Callbacks that succeed drain the queue, frame by frame, exactly when each frame finds room
   at its turn; the first that does not closes the relay with 1013.
   */
  lemma {:induction false} QueueDrains(limit: nat, y: System, d: Direction, tos: seq<Destination>)
    requires Kept(limit, y) && y.s.closed.None? && LaneOf(y.s, d).active && |tos| == |LaneOf(y.s, d).items| + 1
    ensures var z, items := Run(limit, y, Callbacks(d, tos)), LaneOf(y.s, d).items;
            && z.s.closed == (if forall k | 0 <= k < |items| ::
               HasRoom(limit, tos[k], items[k]) then None else Some(1013))
            && TrafficOf(z, d).accepted == TrafficOf(y, d).accepted
            && (z.s.closed.None? ==> TrafficOf(z, d).sent == TrafficOf(z, d).accepted && LaneOf(z.s, d) == IDLE)
    decreases |tos|
  {
    var events, items := Callbacks(d, tos), LaneOf(y.s, d).items;
    var x := Apply(limit, y, events[0]);
    DrainStep(limit, y, d, tos[0]);
    hide Apply, Kept, HasRoom, LaneOf, TrafficOf;
    assert events[1..] == Callbacks(d, tos[1..]);
    if items == [] {
      assert Run(limit, x, events[1..]) == x;
    } else if HasRoom(limit, tos[0], items[0]) {
      assert items == [items[0]] + items[1..];
      QueueDrains(limit, x, d, tos[1..]);
      RoomForRest(limit, tos, items);
    } else {
      ClosedIsFinal(limit, x, events[1..]);
    }
  }

  lemma RoomForRest(limit: nat, tos: seq<Destination>, items: seq<Frame>)
    requires |tos| == |items| + 1 && items != [] && HasRoom(limit, tos[0], items[0])
    ensures (forall k | 0 <= k < |items[1..]| :: HasRoom(limit, tos[1..][k], items[1..][k]))
       <==> forall k | 0 <= k < |items| :: HasRoom(limit, tos[k], items[k])
  {
    if forall k | 0 <= k < |items[1..]| :: HasRoom(limit, tos[1..][k], items[1..][k]) {
      forall k | 1 <= k < |items|
        ensures HasRoom(limit, tos[k], items[k])
      {
        assert tos[1..][k - 1] == tos[k] && items[1..][k - 1] == items[k];
      }
    }
  }
}

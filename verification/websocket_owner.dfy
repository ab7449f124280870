/** The owner of a bridged pair of sockets: it ends both once and reports that at most once. */
module WebSocketOwner {
  import opened CanonicalJson

  type SocketId = nat
  type Code = int

  datatype Effect = Terminate(socket: SocketId) | Close(socket: SocketId, code: Code) | DestroyRaw | NotifyClosed

  /** `timers` counts delayed ends that have not run; `effects` is what was done, in order. */
  datatype State = State(
    browser: Option<SocketId>, child: Option<SocketId>, terminated: bool, notified: bool,
    callback: bool, timers: nat, effects: seq<Effect>)

  const INITIAL: State := State(None, None, false, false, false, 0, [])

  function Terminated(socket: Option<SocketId>): seq<Effect> {
    if socket.Some? then [Terminate(socket.value)] else []
  }

  function Closed(socket: Option<SocketId>, open: set<SocketId>, code: Code): seq<Effect> {
    if socket.Some? && socket.value in open then [Close(socket.value, code)] else []
  }

  /** `#notifyClosed`. */
  function Notified(s: State): State {
    if s.notified || !s.callback then s else s.(notified := true, effects := s.effects + [NotifyClosed])
  }

  function Destroyed(s: State): State {
    Notified(s.(effects := s.effects + Terminated(s.browser) + Terminated(s.child) + [DestroyRaw]))
  }

  /** `#shutdown`: `close` and `terminate` end at once, `shutdown` after a delay. */
  function ShutDown(s: State, code: Option<Code>, immediate: bool, open: set<SocketId>): State {
    if s.terminated then s
    else
      var closing :=
        if code.Some? then s.effects + Closed(s.browser, open, code.value) + Closed(s.child, open, code.value)
        else s.effects;
      var ended := s.(terminated := true, effects := closing);
      if immediate then Destroyed(ended) else ended.(timers := s.timers + 1)
  }

  /** `bind`: false where both sockets are refused. */
  function Bound(s: State, browser: SocketId, child: SocketId): (State, bool) {
    if s.terminated || s.child != Some(child) then (s.(effects := s.effects + [Terminate(browser), Terminate(child)]),
        false)
    else (s.(browser := Some(browser), child := Some(child)), true)
  }

  function Attached(s: State, child: SocketId): (State, bool) {
    if s.child.Some? || s.terminated then (s.(effects := s.effects + [Terminate(child)]), false)
    else (s.(child := Some(child)), true)
  }

  /** `setOnClosed`: false where it throws. */
  function CallbackSet(s: State): (State, bool) {
    if s.callback then (s, false)
    else
      var with := s.(callback := true);
      (if s.terminated then Notified(with) else with, true)
  }

  function TimerFired(s: State): State {
    if s.timers == 0 then s else Destroyed(s.(timers := s.timers - 1))
  }

  class BrowserWebSocketOwner {
    var browser: Option<SocketId>
    var child: Option<SocketId>
    var terminated: bool
    var notified: bool
    var callback: bool
    var timers: nat
    var effects: seq<Effect>

    function View(): State
      reads this
    {
      State(browser, child, terminated, notified, callback, timers, effects)
    }

    constructor ()
      ensures View() == INITIAL
    {
      browser, child, terminated, notified, callback, timers, effects := None, None, false, false, false, 0, [];
    }

    method Notify()
      modifies this
      ensures View() == Notified(old(View()))
    {
      if !notified && callback {
        notified := true;
        effects := effects + [NotifyClosed];
      }
    }

    method Destroy()
      modifies this
      ensures View() == Destroyed(old(View()))
    {
      if browser.Some? {
        effects := effects + [Terminate(browser.value)];
      }
      if child.Some? {
        effects := effects + [Terminate(child.value)];
      }
      effects := effects + [DestroyRaw];
      assert effects == old(effects) + Terminated(browser) + Terminated(child) + [DestroyRaw];
      Notify();
    }

    method Shutdown(code: Option<Code>, immediate: bool, open: set<SocketId>)
      modifies this
      ensures View() == ShutDown(old(View()), code, immediate, open)
    {
      if terminated {
        return;
      }
      terminated := true;
      if code.Some? {
        if browser.Some? && browser.value in open {
          effects := effects + [Close(browser.value, code.value)];
        }
        if child.Some? && child.value in open {
          effects := effects + [Close(child.value, code.value)];
        }
        assert effects == old(effects) + Closed(browser, open, code.value) + Closed(child, open, code.value);
      }
      if immediate {
        Destroy();
      } else {
        timers := timers + 1;
      }
    }

    method Bind(browser: SocketId, child: SocketId) returns (ok: bool)
      modifies this
      ensures (View(), ok) == Bound(old(View()), browser, child)
    {
      if terminated || this.child != Some(child) {
        effects := effects + [Terminate(browser), Terminate(child)];
        return false;
      }
      this.browser := Some(browser);
      this.child := Some(child);
      return true;
    }

    method AttachChild(child: SocketId) returns (ok: bool)
      modifies this
      ensures (View(), ok) == Attached(old(View()), child)
    {
      if this.child.Some? || terminated {
        effects := effects + [Terminate(child)];
        return false;
      }
      this.child := Some(child);
      return true;
    }

    method SetOnClosed() returns (ok: bool)
      modifies this
      ensures (View(), ok) == CallbackSet(old(View()))
    {
      if callback {
        return false;
      }
      callback := true;
      if terminated {
        Notify();
      }
      return true;
    }

    method FireTimer()
      modifies this
      ensures View() == TimerFired(old(View()))
    {
      if timers > 0 {
        timers := timers - 1;
        Destroy();
      }
    }
  }

  // Runs.

  datatype Event =
    | BindPair(browser: SocketId, child: SocketId)
    | Attach(child: SocketId)
    | SetCallback
    | End(code: Option<Code>, immediate: bool, open: set<SocketId>)
    | Timer

  function Apply(s: State, e: Event): State {
    match e
    case BindPair(browser, child) => Bound(s, browser, child).0
    case Attach(child) => Attached(s, child).0
    case SetCallback => CallbackSet(s).0
    case End(code, immediate, open) => ShutDown(s, code, immediate, open)
    case Timer => TimerFired(s)
  }

  function Run(s: State, events: seq<Event>): State
    decreases |events|
  {
    if events == [] then s else Run(Apply(s, events[0]), events[1..])
  }

  function Times(effects: seq<Effect>, e: Effect): nat {
    multiset(effects)[e]
  }

  predicate Kept(s: State) {
    && Times(s.effects, NotifyClosed) == (if s.notified then 1 else 0)
    && Times(s.effects, DestroyRaw) + s.timers == (if s.terminated then 1 else 0)
    && (s.notified ==> s.terminated && s.callback)
    && (s.terminated && s.callback ==> s.notified || s.timers > 0)
  }

  lemma TimesAppend(a: seq<Effect>, b: seq<Effect>, e: Effect)
    ensures Times(a + b, e) == Times(a, e) + Times(b, e)
  {
  }

  lemma DestroyedKeeps(s: State)
    requires Times(s.effects, NotifyClosed) == (if s.notified then 1 else 0)
    requires Times(s.effects, DestroyRaw) + s.timers == 0 && s.terminated && (s.notified ==> s.callback)
    ensures Kept(Destroyed(s)) && Times(Destroyed(s).effects, DestroyRaw) == 1
  {
    var ended := s.effects + Terminated(s.browser) + Terminated(s.child) + [DestroyRaw];
    TimesAppend(s.effects, Terminated(s.browser), NotifyClosed);
    TimesAppend(s.effects, Terminated(s.browser), DestroyRaw);
    TimesAppend(s.effects + Terminated(s.browser), Terminated(s.child), NotifyClosed);
    TimesAppend(s.effects + Terminated(s.browser), Terminated(s.child), DestroyRaw);
    TimesAppend(s.effects + Terminated(s.browser) + Terminated(s.child), [DestroyRaw], NotifyClosed);
    TimesAppend(s.effects + Terminated(s.browser) + Terminated(s.child), [DestroyRaw], DestroyRaw);
    TimesAppend(ended, [NotifyClosed], NotifyClosed);
    TimesAppend(ended, [NotifyClosed], DestroyRaw);
  }

  lemma ApplyKeeps(s: State, e: Event)
    requires Kept(s)
    ensures Kept(Apply(s, e))
  {
    hide Times, Destroyed, Terminated, Closed;
    NoEnds();
    match e
    case BindPair(browser, child) =>
      TimesAppend(s.effects, [Terminate(browser), Terminate(child)], NotifyClosed);
      TimesAppend(s.effects, [Terminate(browser), Terminate(child)], DestroyRaw);
    case Attach(child) =>
      TimesAppend(s.effects, [Terminate(child)], NotifyClosed);
      TimesAppend(s.effects, [Terminate(child)], DestroyRaw);
    case SetCallback =>
      TimesAppend(s.effects, [NotifyClosed], NotifyClosed);
      TimesAppend(s.effects, [NotifyClosed], DestroyRaw);
    case End(code, immediate, open) =>
      if !s.terminated {
        var closing := if code.Some? then s.effects + Closed(s.browser, open, code.value)
            + Closed(s.child, open, code.value) else s.effects;
        if code.Some? {
          ClosesOnly(s.effects, s.browser, s.child, open, code.value);
        }
        if immediate {
          DestroyedKeeps(s.(terminated := true, effects := closing));
        }
      }
    case Timer =>
      if s.timers > 0 {
        DestroyedKeeps(s.(timers := s.timers - 1));
      }
  }

  /** None of the single effects but the last two is an end. */
  lemma NoEnds()
    ensures forall x :: Times([Terminate(x)], NotifyClosed) == 0 && Times([Terminate(x)], DestroyRaw) == 0
    ensures forall x, y ::
              Times([Terminate(x), Terminate(y)], NotifyClosed) == 0
                  && Times([Terminate(x), Terminate(y)], DestroyRaw) == 0
    ensures Times([NotifyClosed], NotifyClosed) == 1 && Times([NotifyClosed], DestroyRaw) == 0
  {
  }

  lemma ClosesOnly(effects: seq<Effect>, browser: Option<SocketId>, child: Option<SocketId>, open: set<SocketId>,
      code: Code)
    ensures var closing := effects + Closed(browser, open, code) + Closed(child, open, code);
            Times(closing, NotifyClosed) == Times(effects, NotifyClosed)
                && Times(closing, DestroyRaw) == Times(effects, DestroyRaw)
  {
    TimesAppend(effects, Closed(browser, open, code), NotifyClosed);
    TimesAppend(effects, Closed(browser, open, code), DestroyRaw);
    TimesAppend(effects + Closed(browser, open, code), Closed(child, open, code), NotifyClosed);
    TimesAppend(effects + Closed(browser, open, code), Closed(child, open, code), DestroyRaw);
  }

  lemma {:induction false} RunKeeps(s: State, events: seq<Event>)
    requires Kept(s)
    ensures Kept(Run(s, events))
    decreases |events|
  {
    hide Kept, Apply;
    if events != [] {
      ApplyKeeps(s, events[0]);
      RunKeeps(Apply(s, events[0]), events[1..]);
    }
  }

  /**
   In every run: the raw socket is destroyed at most once, and the release callback runs at
   most once, only after the end has begun; once the end has begun, a callback that is set
   has run or will when the one pending timer fires.
   */
  lemma EndsOnce(events: seq<Event>)
    ensures var s := Run(INITIAL, events);
            && Times(s.effects, DestroyRaw) <= 1 && Times(s.effects, NotifyClosed) <= 1
            && (Times(s.effects, NotifyClosed) == 1 ==> s.terminated)
            && (s.terminated && s.callback ==>
                  && Times(TimerFired(s).effects, NotifyClosed) == 1
                  && Times(TimerFired(s).effects, DestroyRaw) == 1)
  {
    RunKeeps(INITIAL, events);
    ApplyKeeps(Run(INITIAL, events), Timer);
  }
}

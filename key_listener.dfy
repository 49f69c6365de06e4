/** The key-repeat debouncer of src/key-listener.ts: a set of held keys and two ordered
    handler lists. Handlers are opaque; calling one is recorded as a Call at the end
    of a trace. */
module KeyListener {

  /** A handler function, compared by identity as `handler !== h` compares it. */
  datatype Handler = Handler(id: nat)

  /** One handler invocation, with the key of the event it received. */
  datatype Call = Call(handler: Handler, key: string)

  /** The two handler lists. */
  datatype Side = Down | Up

  /** The closure an add function returns: the list it filters and the handler it captured. */
  datatype Unsubscriber = Unsubscriber(side: Side, handler: Handler)

  /** The closure's state: `pressedKeys`, `handlers.down`, `handlers.up`, the calls made
      so far, and whether the window listeners are still attached. */
  datatype ListenerState = ListenerState(
    pressed: set<string>,
    down: seq<Handler>,
    up: seq<Handler>,
    calls: seq<Call>,
    listening: bool)

  /** createKeyListener attaches both window listeners and starts with nothing held
      and no handlers. */
  const Created := ListenerState({}, [], [], [], true)

  /** The calls a forEach over `hs` makes for an event with `key`. */
  function Dispatched(hs: seq<Handler>, key: string): (r: seq<Call>)
    ensures |r| == |hs|
    ensures forall i | 0 <= i < |hs| :: r[i] == Call(hs[i], key)
    decreases |hs|
  {
    if hs == [] then [] else [Call(hs[0], key)] + Dispatched(hs[1..], key)
  }

  lemma DispatchedSnoc(hs: seq<Handler>, h: Handler, key: string)
    ensures Dispatched(hs + [h], key) == Dispatched(hs, key) + [Call(h, key)]
  {
    var a, b := Dispatched(hs + [h], key), Dispatched(hs, key) + [Call(h, key)];
    assert |a| == |b|;
    forall i | 0 <= i < |a|
      ensures a[i] == b[i]
    {
      if i < |hs| {
        assert (hs + [h])[i] == hs[i];
      }
    }
  }

  /** A keydown event: swallowed while the key is held, otherwise the key is marked
      held and every down handler is called once, in registration order. */
  function KeyDownStep(s: ListenerState, key: string): ListenerState
  {
    if !s.listening || key in s.pressed then s
    else s.(pressed := s.pressed + {key}, calls := s.calls + Dispatched(s.down, key))
  }

  /** A keyup event: the key is no longer held and every up handler is called once. */
  function KeyUpStep(s: ListenerState, key: string): ListenerState
  {
    if !s.listening then s
    else s.(pressed := s.pressed - {key}, calls := s.calls + Dispatched(s.up, key))
  }

  /** addKeyDownHandler / addKeyUpHandler: push onto one list. */
  function AddHandlerStep(s: ListenerState, side: Side, h: Handler): ListenerState
  {
    match side
    case Down => s.(down := s.down + [h])
    case Up => s.(up := s.up + [h])
  }

  /** `hs.filter(handler => handler !== h)`. */
  function Without(hs: seq<Handler>, h: Handler): (r: seq<Handler>)
    ensures h !in r
    ensures forall x | x != h :: multiset(r)[x] == multiset(hs)[x]
    ensures h !in hs ==> r == hs
    decreases |hs|
  {
    if hs == [] then []
    else
      assert hs == [hs[0]] + hs[1..];
      (if hs[0] == h then [] else [hs[0]]) + Without(hs[1..], h)
  }

  /** Filtering keeps the order of what remains. */
  lemma {:induction false} WithoutConcat(a: seq<Handler>, b: seq<Handler>, h: Handler)
    ensures Without(a + b, h) == Without(a, h) + Without(b, h)
    decreases |a|
  {
    if a == [] {
      assert a + b == b;
    } else {
      assert (a + b)[0] == a[0];
      assert (a + b)[1..] == a[1..] + b;
      WithoutConcat(a[1..], b, h);
    }
  }

  /** What the unsubscribe closure returns; it assigns the copy nowhere. */
  function UnsubscribeResult(s: ListenerState, u: Unsubscriber): seq<Handler>
  {
    Without(if u.side == Down then s.down else s.up, u.handler)
  }

  // ---------------------------------------------------------------------------
  // Properties

  /** A repeated keydown while the key is held calls nothing and changes nothing. */
  lemma RepeatIsSwallowed(s: ListenerState, key: string)
    requires key in s.pressed
    ensures KeyDownStep(s, key) == s
  {
  }

  /** The first keydown of a key calls exactly the down handlers, once each, in order,
      and marks the key held; the lists stay as they were. */
  lemma FirstKeyDownCallsDownHandlers(s: ListenerState, key: string)
    requires s.listening && key !in s.pressed
    ensures var r := KeyDownStep(s, key);
      && r.pressed == s.pressed + {key}
      && |r.calls| == |s.calls| + |s.down|
      && r.calls[..|s.calls|] == s.calls
      && (forall i | 0 <= i < |s.down| :: r.calls[|s.calls| + i] == Call(s.down[i], key))
      && r.down == s.down && r.up == s.up
  {
  }

  /** A keyup calls exactly the up handlers, once each, in order, and the key is no
      longer held, whether or not it was. */
  lemma KeyUpCallsUpHandlers(s: ListenerState, key: string)
    requires s.listening
    ensures var r := KeyUpStep(s, key);
      && r.pressed == s.pressed - {key}
      && |r.calls| == |s.calls| + |s.up|
      && r.calls[..|s.calls|] == s.calls
      && (forall i | 0 <= i < |s.up| :: r.calls[|s.calls| + i] == Call(s.up[i], key))
      && r.down == s.down && r.up == s.up
  {
  }

  /** down, down, up, down on one key: one dispatch to the down handlers per press and
      one to the up handlers per release; the repeat is swallowed. */
  lemma PressRepeatReleasePress(s: ListenerState, key: string)
    requires s.listening && key !in s.pressed
    ensures var r := KeyDownStep(KeyUpStep(KeyDownStep(KeyDownStep(s, key), key), key), key);
      && r.calls == s.calls + Dispatched(s.down, key) + Dispatched(s.up, key) + Dispatched(s.down, key)
      && key in r.pressed
  {
  }

  /** With one handler on each list, that trace makes exactly two down calls and one up call. */
  lemma PressRepeatReleasePressExample(d: Handler, u: Handler, key: string)
    ensures var s := Created.(down := [d], up := [u]);
      var r := KeyDownStep(KeyUpStep(KeyDownStep(KeyDownStep(s, key), key), key), key);
      r.calls == [Call(d, key), Call(u, key), Call(d, key)]
  {
    PressRepeatReleasePress(Created.(down := [d], up := [u]), key);
  }

  /** Adding a handler appends it to its own list only. */
  lemma AddHandlerAppends(s: ListenerState, side: Side, h: Handler)
    ensures var r := AddHandlerStep(s, side, h);
      && r.pressed == s.pressed && r.calls == s.calls && r.listening == s.listening
      && (side == Down ==> r.down == s.down + [h] && r.up == s.up)
      && (side == Up ==> r.up == s.up + [h] && r.down == s.down)
  {
  }

  // ---------------------------------------------------------------------------
  // Unsubscribing

  /** As written, unsubscribing a down handler changes nothing, so the next fresh
      keydown still calls it. */
  lemma HandlerStillCalledAfterUnsubscribe(s: ListenerState, h: Handler, key: string)
    requires s.listening && key !in s.pressed
    ensures var s1 := AddHandlerStep(s, Down, h);
      && h !in UnsubscribeResult(s1, Unsubscriber(Down, h))
      && Call(h, key) in KeyDownStep(s1, key).calls[|s1.calls|..]
  {
    var s1 := AddHandlerStep(s, Down, h);
    var r := KeyDownStep(s1, key);
    assert r.calls[|s1.calls| + |s.down|] == Call(h, key);
    assert r.calls[|s1.calls|..][|s.down|] == Call(h, key);
  }

  /** Unsubscribing that removes the handler from its list: the filtered copy
      replaces the list. */
  function UnsubscribeStep(s: ListenerState, u: Unsubscriber): (r: ListenerState)
    ensures u.handler !in (if u.side == Down then r.down else r.up)
    ensures r.pressed == s.pressed && r.calls == s.calls && r.listening == s.listening
    ensures u.side == Down ==> r.up == s.up
    ensures u.side == Up ==> r.down == s.down
    ensures u.side == Down ==> r.down == Without(s.down, u.handler)
    ensures u.side == Up ==> r.up == Without(s.up, u.handler)
  {
    match u.side
    case Down => s.(down := Without(s.down, u.handler))
    case Up => s.(up := Without(s.up, u.handler))
  }

  /** The intended unsubscribe is safe to call any number of times. */
  lemma UnsubscribeIdempotent(s: ListenerState, u: Unsubscriber)
    ensures UnsubscribeStep(UnsubscribeStep(s, u), u) == UnsubscribeStep(s, u)
  {
  }

  /** After the intended unsubscribe, no keydown or keyup calls the handler from that list. */
  lemma UnsubscribedHandlerNotCalled(s: ListenerState, h: Handler, key: string)
    ensures var r := UnsubscribeStep(s, Unsubscriber(Down, h));
      forall c | c in Dispatched(r.down, key) :: c.handler != h
    ensures var r := UnsubscribeStep(s, Unsubscriber(Up, h));
      forall c | c in Dispatched(r.up, key) :: c.handler != h
  {
    var rd := UnsubscribeStep(s, Unsubscriber(Down, h));
    forall c | c in Dispatched(rd.down, key)
      ensures c.handler != h
    {
      var i :| 0 <= i < |rd.down| && Dispatched(rd.down, key)[i] == c;
      assert rd.down[i] != h;
    }
    var ru := UnsubscribeStep(s, Unsubscriber(Up, h));
    forall c | c in Dispatched(ru.up, key)
      ensures c.handler != h
    {
      var i :| 0 <= i < |ru.up| && Dispatched(ru.up, key)[i] == c;
      assert ru.up[i] != h;
    }
  }

  // ---------------------------------------------------------------------------
  // The closure state as the source keeps it

  class Listener {
    var pressed: set<string>
    var down: seq<Handler>
    var up: seq<Handler>
    var calls: seq<Call>
    var listening: bool

    function State(): ListenerState
      reads this
    {
      ListenerState(pressed, down, up, calls, listening)
    }

    /** createKeyListener. */
    constructor ()
      ensures State() == Created
    {
      pressed, down, up, calls, listening := {}, [], [], [], true;
    }

    /** keyDown, as the window delivers it while the listener is attached. */
    method KeyDown(key: string)
      modifies this
      ensures State() == KeyDownStep(old(State()), key)
    {
      if !listening || key in pressed {
        return;
      }
      pressed := pressed + {key};
      var i := 0;
      while i < |down|
        invariant 0 <= i <= |down|
        invariant pressed == old(pressed) + {key}
        invariant down == old(down) && up == old(up) && listening == old(listening)
        invariant calls == old(calls) + Dispatched(down[..i], key)
      {
        DispatchedSnoc(down[..i], down[i], key);
        assert down[..i + 1] == down[..i] + [down[i]];
        calls := calls + [Call(down[i], key)];
        i := i + 1;
      }
      assert down[..i] == down;
    }

    /** keyUp, as the window delivers it while the listener is attached. */
    method KeyUp(key: string)
      modifies this
      ensures State() == KeyUpStep(old(State()), key)
    {
      if !listening {
        return;
      }
      pressed := pressed - {key};
      var i := 0;
      while i < |up|
        invariant 0 <= i <= |up|
        invariant pressed == old(pressed) - {key}
        invariant down == old(down) && up == old(up) && listening == old(listening)
        invariant calls == old(calls) + Dispatched(up[..i], key)
      {
        DispatchedSnoc(up[..i], up[i], key);
        assert up[..i + 1] == up[..i] + [up[i]];
        calls := calls + [Call(up[i], key)];
        i := i + 1;
      }
      assert up[..i] == up;
    }

    method AddKeyDownHandler(h: Handler) returns (u: Unsubscriber)
      modifies this
      ensures State() == AddHandlerStep(old(State()), Down, h)
      ensures u == Unsubscriber(Down, h)
    {
      down := down + [h];
      u := Unsubscriber(Down, h);
    }

    method AddKeyUpHandler(h: Handler) returns (u: Unsubscriber)
      modifies this
      ensures State() == AddHandlerStep(old(State()), Up, h)
      ensures u == Unsubscriber(Up, h)
    {
      up := up + [h];
      u := Unsubscriber(Up, h);
    }

    /** Calling an unsubscribe closure: it returns the filtered copy of its list and
      changes nothing, however often it is called. */
    method Unsubscribe(u: Unsubscriber) returns (remaining: seq<Handler>)
      ensures u.handler !in remaining
      ensures remaining == Without(if u.side == Down then down else up, u.handler)
    {
      remaining := if u.side == Down then Without(down, u.handler) else Without(up, u.handler);
    }

    /** destroy: detach both window listeners. */
    method Destroy()
      modifies this
      ensures State() == old(State()).(listening := false)
    {
      listening := false;
    }
  }
}

/** The listener table behind TypedEventEmitter: listeners per event name in calling order.
    Names without listeners are not in the table, so its keys are the event names. */
module EventEmitter {

  /** A registration of function number `fn`; a `once` listener is taken off before its first call. */
  datatype Listener = Listener(fn: nat, once: bool)

  type Table = map<string, seq<Listener>>

  /** What `emit` does: the functions it calls, in order, or the exception for an unheard "error". */
  datatype Emitted = Called(fns: seq<nat>) | Threw

  const ERROR_EVENT := "error"

  function ListenersOf(t: Table, event: string): seq<Listener> {
    if event in t then t[event] else []
  }

  function SetListeners(t: Table, event: string, ls: seq<Listener>): Table {
    if ls == [] then t - {event} else t[event := ls]
  }

  function Append(t: Table, event: string, l: Listener): Table {
    SetListeners(t, event, ListenersOf(t, event) + [l])
  }

  function Prepend(t: Table, event: string, l: Listener): Table {
    SetListeners(t, event, [l] + ListenersOf(t, event))
  }

  /** The listeners that stay after a call. */
  function Persisting(ls: seq<Listener>): seq<Listener> {
    if ls == [] then []
    else Persisting(ls[..|ls| - 1]) + if ls[|ls| - 1].once then [] else [ls[|ls| - 1]]
  }

  function Functions(ls: seq<Listener>): (fns: seq<nat>)
    ensures |fns| == |ls|
  {
    seq(|ls|, i requires 0 <= i < |ls| => ls[i].fn)
  }

  function Emit(t: Table, event: string): Emitted {
    if ListenersOf(t, event) == [] && event == ERROR_EVENT then Threw else Called(Functions(ListenersOf(t, event)))
  }

  function AfterEmit(t: Table, event: string): Table {
    SetListeners(t, event, Persisting(ListenersOf(t, event)))
  }

  /** The listeners without the one of `fn` that was added last. */
  function WithoutLast(ls: seq<Listener>, fn: nat): seq<Listener> {
    if ls == [] then []
    else if ls[|ls| - 1].fn == fn then ls[..|ls| - 1]
    else WithoutLast(ls[..|ls| - 1], fn) + [ls[|ls| - 1]]
  }

  ghost predicate WellFormed(t: Table) {
    forall event :: event in t ==> t[event] != []
  }

  /** After an emit no once-listener is left, so each is called by at most one emit,
      while the others keep their order. */
  lemma {:induction false} PersistingOnly(ls: seq<Listener>)
    ensures forall l :: l in Persisting(ls) <==> l in ls && !l.once
    ensures Persisting(Persisting(ls)) == Persisting(ls)
  {
    if ls != [] {
      var front, last := ls[..|ls| - 1], ls[|ls| - 1];
      PersistingOnly(front);
      assert ls == front + [last];
      if last.once {
        assert Persisting(ls) == Persisting(front);
      } else {
        assert (Persisting(front) + [last])[..|Persisting(front)|] == Persisting(front);
      }
    }
  }

  /** Setting the listeners of an event twice leaves the second setting; setting the ones it has changes nothing. */
  lemma SetTwice(t: Table, event: string, a: seq<Listener>, b: seq<Listener>)
    ensures SetListeners(SetListeners(t, event, a), event, b) == SetListeners(t, event, b)
    ensures WellFormed(t) ==> SetListeners(t, event, ListenersOf(t, event)) == t
    ensures WellFormed(t) ==> WellFormed(SetListeners(t, event, a)) && WellFormed(SetListeners(t, event, b))
  {
  }

  /** A listener added at the end is called last, one added at the front first; the others keep their turn. */
  lemma AddedIsCalled(t: Table, event: string, l: Listener)
    ensures Emit(Append(t, event, l), event) == Called(Functions(ListenersOf(t, event)) + [l.fn])
    ensures Emit(Prepend(t, event, l), event) == Called([l.fn] + Functions(ListenersOf(t, event)))
    ensures forall other :: other != event ==>
              Emit(Append(t, event, l), other) == Emit(t, other) == Emit(Prepend(t, event, l), other)
  {
    var ls := ListenersOf(t, event);
    assert ls + [l] != [] && [l] + ls != [];
    assert Functions(ls + [l]) == Functions(ls) + [l.fn];
    assert Functions([l] + ls) == [l.fn] + Functions(ls);
  }

  /** Removing a function takes out its last registration and leaves all before and behind it. */
  lemma {:induction false} WithoutLastIs(ls: seq<Listener>, fn: nat) returns (i: nat)
    ensures i <= |ls| && forall j :: i < j < |ls| ==> ls[j].fn != fn
    ensures if i < |ls| then ls[i].fn == fn && WithoutLast(ls, fn) == ls[..i] + ls[i + 1..]
            else (forall j :: 0 <= j < |ls| ==> ls[j].fn != fn) && WithoutLast(ls, fn) == ls
  {
    if ls == [] {
      i := 0;
    } else {
      var n := |ls| - 1;
      if ls[n].fn == fn {
        i := n;
      } else {
        i := WithoutLastIs(ls[..n], fn);
        if i == n {
          i := n + 1;
          assert ls == ls[..n] + [ls[n]];
        } else {
          assert ls[..n][..i] + ls[..n][i + 1..] + [ls[n]] == ls[..i] + ls[i + 1..];
        }
      }
    }
  }

  lemma PersistingStep(ls: seq<Listener>, i: nat)
    requires i < |ls|
    ensures ls[i].once ==> Persisting(ls[..i + 1]) + ls[i + 1..] == Persisting(ls[..i]) + ls[i + 1..]
    ensures !ls[i].once ==> Persisting(ls[..i + 1]) + ls[i + 1..] == Persisting(ls[..i]) + ls[i..]
    ensures Functions(ls[..i + 1]) == Functions(ls[..i]) + [ls[i].fn]
  {
    assert ls[..i + 1][..i] == ls[..i];
    if ls[i].once {
      assert Persisting(ls[..i + 1]) == Persisting(ls[..i]);
    }
  }

  /** What the call of one listener does to the table in the middle of an emit. */
  lemma EmitStep(before: Table, event: string, ls: seq<Listener>, i: nat)
    requires WellFormed(before) && i < |ls|
    ensures var p := Persisting(ls[..i]); var now := p + ls[i..];
            var then' := if ls[i].once then now[..|p|] + now[|p| + 1..] else now;
            && ListenersOf(SetListeners(before, event, now), event) == now && now[|p|] == ls[i]
            && SetListeners(SetListeners(before, event, now), event, then') == SetListeners(before, event, then')
            && then' == Persisting(ls[..i + 1]) + ls[i + 1..]
            && |Persisting(ls[..i + 1])| == |p| + (if ls[i].once then 0 else 1)
            && Functions(ls[..i + 1]) == Functions(ls[..i]) + [ls[i].fn]
  {
    PersistingStep(ls, i);
    var p := Persisting(ls[..i]);
    var now := p + ls[i..];
    assert now[..|p|] + now[|p| + 1..] == p + ls[i + 1..];
    SetTwice(before, event, now, p + ls[i + 1..]);
    SetTwice(before, event, now, now);
  }

  lemma WithoutLastStep(ls: seq<Listener>, i: nat, fn: nat)
    requires 0 < i <= |ls|
    ensures ls[i - 1].fn == fn ==> WithoutLast(ls[..i], fn) == ls[..i - 1]
    ensures ls[i - 1].fn != fn ==> WithoutLast(ls[..i], fn) + ls[i..] == WithoutLast(ls[..i - 1], fn) + ls[i - 1..]
  {
    assert ls[..i][..i - 1] == ls[..i - 1];
  }

  class TypedEventEmitter {
    var table: Table

    ghost predicate Valid()
      reads this
    {
      WellFormed(table)
    }

    constructor ()
      ensures Valid() && table == map[]
    {
      table := map[];
    }

    method Put(event: string, ls: seq<Listener>)
      requires Valid()
      modifies this
      ensures Valid() && table == SetListeners(old(table), event, ls)
    {
      if ls == [] {
        table := table - {event};
      } else {
        table := table[event := ls];
      }
    }

    method On(event: string, fn: nat)
      requires Valid()
      modifies this
      ensures Valid() && table == Append(old(table), event, Listener(fn, false))
    {
      Put(event, ListenersOf(table, event) + [Listener(fn, false)]);
    }

    method Once(event: string, fn: nat)
      requires Valid()
      modifies this
      ensures Valid() && table == Append(old(table), event, Listener(fn, true))
    {
      Put(event, ListenersOf(table, event) + [Listener(fn, true)]);
    }

    method PrependListener(event: string, fn: nat, once: bool)
      requires Valid()
      modifies this
      ensures Valid() && table == Prepend(old(table), event, Listener(fn, once))
    {
      Put(event, [Listener(fn, once)] + ListenersOf(table, event));
    }

    /** Removes the registration of `fn` that was added last, if there is one. */
    method RemoveListener(event: string, fn: nat)
      requires Valid()
      modifies this
      ensures Valid() && table == SetListeners(old(table), event, WithoutLast(ListenersOf(old(table), event), fn))
    {
      var ls := ListenersOf(table, event);
      var i := |ls|;
      assert ls[..i] == ls && WithoutLast(ls, fn) + ls[i..] == WithoutLast(ls, fn);
      while i > 0 && ls[i - 1].fn != fn
        invariant 0 <= i <= |ls|
        invariant WithoutLast(ls, fn) == WithoutLast(ls[..i], fn) + ls[i..]
        invariant table == old(table)
      {
        WithoutLastStep(ls, i, fn);
        i := i - 1;
      }
      if i > 0 {
        WithoutLastStep(ls, i, fn);
        Put(event, ls[..i - 1] + ls[i..]);
      } else {
        assert WithoutLast(ls[..0], fn) + ls[0..] == ls;
        SetTwice(table, event, ls, ls);
      }
    }

    method RemoveAllListeners(event: string)
      requires Valid()
      modifies this
      ensures Valid() && table == SetListeners(old(table), event, [])
    {
      table := table - {event};
    }

    method RemoveEverything()
      modifies this
      ensures Valid() && table == map[]
    {
      table := map[];
    }

    method ListenerCount(event: string) returns (n: nat)
      ensures n == |ListenersOf(table, event)|
    {
      n := if event in table then |table[event]| else 0;
    }

    method EventNameCount() returns (n: nat)
      ensures n == |table.Keys|
    {
      n := |table|;
    }

    /** Takes off the listener at position `k`. */
    method RemoveAt(event: string, k: nat)
      requires Valid() && k < |ListenersOf(table, event)|
      modifies this
      ensures Valid()
      ensures table == SetListeners(old(table), event,
                                    ListenersOf(old(table), event)[..k] + ListenersOf(old(table), event)[k + 1..])
    {
      var ls := ListenersOf(table, event);
      Put(event, ls[..k] + ls[k + 1..]);
    }

    /** A once-listener is removed before it runs; `k` is its place. */
    method CallOne(event: string, k: nat) returns (fn: nat, next: nat)
      requires Valid() && k < |ListenersOf(table, event)|
      modifies this
      ensures Valid()
      ensures var ls := ListenersOf(old(table), event);
              && fn == ls[k].fn && next == (if ls[k].once then k else k + 1)
              && table == SetListeners(old(table), event, if ls[k].once then ls[..k] + ls[k + 1..] else ls)
    {
      var ls := ListenersOf(table, event);
      SetTwice(table, event, ls, ls);
      fn, next := ls[k].fn, k + 1;
      if ls[k].once {
        next := k;
        RemoveAt(event, k);
      }
    }

    /** Calls in order the listeners `ls` that are registered now. */
    method CallAll(event: string, ls: seq<Listener>) returns (fns: seq<nat>)
      requires Valid() && ListenersOf(table, event) == ls
      modifies this
      ensures Valid() && fns == Functions(ls) && table == SetListeners(old(table), event, Persisting(ls))
    {
      fns := [];
      var k, i := 0, 0;
      SetTwice(table, event, ls, ls);
      assert Persisting(ls[..0]) + ls[0..] == ls;
      while i < |ls|
        invariant 0 <= i <= |ls| && k == |Persisting(ls[..i])| && fns == Functions(ls[..i])
        invariant Valid() && table == SetListeners(old(table), event, Persisting(ls[..i]) + ls[i..])
      {
        EmitStep(old(table), event, ls, i);
        var fn;
        fn, k := CallOne(event, k);
        fns := fns + [fn];
        i := i + 1;
      }
      assert ls[..i] == ls && Persisting(ls) + ls[i..] == Persisting(ls);
    }

    /** Calls the listeners registered at the time of the call, in order; a once-listener is removed before it runs. */
    method EmitEvent(event: string) returns (r: Emitted)
      requires Valid()
      modifies this
      ensures Valid()
      ensures r == Emit(old(table), event)
      ensures table == if r.Threw? then old(table) else AfterEmit(old(table), event)
    {
      var ls := ListenersOf(table, event);
      if ls == [] && event == ERROR_EVENT {
        return Threw;
      }
      var fns := CallAll(event, ls);
      r := Called(fns);
    }
  }
}

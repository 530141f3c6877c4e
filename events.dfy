/** The storefront's event bus: a registry of listeners per event name.
    `on` appends a listener and hands back a way to remove it, `off` removes
    the first registration of a listener, `once` registers a wrapper that
    removes itself before it calls the listener, and `emit` calls the
    listeners registered when it starts, in registration order. */
module EventBus {
  import opened Seqs

  /** A registered function. Plain listeners are known by an identity; a
      `once` wrapper is a fresh function around its target. */
  datatype Listener = Fn(id: nat) | Once(serial: nat, target: nat)

  /** What `on` returns: calling it is `off(event, listener)`. */
  datatype Subscription = Subscription(event: string, listener: Listener)

  function Target(l: Listener): nat
  {
    if l.Fn? then l.id else l.target
  }

  predicate IsPlain(l: Listener)
  {
    l.Fn?
  }

  /** The listener functions a list calls, in order. */
  function Targets(ls: seq<Listener>): seq<nat>
  {
    if ls == [] then [] else Targets(ls[..|ls| - 1]) + [Target(ls[|ls| - 1])]
  }

  /** One call per registration, in registration order. */
  lemma {:induction false} TargetsMeans(ls: seq<Listener>)
    ensures |Targets(ls)| == |ls|
    ensures forall i :: 0 <= i < |ls| ==> Targets(ls)[i] == Target(ls[i])
  {
    if ls != [] {
      TargetsMeans(ls[..|ls| - 1]);
    }
  }

  /** `list.indexOf(fn)` and `splice(idx, 1)`: the list without the first
      registration of `x`, or unchanged when there is none. */
  function RemoveFirst(s: seq<Listener>, x: Listener): seq<Listener>
  {
    if s == [] then []
    else if s[0] == x then s[1..]
    else [s[0]] + RemoveFirst(s[1..], x)
  }

  /** off() of a listener that is not registered changes nothing; otherwise
      exactly one registration goes. */
  lemma {:induction false} RemoveFirstMeans(s: seq<Listener>, x: Listener)
    ensures x !in s ==> RemoveFirst(s, x) == s
    ensures |RemoveFirst(s, x)| == if x in s then |s| - 1 else |s|
  {
    if s != [] && s[0] != x {
      RemoveFirstMeans(s[1..], x);
      assert x in s <==> x in s[1..];
      assert s == [s[0]] + s[1..];
    }
  }

  /** The registration removed is the first one: what comes before it stays,
      what comes after it stays. */
  lemma {:induction false} RemoveFirstAt(k: seq<Listener>, x: Listener, rest: seq<Listener>)
    requires x !in k
    ensures RemoveFirst(k + [x] + rest, x) == k + rest
  {
    if k == [] {
      assert k + [x] + rest == [x] + rest;
    } else {
      RemoveFirstAt(k[1..], x, rest);
      assert (k + [x] + rest)[1..] == k[1..] + [x] + rest;
      assert k + rest == [k[0]] + (k[1..] + rest);
    }
  }

  /** The subscription `on` returns undoes it when the listener was not
      registered before; otherwise it removes the earlier registration and
      the new one stays at the end. */
  lemma {:induction false} OnThenOff(s: seq<Listener>, x: Listener)
    ensures x !in s ==> RemoveFirst(s + [x], x) == s
    ensures x in s ==> RemoveFirst(s + [x], x) == RemoveFirst(s, x) + [x]
  {
    if x !in s {
      RemoveFirstAt(s, x, []);
      assert s + [x] + [] == s + [x];
    } else if s[0] == x {
      assert (s + [x])[1..] == s[1..] + [x];
    } else {
      OnThenOff(s[1..], x);
      assert (s + [x])[1..] == s[1..] + [x];
    }
  }

  /** Removing a wrapper that comes right after a run of plain listeners. */
  lemma RemoveAfterPlain(k: seq<Listener>, x: Listener, rest: seq<Listener>)
    requires forall i :: 0 <= i < |k| ==> IsPlain(k[i])
    requires !IsPlain(x)
    ensures RemoveFirst(k + [x] + rest, x) == k + rest
  {
    RemoveFirstAt(k, x, rest);
  }

  /** The listeners an emit leaves behind: the plain ones, in order. */
  function Survivors(s: seq<Listener>): seq<Listener>
  {
    if s == [] then []
    else Survivors(s[..|s| - 1]) + (if s[|s| - 1].Fn? then [s[|s| - 1]] else [])
  }

  /** Only plain listeners survive. */
  lemma {:induction false} SurvivorsPlain(s: seq<Listener>)
    ensures forall i :: 0 <= i < |Survivors(s)| ==> Survivors(s)[i].Fn?
  {
    if s != [] {
      SurvivorsPlain(s[..|s| - 1]);
    }
  }

  /** The survivors are the filter of the list by "is a plain listener", so
      every plain listener stays, as often as it was registered. */
  lemma {:induction false} SurvivorsAreFilter(s: seq<Listener>)
    ensures Survivors(s) == Filter(s, IsPlain)
  {
    if s != [] {
      var init := s[..|s| - 1];
      SurvivorsAreFilter(init);
      assert s == init + [s[|s| - 1]];
      FilterSnoc(init, s[|s| - 1], IsPlain);
    }
  }

  /** The listener list after emit has run the first `i` listeners of the
      snapshot it took. */
  function Pending(snapshot: seq<Listener>, i: nat): seq<Listener>
    requires i <= |snapshot|
  {
    Survivors(snapshot[..i]) + snapshot[i..]
  }

  /** The functions emit has called after running the first `i` listeners. */
  function CalledSoFar(snapshot: seq<Listener>, i: nat): seq<nat>
    requires i <= |snapshot|
  {
    Targets(snapshot[..i])
  }

  lemma EmitStart(snapshot: seq<Listener>)
    ensures Pending(snapshot, 0) == snapshot && CalledSoFar(snapshot, 0) == []
  {
    assert snapshot[..0] == [] && snapshot[0..] == snapshot;
  }

  lemma EmitEnd(snapshot: seq<Listener>)
    ensures Pending(snapshot, |snapshot|) == Survivors(snapshot)
    ensures CalledSoFar(snapshot, |snapshot|) == Targets(snapshot)
  {
    assert snapshot[..|snapshot|] == snapshot && snapshot[|snapshot|..] == [];
  }

  /** One step of emit: a plain listener leaves the list as it is; a `once`
      wrapper takes its own registration out, which is the first one, since
      only plain listeners are left before it. */
  lemma EmitStep(snapshot: seq<Listener>, i: nat)
    requires i < |snapshot|
    ensures snapshot[i].Fn? ==> Pending(snapshot, i + 1) == Pending(snapshot, i)
    ensures snapshot[i].Once? ==> Pending(snapshot, i + 1) == RemoveFirst(Pending(snapshot, i), snapshot[i])
    ensures CalledSoFar(snapshot, i + 1) == CalledSoFar(snapshot, i) + [Target(snapshot[i])]
  {
    var x := snapshot[i];
    var rest := snapshot[i + 1..];
    var kept := Survivors(snapshot[..i]);
    assert snapshot[..i + 1][..i] == snapshot[..i];
    assert Pending(snapshot, i) == kept + [x] + rest by {
      assert snapshot[i..] == [x] + rest;
    }
    if x.Once? {
      SurvivorsPlain(snapshot[..i]);
      RemoveAfterPlain(kept, x, rest);
    }
  }

  /** The registry after emit(event): the list of that event keeps only its
      plain listeners; every other event, and a missing one, is untouched. */
  function AfterEmit(events: map<string, seq<Listener>>, event: string): (r: map<string, seq<Listener>>)
    ensures r.Keys == events.Keys
    ensures forall e :: e in events && e != event ==> r[e] == events[e]
  {
    if event in events then events[event := Survivors(events[event])] else events
  }

  /** What emit(event) calls, in order. */
  function CalledBy(events: map<string, seq<Listener>>, event: string): seq<nat>
  {
    if event in events then Targets(events[event]) else []
  }

  class Bus {
    var events: map<string, seq<Listener>>
    /** The serial the next `once` wrapper gets; every wrapper is a new function. */
    var nextSerial: nat

    constructor ()
      ensures events == map[] && nextSerial == 0
    {
      events := map[];
      nextSerial := 0;
    }

    function Listeners(event: string): seq<Listener>
      reads this
    {
      if event in events then events[event] else []
    }

    /** on(event, fn) */
    method On(event: string, fn: Listener) returns (off: Subscription)
      modifies this`events
      ensures events == old(events)[event := old(Listeners(event)) + [fn]]
      ensures off == Subscription(event, fn)
    {
      var list := Listeners(event);
      events := events[event := list + [fn]];
      off := Subscription(event, fn);
    }

    /** off(event, fn): nothing when no list exists for the event or the
        listener is not in it; otherwise its first registration goes. */
    method Off(event: string, fn: Listener)
      modifies this`events
      ensures event !in old(events) ==> events == old(events)
      ensures event in old(events) ==> events == old(events)[event := RemoveFirst(old(events[event]), fn)]
    {
      if event !in events {
        return;
      }
      var list := events[event];
      events := events[event := RemoveFirst(list, fn)];
    }

    /** Calling a subscription `on` handed back. */
    method Unsubscribe(sub: Subscription)
      modifies this`events
      ensures sub.event !in old(events) ==> events == old(events)
      ensures sub.event in old(events) ==>
        events == old(events)[sub.event := RemoveFirst(old(events[sub.event]), sub.listener)]
    {
      Off(sub.event, sub.listener);
    }

    /** once(event, target): a new wrapper is registered at the end. */
    method OnceOn(event: string, target: nat) returns (wrapper: Listener)
      modifies this
      ensures wrapper == Once(old(nextSerial), target)
      ensures nextSerial == old(nextSerial) + 1
      ensures events == old(events)[event := old(Listeners(event)) + [wrapper]]
    {
      wrapper := Once(nextSerial, target);
      nextSerial := nextSerial + 1;
      var _ := On(event, wrapper);
    }

    /** emit(event): calls, in order, the listeners registered when it starts
        and returns the listener functions called. Each `once` wrapper takes
        itself off before calling its target, so afterwards exactly the plain
        listeners are left, in their order. */
    method Emit(event: string) returns (called: seq<nat>)
      modifies this`events
      ensures called == CalledBy(old(events), event)
      ensures events == AfterEmit(old(events), event)
    {
      if event !in events {
        return [];
      }
      var base := events;
      var snapshot := base[event];
      var list := snapshot;
      EmitStart(snapshot);
      called := [];
      var i := 0;
      while i < |snapshot|
        invariant 0 <= i <= |snapshot|
        invariant list == Pending(snapshot, i)
        invariant events == base[event := list]
        invariant called == CalledSoFar(snapshot, i)
      {
        var fn := snapshot[i];
        EmitStep(snapshot, i);
        if fn.Once? {
          // the wrapper's own off(): its registration is taken out first
          list := RemoveFirst(list, fn);
          UpdateTwice(base, event, events[event], list);
          events := events[event := list];
        }
        called := called + [Target(fn)];
        i := i + 1;
      }
      EmitEnd(snapshot);
    }
  }

  lemma UpdateTwice(m: map<string, seq<Listener>>, k: string, a: seq<Listener>, b: seq<Listener>)
    ensures m[k := a][k := b] == m[k := b]
  {
  }

  /** A second emit finds no `once` wrapper left and leaves the list as it is. */
  lemma {:induction false} SecondEmitKeeps(s: seq<Listener>)
    ensures Survivors(Survivors(s)) == Survivors(s)
  {
    SurvivorsAreFilter(s);
    SurvivorsAreFilter(Survivors(s));
    FilterIdempotent(s, IsPlain);
  }
}

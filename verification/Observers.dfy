/** Observer registrations: who owns them, and who is called. */
module Observers {

  datatype Entry = Entry(id: nat, observer: nat)

  /** Entries in registration order; identifiers are handed out from 1. */
  datatype Registry = Registry(entries: seq<Entry>, lastId: nat)

  const Empty := Registry([], 0)

  function Added(r: Registry, observer: nat): Registry {
    Registry(r.entries + [Entry(r.lastId + 1, observer)], r.lastId + 1)
  }

  function Kept(entries: seq<Entry>, id: nat): seq<Entry> {
    if entries == [] then []
    else Kept(entries[..|entries| - 1], id)
         + if entries[|entries| - 1].id == id then [] else [entries[|entries| - 1]]
  }

  function Removed(r: Registry, id: nat): Registry { r.(entries := Kept(r.entries, id)) }

  function Ids(entries: seq<Entry>): set<nat> { set e | e in entries :: e.id }

  predicate Inv(r: Registry) {
    && Ascending(r.entries)
    && (forall e <- r.entries :: 0 < e.id <= r.lastId)
  }

  predicate Ascending(entries: seq<Entry>) {
    forall i, j :: 0 <= i < j < |entries| ==> entries[i].id < entries[j].id
  }

  /** Removal keeps exactly the other entries, in their order. */
  lemma {:induction false} KeptIsFiltered(entries: seq<Entry>, id: nat)
    ensures forall e :: e in Kept(entries, id) <==> e in entries && e.id != id
  {
    if entries != [] {
      KeptIsFiltered(entries[..|entries| - 1], id);
      assert entries == entries[..|entries| - 1] + [entries[|entries| - 1]];
    }
  }

  lemma {:induction false} KeptAscends(entries: seq<Entry>, id: nat)
    requires Ascending(entries)
    ensures Ascending(Kept(entries, id))
  {
    if entries != [] {
      var init, last := entries[..|entries| - 1], entries[|entries| - 1];
      KeptAscends(init, id);
      KeptIsFiltered(init, id);
      var kept := Kept(init, id);
      forall k | 0 <= k < |kept| ensures kept[k].id < last.id {
        assert kept[k] in init;
      }
    }
  }

  lemma RemovedKeepsInv(r: Registry, id: nat)
    requires Inv(r)
    ensures Inv(Removed(r, id)) && Ids(Removed(r, id).entries) == Ids(r.entries) - {id}
  {
    KeptIsFiltered(r.entries, id);
    KeptAscends(r.entries, id);
    var kept := Removed(r, id).entries;
    forall x | x in Ids(r.entries) - {id} ensures x in Ids(kept) {
      var e :| e in r.entries && e.id == x;
      assert e in kept;
    }
  }

  lemma AddedKeepsInv(r: Registry, observer: nat)
    requires Inv(r)
    ensures Inv(Added(r, observer)) && Ids(Added(r, observer).entries) == Ids(r.entries) + {r.lastId + 1}
    ensures r.lastId + 1 !in Ids(r.entries)
    ensures r.entries < Added(r, observer).entries && Added(r, observer).entries[|r.entries|].observer == observer
  {
    var more := Added(r, observer).entries;
    assert more[|r.entries|] in more;
    forall x | x in Ids(r.entries) ensures x in Ids(more) {
      var e :| e in r.entries && e.id == x;
      assert e in more;
    }
  }

  // ----- ownership -----

  /** Live subscription objects by name, each with the identifier it holds (zero: none). */
  datatype World = World(registry: Registry, held: map<nat, nat>)

  datatype Step =
    | Observe(name: nat, observer: nat)   // a new subscription
    | Default(name: nat)                  // an empty one
    | MoveConstruct(name: nat, from: nat)
    | MoveAssign(name: nat, from: nat)    // possibly to itself
    | Reset(name: nat)
    | Destroy(name: nat)

  predicate Enabled(w: World, step: Step) {
    match step
    case Observe(name, _) => name !in w.held
    case Default(name) => name !in w.held
    case MoveConstruct(name, from) => name !in w.held && from in w.held
    case MoveAssign(name, from) => name in w.held && from in w.held
    case Reset(name) => name in w.held
    case Destroy(name) => name in w.held
  }

  function Released(w: World, name: nat): World
    requires name in w.held
  {
    if w.held[name] == 0 then w
    else World(Removed(w.registry, w.held[name]), w.held[name := 0])
  }

  function Apply(w: World, step: Step): World
    requires Enabled(w, step)
  {
    match step
    case Observe(name, observer) =>
      World(Added(w.registry, observer), w.held[name := w.registry.lastId + 1])
    case Default(name) => w.(held := w.held[name := 0])
    case MoveConstruct(name, from) => w.(held := w.held[name := w.held[from]][from := 0])
    case MoveAssign(name, from) =>
      if name == from then w
      else var v := Released(w, name); v.(held := v.held[name := v.held[from]][from := 0])
    case Reset(name) => Released(w, name)
    case Destroy(name) => var v := Released(w, name); v.(held := v.held - {name})
  }

  function Held(held: map<nat, nat>): set<nat> { set name | name in held && held[name] != 0 :: held[name] }

  /** The registered identifiers are exactly those held, and no two subscriptions hold the
      same one. */
  predicate Owned(w: World) {
    && Inv(w.registry)
    && Ids(w.registry.entries) == Held(w.held)
    && (forall a, b :: a in w.held && b in w.held && a != b && w.held[a] != 0 ==> w.held[a] != w.held[b])
  }

  lemma HeldHas(held: map<nat, nat>, name: nat)
    requires name in held && held[name] != 0
    ensures held[name] in Held(held)
  {}

  /** Two maps that hold `x` under some name, or neither does. */
  lemma HeldSame(a: map<nat, nat>, b: map<nat, nat>, except: nat, name: nat)
    requires forall n :: n != name ==> (n in a <==> n in b) && (n in a ==> a[n] == b[n])
    requires name in a ==> a[name] == 0 || a[name] == except
    requires name in b ==> b[name] == 0 || b[name] == except
    ensures Held(a) - {except} == Held(b) - {except}
  {
    forall x | x in Held(a) && x != except ensures x in Held(b) {
      var n :| n in a && a[n] != 0 && a[n] == x;
      HeldHas(b, n);
    }
    forall x | x in Held(b) && x != except ensures x in Held(a) {
      var n :| n in b && b[n] != 0 && b[n] == x;
      HeldHas(a, n);
    }
  }

  lemma ReleasedKeepsOwned(w: World, name: nat)
    requires Owned(w) && name in w.held
    ensures Owned(Released(w, name)) && Released(w, name).held == w.held[name := 0]
  {
    var id := w.held[name];
    if id != 0 {
      RemovedKeepsInv(w.registry, id);
      HeldSame(w.held[name := 0], w.held, id, name);
      assert id !in Held(w.held[name := 0]);
    } else {
      assert w.held[name := 0] == w.held;
    }
  }

  lemma MovedKeepsOwned(w: World, name: nat, from: nat)
    requires Owned(w) && from in w.held && name != from && (name in w.held ==> w.held[name] == 0)
    ensures Owned(w.(held := w.held[name := w.held[from]][from := 0]))
  {
    var held := w.held[name := w.held[from]][from := 0];
    forall x | x in Held(w.held) ensures x in Held(held) {
      var n :| n in w.held && w.held[n] != 0 && w.held[n] == x;
      HeldHas(held, if n == from then name else n);
    }
    forall x | x in Held(held) ensures x in Held(w.held) {
      var n :| n in held && held[n] != 0 && held[n] == x;
      HeldHas(w.held, if n == name then from else n);
    }
  }

  lemma ObservedKeepsOwned(w: World, name: nat, observer: nat)
    requires Owned(w) && name !in w.held
    ensures Owned(Apply(w, Observe(name, observer)))
  {
    var id := w.registry.lastId + 1;
    AddedKeepsInv(w.registry, observer);
    var held := w.held[name := id];
    HeldHas(held, name);
    HeldSame(held, w.held, id, name);
    forall n | n in w.held && w.held[n] != 0 ensures w.held[n] != id {
      HeldHas(w.held, n);
    }
  }

  lemma DroppedKeepsOwned(w: World, name: nat)
    requires Owned(w) && (name in w.held ==> w.held[name] == 0)
    ensures Owned(w.(held := w.held - {name})) && Owned(w.(held := w.held[name := 0]))
  {
    HeldSame(w.held - {name}, w.held, 0, name);
    HeldSame(w.held[name := 0], w.held, 0, name);
    assert 0 !in Held(w.held) && 0 !in Held(w.held - {name}) && 0 !in Held(w.held[name := 0]);
  }

  lemma {:induction false} StepKeepsOwned(w: World, step: Step)
    requires Owned(w) && Enabled(w, step)
    ensures Owned(Apply(w, step))
  {
    match step
    case Observe(name, observer) => ObservedKeepsOwned(w, name, observer);
    case Default(name) => DroppedKeepsOwned(w, name);
    case MoveConstruct(name, from) => MovedKeepsOwned(w, name, from);
    case MoveAssign(name, from) =>
      if name != from {
        ReleasedKeepsOwned(w, name);
        MovedKeepsOwned(Released(w, name), name, from);
      }
    case Reset(name) => ReleasedKeepsOwned(w, name);
    case Destroy(name) =>
      ReleasedKeepsOwned(w, name);
      DroppedKeepsOwned(Released(w, name), name);
  }

  /** The registration a step gives up: that of a subscription reset, destroyed or assigned to. */
  function GivenUp(w: World, step: Step): set<nat>
    requires Enabled(w, step)
  {
    match step
    case Reset(name) => {w.held[name]}
    case Destroy(name) => {w.held[name]}
    case MoveAssign(name, from) => if name == from then {} else {w.held[name]}
    case _ => {}
  }

  /** Only observing registers, and exactly one identifier; only what a step gives up is
      unregistered; and a move takes the registration from one subscription to the other. */
  lemma StepOnRegistrations(w: World, step: Step)
    requires Owned(w) && Enabled(w, step)
    ensures var v := Apply(w, step);
            && Ids(v.registry.entries)
               == Ids(w.registry.entries) - GivenUp(w, step) + (if step.Observe? then {w.registry.lastId + 1} else {})
            && (step.Observe? ==> v.held[step.name] == w.registry.lastId + 1)
            && ((step.MoveConstruct? || step.MoveAssign?) && step.name != step.from ==>
                  v.held[step.name] == w.held[step.from] && v.held[step.from] == 0)
            && (step.Reset? ==> v.held[step.name] == 0)
            && (step.Destroy? ==> step.name !in v.held)
            && forall other :: other in w.held && other != step.name && !(MovesFrom(step, other)) ==>
                 other in v.held && v.held[other] == w.held[other]
  {
    if step.Observe? { AddedKeepsInv(w.registry, step.observer); }
    if step.Reset? || step.Destroy? || step.MoveAssign? { RemovedKeepsInv(w.registry, w.held[step.name]); }
  }

  predicate MovesFrom(step: Step, name: nat) { (step.MoveConstruct? || step.MoveAssign?) && step.from == name }

  predicate Plays(w: World, steps: seq<Step>, v: World)
    decreases |steps|
  {
    if steps == [] then v == w
    else Enabled(w, steps[0]) && Plays(Apply(w, steps[0]), steps[1..], v)
  }

  /** Linear ownership under any sequence of observing, moving (onto itself too), resetting
      and destroying subscriptions. */
  lemma {:induction false} RegistrationsAreOwned(w: World, steps: seq<Step>, v: World)
    requires Owned(w) && Plays(w, steps, v)
    ensures Owned(v)
    decreases |steps|
  {
    if steps != [] {
      StepKeepsOwned(w, steps[0]);
      RegistrationsAreOwned(Apply(w, steps[0]), steps[1..], v);
    }
  }

  lemma SomeId(entries: seq<Entry>)
    requires entries != []
    ensures Ids(entries) != {}
  {
    assert entries[0] in entries;
    assert entries[0].id in Ids(entries);
  }

  /** With every subscription gone nothing is registered. */
  lemma AllGoneMeansEmpty(w: World)
    requires Owned(w) && w.held == map[]
    ensures w.registry.entries == []
  {
    assert Held(w.held) == {};
    if w.registry.entries != [] {
      SomeId(w.registry.entries);
      assert false;
    }
  }

  // ----- delivery -----

  /** What a callback can do to the registry; `nested` says what the calls of a delivery it makes
      itself do. */
  datatype Action = Register(observer: nat) | Unregister(id: nat) | Notify(nested: seq<Callback>)

  /** What a callback sets out to do. It throws after `throwsAfter` of the actions, if it has
      that many. */
  datatype Callback = Callback(actions: seq<Action>, throwsAfter: nat)
  {
    predicate Throws() { throwsAfter <= |actions| }

    /** How many of the actions it gets done. */
    function Reached(): nat { if Throws() then throwsAfter else |actions| }
  }

  /** The registry after the first `n` actions of a callback. */
  function Acted(r: Registry, actions: seq<Action>, n: nat): Registry
    requires n <= |actions|
    decreases actions, n
  {
    if n == 0 then r
    else
      var before := Acted(r, actions, n - 1);
      match actions[n - 1]
      case Register(observer) => Added(before, observer)
      case Unregister(id) => Removed(before, id)
      case Notify(nested) => After(before, nested, |before.entries|)
  }

  /** The registry after the first `n` calls of a delivery, of which the `i`-th does what
      `behaviour[i]` says, or nothing. */
  function After(r: Registry, behaviour: seq<Callback>, n: nat): Registry
    decreases behaviour, n
  {
    if n == 0 then r
    else
      var before := After(r, behaviour, n - 1);
      if n - 1 < |behaviour| then Acted(before, behaviour[n - 1].actions, behaviour[n - 1].Reached()) else before
  }

  /** Which of the first `n` calls throw, in order. */
  function Throwing(behaviour: seq<Callback>, n: nat): seq<nat> {
    if n == 0 then []
    else Throwing(behaviour, n - 1) + if n - 1 < |behaviour| && behaviour[n - 1].Throws() then [n - 1] else []
  }
}

module ObserverObjects {
  import opened M = Observers

  class ObserverRegistry {
    var values: seq<Entry>
    var nextId: nat

    function View(): Registry
      reads this
    {
      Registry(values, nextId)
    }

    constructor ()
      ensures View() == Empty
    {
      values, nextId := [], 0;
    }

    method Add(observer: nat) returns (id: nat)
      modifies this
      ensures View() == Added(old(View()), observer)
      ensures id == nextId > old(nextId)
    {
      nextId := nextId + 1;
      id := nextId;
      values := values + [Entry(id, observer)];
    }

    /** Erases every entry with the identifier, keeping the order of the rest. */
    method Remove(id: nat)
      modifies this
      ensures View() == Removed(old(View()), id)
    {
      var kept: seq<Entry> := [];
      var i := 0;
      while i < |values|
        invariant 0 <= i <= |values|
        invariant kept == Kept(values[..i], id)
      {
        assert values[..i + 1][..i] == values[..i];
        if values[i].id != id { kept := kept + [values[i]]; }
        i := i + 1;
      }
      assert values[..i] == values;
      values := kept;
    }

    /** One callback. It stops where it throws, and may notify in its turn: the lock that
        serialises callbacks can be taken again by its holder. */
    method Run(callback: Callback) returns (threw: bool)
      modifies this
      ensures threw <==> callback.Throws()
      ensures View() == Acted(old(View()), callback.actions, callback.Reached())
      decreases callback, 0
    {
      var i := 0;
      while i < |callback.actions| && i != callback.throwsAfter
        invariant 0 <= i <= callback.Reached()
        invariant View() == Acted(old(View()), callback.actions, i)
      {
        Act(callback.actions[i]);
        i := i + 1;
      }
      threw := i == callback.throwsAfter;
    }

    method Act(action: Action)
      modifies this
      ensures View() == match action
                        case Register(observer) => Added(old(View()), observer)
                        case Unregister(id) => Removed(old(View()), id)
                        case Notify(nested) => After(old(View()), nested, |old(values)|)
      decreases action, 0
    {
      match action
      case Register(observer) => var _ := Add(observer);
      case Unregister(id) => Remove(id);
      case Notify(nested) => var _, _ := NotifyEach(nested);
    }

    /** The loop over a snapshot. What a call throws is swallowed there and then: it ends
        that call only. */
    method CallAll(observers: seq<nat>, behaviour: seq<Callback>) returns (called: seq<nat>, swallowed: seq<nat>)
      modifies this
      ensures called == observers
      ensures View() == After(old(View()), behaviour, |observers|)
      ensures swallowed == Throwing(behaviour, |observers|)
      decreases behaviour, 0
    {
      called, swallowed := [], [];
      var i := 0;
      while i < |observers|
        invariant 0 <= i <= |observers| && called == observers[..i]
        invariant View() == After(old(View()), behaviour, i)
        invariant swallowed == Throwing(behaviour, i)
      {
        called := called + [observers[i]];
        if i < |behaviour| {
          var threw := Run(behaviour[i]);
          if threw { swallowed := swallowed + [i]; }
        }
        i := i + 1;
      }
    }

    /** Copies the observers, in registration order. */
    method Snapshot() returns (observers: seq<nat>)
      ensures |observers| == |values|
      ensures forall i :: 0 <= i < |values| ==> observers[i] == values[i].observer
    {
      observers := [];
      var i := 0;
      while i < |values|
        invariant 0 <= i <= |values| && |observers| == i
        invariant forall j :: 0 <= j < i ==> observers[j] == values[j].observer
      {
        observers := observers + [values[i].observer];
        i := i + 1;
      }
    }

    /** Calls exactly the observers registered on entry, in registration order, whatever the
        callbacks register, unregister and notify, and wherever they throw. */
    method NotifyEach(behaviour: seq<Callback>) returns (called: seq<nat>, swallowed: seq<nat>)
      modifies this
      ensures |called| == |old(values)|
      ensures forall i :: 0 <= i < |called| ==> called[i] == old(values)[i].observer
      ensures View() == After(old(View()), behaviour, |called|)
      ensures swallowed == Throwing(behaviour, |called|)
      decreases behaviour, 1
    {
      var observers := Snapshot();
      called, swallowed := CallAll(observers, behaviour);
    }
  }

  /** A move-only handle on one registration. */
  class Subscription {
    var registry: ObserverRegistry?
    var id: nat

    constructor (registry: ObserverRegistry?, id: nat)
      ensures this.registry == registry && this.id == id
    {
      this.registry := registry;
      this.id := id;
    }

    /** Gives up the registration. The registry may be gone already. */
    method Reset()
      modifies this, registry
      ensures id == 0
      ensures old(id) == 0 ==> registry == old(registry)
      ensures old(id) != 0 ==> registry == null
      ensures old(registry) != null ==>
                old(registry).View() ==
                  if old(id) == 0 then old(registry.View()) else Removed(old(registry.View()), old(id))
    {
      var held := id;
      id := 0;
      if held == 0 { return; }
      if registry != null { registry.Remove(held); }
      registry := null;
    }

    /** Takes over what `other` holds; moving onto itself changes nothing. */
    method MoveAssign(other: Subscription)
      modifies this, registry, other
      ensures this == other ==> id == old(id) && registry == old(registry)
      ensures this == other && registry != null ==> registry.View() == old(registry.View())
      ensures this != other ==> id == old(other.id) && registry == old(other.registry) && other.id == 0
      ensures this != other && old(registry) != null ==>
                old(registry).View() ==
                  if old(id) == 0 then old(registry.View()) else Removed(old(registry.View()), old(id))
    {
      if this == other { return; }
      Reset();
      registry := other.registry;
      id := other.id;
      other.registry := null;
      other.id := 0;
    }
  }
}

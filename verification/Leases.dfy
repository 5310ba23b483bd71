/** The lease fallback of one pool and kind: a snapshot of the leases, then one
    atomic create per value against a store that others change in between. */
module Leases {
  import opened Text

  type CorrId = string

  /** One Lease object of the pool: whether it carries the caller's kind label,
      the correlation id annotation, and the allocated-id annotation if it is
      there and a number. */
  datatype Lease = Lease(ours: bool, holder: CorrId, recorded: Option<int>)

  type Store = map<string, Lease>

  datatype Outcome = Value(v: int) | Exhausted | ApiError

  function NameOf(prefix: string, v: int): string {
    prefix + "-" + Itoa(v)
  }

  /** Leases of this kind are named after the value they record. */
  ghost predicate Named(prefix: string, store: Store) {
    forall n :: n in store && store[n].ours && store[n].recorded.Some? ==> n == NameOf(prefix, store[n].recorded.value)
  }

  /** The value is held by the correlation id. */
  predicate Holds(prefix: string, store: Store, corr: CorrId, v: int) {
    NameOf(prefix, v) in store && store[NameOf(prefix, v)].holder == corr
  }

  function NewLease(v: int, corr: CorrId): Lease {
    Lease(true, corr, Some(v))
  }

  // ---- the snapshot ----------------------------------------------------------------

  predicate Mine(l: Lease, corr: CorrId) {
    l.ours && l.holder == corr && l.recorded.Some?
  }

  /** The first listed lease of the caller, in name order. */
  function FirstHeld(store: Store, names: seq<string>, corr: CorrId): Option<int>
    requires forall n :: n in names ==> n in store
  {
    if names == [] then None
    else if Mine(store[names[0]], corr) then store[names[0]].recorded
    else FirstHeld(store, names[1..], corr)
  }

  lemma {:induction false} FirstHeldMeans(store: Store, names: seq<string>, corr: CorrId)
    requires forall n :: n in names ==> n in store
    ensures FirstHeld(store, names, corr).Some? <==> exists n :: n in names && Mine(store[n], corr)
    ensures FirstHeld(store, names, corr).Some? ==>
      exists n :: n in names && Mine(store[n], corr) && store[n].recorded == FirstHeld(store, names, corr)
  {
    if names != [] && !Mine(store[names[0]], corr) { FirstHeldMeans(store, names[1..], corr); }
  }

  /** The value a lease records, as a set. */
  function RecordedBy(l: Lease): set<int> {
    if l.recorded.Some? then {l.recorded.value} else {}
  }

  /** The values the listed leases record. */
  function Recorded(store: Store, names: seq<string>): set<int>
    requires forall n :: n in names ==> n in store
  {
    if names == [] then {} else Recorded(store, names[..|names| - 1]) + RecordedBy(store[names[|names| - 1]])
  }

  function Used(store: Store): (s: set<int>) {
    set n | n in store && store[n].recorded.Some? :: store[n].recorded.value
  }

  lemma {:induction false} RecordedMeans(store: Store, names: seq<string>, v: int)
    requires forall n :: n in names ==> n in store
    ensures v in Recorded(store, names) <==> exists n :: n in names && store[n].recorded == Some(v)
  {
    if names != [] {
      var rest, last := names[..|names| - 1], names[|names| - 1];
      RecordedMeans(store, rest, v);
      assert names == rest + [last];
    }
  }

  lemma RecordedAll(store: Store)
    ensures Recorded(store, SortedKeys(store.Keys)) == Used(store)
  {
    forall v ensures v in Recorded(store, SortedKeys(store.Keys)) <==> v in Used(store) {
      RecordedMeans(store, SortedKeys(store.Keys), v);
      if v in Used(store) {
        var n :| n in store && store[n].recorded == Some(v);
        assert n in SortedKeys(store.Keys);
      }
    }
  }

  /** A value a caller with this snapshot cannot have: recorded by some lease of
      the pool, or its name taken by another. */
  predicate Taken(prefix: string, store: Store, used: set<int>, corr: CorrId, v: int) {
    v in used || (NameOf(prefix, v) in store && store[NameOf(prefix, v)].holder != corr)
  }

  // ---- one call, nobody else about ------------------------------------------------------

  /** The value loop against a store that only this call changes. */
  function Probe(prefix: string, store: Store, used: set<int>, corr: CorrId, value: int, last: int): (r: (Store, Outcome))
    decreases last - value + 1
  {
    if value > last then (store, Exhausted)
    else if value in used then Probe(prefix, store, used, corr, value + 1, last)
    else if NameOf(prefix, value) !in store then (store[NameOf(prefix, value) := NewLease(value, corr)], Value(value))
    else if store[NameOf(prefix, value)].holder == corr then (store, Value(value))
    else Probe(prefix, store, used, corr, value + 1, last)
  }

  function Alone(prefix: string, store: Store, corr: CorrId, first: int, last: int): (r: (Store, Outcome)) {
    match FirstHeld(store, SortedKeys(store.Keys), corr)
    case Some(v) => (store, Value(v))
    case None => Probe(prefix, store, Used(store), corr, first, last)
  }

  /** The value is the caller's now, at the cost of at most its own new lease. */
  ghost predicate Claimed(prefix: string, store: Store, corr: CorrId, v: int, store': Store) {
    && Holds(prefix, store', corr, v)
    && store' == (if NameOf(prefix, v) in store then store else store[NameOf(prefix, v) := NewLease(v, corr)])
  }

  /** What the loop finds: the lowest value that is not taken, or exhaustion when
      every value is. */
  ghost predicate FindsLowest(prefix: string, store: Store, used: set<int>, corr: CorrId, value: int, last: int, r: (Store, Outcome)) {
    && !r.1.ApiError?
    && (r.1.Exhausted? <==> forall v :: value <= v <= last ==> Taken(prefix, store, used, corr, v))
    && (r.1.Exhausted? ==> r.0 == store)
    && (r.1.Value? ==>
          && value <= r.1.v <= last && !Taken(prefix, store, used, corr, r.1.v)
          && (forall v :: value <= v < r.1.v ==> Taken(prefix, store, used, corr, v))
          && Claimed(prefix, store, corr, r.1.v, r.0))
  }

  lemma {:induction false} ProbeFindsLowest(prefix: string, store: Store, used: set<int>, corr: CorrId, value: int, last: int)
    ensures FindsLowest(prefix, store, used, corr, value, last, Probe(prefix, store, used, corr, value, last))
    decreases last - value + 1
  {
    if value <= last {
      if Taken(prefix, store, used, corr, value) {
        ProbeFindsLowest(prefix, store, used, corr, value + 1, last);
        SkipTaken(prefix, store, used, corr, value, last, Probe(prefix, store, used, corr, value + 1, last));
      } else {
        assert Claimed(prefix, store, corr, value, Probe(prefix, store, used, corr, value, last).0);
      }
    }
  }

  lemma SkipTaken(prefix: string, store: Store, used: set<int>, corr: CorrId, value: int, last: int, r: (Store, Outcome))
    requires value <= last && Taken(prefix, store, used, corr, value) && FindsLowest(prefix, store, used, corr, value + 1, last, r)
    ensures FindsLowest(prefix, store, used, corr, value, last, r)
  {
  }

  /** Run alone, a call reports exhaustion exactly when the caller holds no
      listed lease and every value of the range is taken. */
  lemma ExhaustionIsExact(prefix: string, store: Store, corr: CorrId, first: int, last: int)
    ensures Alone(prefix, store, corr, first, last).1.Exhausted? <==>
      && (forall n :: n in store ==> !Mine(store[n], corr))
      && (forall v :: first <= v <= last ==> Taken(prefix, store, Used(store), corr, v))
  {
    FirstHeldMeans(store, SortedKeys(store.Keys), corr);
    ProbeFindsLowest(prefix, store, Used(store), corr, first, last);
  }

  /** Run alone, a call that returns a value holds it; it adds at most that one
      lease and takes nothing from anyone. */
  lemma AloneHolds(prefix: string, store: Store, corr: CorrId, first: int, last: int)
    requires Named(prefix, store)
    ensures var (store', out) := Alone(prefix, store, corr, first, last);
      && Named(prefix, store')
      && (forall n :: n in store ==> n in store' && store'[n] == store[n])
      && (out.Value? ==> Holds(prefix, store', corr, out.v))
      && (out.Value? ==> store'.Keys <= store.Keys + {NameOf(prefix, out.v)})
  {
    HeldIsHeld(prefix, store, corr);
    if FirstHeld(store, SortedKeys(store.Keys), corr).None? {
      ProbeFindsLowest(prefix, store, Used(store), corr, first, last);
      var (store', out) := Alone(prefix, store, corr, first, last);
      assert out.Value? && NameOf(prefix, out.v) !in store ==> store'[NameOf(prefix, out.v)] == NewLease(out.v, corr);
    }
  }

  /** A repeat call returns the same value and leaves the store as it is. */
  lemma RepeatIsNoOp(prefix: string, store: Store, corr: CorrId, first: int, last: int)
    requires Named(prefix, store)
    ensures var (store', out) := Alone(prefix, store, corr, first, last);
      out.Value? ==> Alone(prefix, store', corr, first, last) == (store', out)
  {
    var (store', out) := Alone(prefix, store, corr, first, last);
    ProbeFindsLowest(prefix, store, Used(store), corr, first, last);
    FirstHeldMeans(store, SortedKeys(store.Keys), corr);
    var held := FirstHeld(store, SortedKeys(store.Keys), corr);
    if held.None? && out.Value? {
      var name := NameOf(prefix, out.v);
      if name in store {
        assert store' == store;
      } else {
        assert Mine(store'[name], corr);
        forall n | n in store' && Mine(store'[n], corr) ensures n == name {}
        FirstHeldIsOnly(store', SortedKeys(store'.Keys), corr, name);
      }
    }
  }

  lemma {:induction false} FirstHeldIsOnly(store: Store, names: seq<string>, corr: CorrId, name: string)
    requires forall n :: n in names ==> n in store
    requires name in names && Mine(store[name], corr)
    requires forall n :: n in names && Mine(store[n], corr) ==> n == name
    ensures FirstHeld(store, names, corr) == store[name].recorded
  {
    if names[0] != name { FirstHeldIsOnly(store, names[1..], corr, name); }
  }

  lemma {:induction false} FirstHeldAt(store: Store, names: seq<string>, i: nat, corr: CorrId)
    requires i <= |names| && forall n :: n in names ==> n in store
    requires forall j :: 0 <= j < i ==> !Mine(store[names[j]], corr)
    ensures i < |names| && Mine(store[names[i]], corr) ==> FirstHeld(store, names, corr) == store[names[i]].recorded
    ensures i == |names| ==> FirstHeld(store, names, corr) == None
  {
    if i > 0 { FirstHeldAt(store, names[1..], i - 1, corr); }
  }

  // ---- release -------------------------------------------------------------------------

  /** The listed leases that carry the id. */
  function Carrying(store: Store, names: seq<string>, corr: CorrId): (s: set<string>)
    requires forall n :: n in names ==> n in store
  {
    set n | n in names && store[n].holder == corr
  }

  lemma CarryingNext(store: Store, names: seq<string>, i: nat, corr: CorrId)
    requires i < |names| && Distinct(names) && forall n :: n in names ==> n in store
    ensures var s, s' := Carrying(store, names[..i], corr), Carrying(store, names[..i + 1], corr);
      if store[names[i]].holder == corr then s' == s + {names[i]} && |s'| == |s| + 1 else s' == s
  {
    var s, s' := Carrying(store, names[..i], corr), Carrying(store, names[..i + 1], corr);
    NamesNext(names, i);
    forall n ensures n in s' <==> n in s || (n == names[i] && store[n].holder == corr) {
      assert n in names[..i + 1] <==> n in names[..i] || n == names[i];
    }
    if store[names[i]].holder == corr { assert s' == s + {names[i]}; } else { assert s' == s; }
  }

  lemma NamesNext(names: seq<string>, i: nat)
    requires i < |names| && Distinct(names)
    ensures names[..i + 1] == names[..i] + [names[i]] && names[i] !in names[..i]
  {
  }

  function Released(store: Store, corr: CorrId): Store {
    map n | n in store && store[n].holder != corr :: store[n]
  }

  /** After a release and nothing else, another caller can have the value. */
  lemma ReleaseFrees(prefix: string, store: Store, corr: CorrId, v: int)
    requires Named(prefix, store) && Holds(prefix, store, corr, v)
    requires forall n :: n in store && n != NameOf(prefix, v) ==> store[n].recorded != Some(v)
    ensures var store' := Released(store, corr);
      forall other :: !Taken(prefix, store', Used(store'), other, v)
  {
  }

  // ---- any number of callers at once -------------------------------------------------------

  /** Where a call stands. `standing` says the lease its value came from has not
      been deleted since. */
  datatype Stage =
    | Listing
    | Creating(value: int, used: set<int>)
    | Reading(value: int, used: set<int>)
    | Returned(v: int, standing: bool)
    | Spent
    | Broken

  datatype Call = Call(corr: CorrId, first: int, last: int, at: Stage)

  datatype State = State(store: Store, calls: map<nat, Call>)

  /** How the API answers a request; an erring create may still have landed. */
  datatype Api = Done | Failed(landed: bool)

  datatype Event =
    | Open(id: nat, corr: CorrId, first: int, last: int)
    | Step(id: nat, api: Api)
    | OtherCreate(name: string, lease: Lease)
    | Delete(name: string)

  /** The next value of the loop that the snapshot leaves open. */
  function Next(value: int, last: int, used: set<int>): (s: Stage)
    ensures s.Creating? || s.Spent?
    decreases last - value + 1
  {
    if value > last then Spent
    else if value in used then Next(value + 1, last, used)
    else Creating(value, used)
  }

  function StepCall(prefix: string, store: Store, call: Call, api: Api): (Store, Stage) {
    match call.at
    case Listing =>
      if api.Failed? then (store, Broken) else
        (store, match FirstHeld(store, SortedKeys(store.Keys), call.corr)
                case Some(v) => Returned(v, true)
                case None => Next(call.first, call.last, Used(store)))
    case Creating(value, used) =>
      var name := NameOf(prefix, value);
      if name in store then (store, if api.Failed? then Broken else Reading(value, used))
      else (if api.Done? || api.landed then store[name := NewLease(value, call.corr)] else store,
            if api.Done? then Returned(value, true) else Broken)
    case Reading(value, used) =>
      (store, if api.Done? && Holds(prefix, store, call.corr, value) then Returned(value, true)
              else Next(value + 1, call.last, used))
    case _ => (store, call.at)
  }

  function Unstand(prefix: string, call: Call, name: string): Call {
    if call.at.Returned? && NameOf(prefix, call.at.v) == name then call.(at := Returned(call.at.v, false)) else call
  }

  function Occur(prefix: string, s: State, e: Event): State {
    match e
    case Open(id, corr, first, last) =>
      if id in s.calls then s else s.(calls := s.calls[id := Call(corr, first, last, Listing)])
    case Step(id, api) =>
      if id !in s.calls then s else
        var (store, stage) := StepCall(prefix, s.store, s.calls[id], api);
        State(store, s.calls[id := s.calls[id].(at := stage)])
    case OtherCreate(name, lease) =>
      if name in s.store then s else s.(store := s.store[name := lease])
    case Delete(name) =>
      State(s.store - {name}, map id | id in s.calls :: Unstand(prefix, s.calls[id], name))
  }

  function After(prefix: string, s: State, events: seq<Event>): State
    decreases |events|
  {
    if events == [] then s else Occur(prefix, After(prefix, s, events[..|events| - 1]), events[|events| - 1])
  }

  /** Others name the leases of this kind after the value too. */
  ghost predicate Disciplined(prefix: string, events: seq<Event>) {
    forall e :: e in events && e.OtherCreate? && e.lease.ours && e.lease.recorded.Some? ==>
      e.name == NameOf(prefix, e.lease.recorded.value)
  }

  ghost predicate AllStanding(prefix: string, s: State) {
    && Named(prefix, s.store)
    && forall id :: id in s.calls && s.calls[id].at.Returned? && s.calls[id].at.standing ==>
         Holds(prefix, s.store, s.calls[id].corr, s.calls[id].at.v)
  }

  /** One step of a call writes at most its own new lease, and returns only what
      it holds. */
  lemma StepCallKeeps(prefix: string, store: Store, call: Call, api: Api)
    requires Named(prefix, store)
    ensures var (store', stage) := StepCall(prefix, store, call, api);
      && Named(prefix, store')
      && (forall n :: n in store ==> n in store' && store'[n] == store[n])
      && (stage.Returned? && !call.at.Returned? ==> Holds(prefix, store', call.corr, stage.v))
      && (call.at.Returned? ==> stage == call.at)
  {
    match call.at
    case Listing => HeldIsHeld(prefix, store, call.corr);
    case Creating(value, used) => CreatedIsNamed(prefix, store, call.corr, value);
    case _ =>
  }

  lemma CreatedIsNamed(prefix: string, store: Store, corr: CorrId, value: int)
    requires Named(prefix, store)
    ensures NameOf(prefix, value) !in store ==>
      Named(prefix, store[NameOf(prefix, value) := NewLease(value, corr)])
      && Holds(prefix, store[NameOf(prefix, value) := NewLease(value, corr)], corr, value)
  {
  }

  lemma HeldIsHeld(prefix: string, store: Store, corr: CorrId)
    requires Named(prefix, store)
    ensures var held := FirstHeld(store, SortedKeys(store.Keys), corr);
      held.Some? ==> Holds(prefix, store, corr, held.value)
  {
    FirstHeldMeans(store, SortedKeys(store.Keys), corr);
    var held := FirstHeld(store, SortedKeys(store.Keys), corr);
    if held.Some? {
      var n :| n in store && Mine(store[n], corr) && store[n].recorded == held;
      assert n == NameOf(prefix, held.value);
    }
  }

  lemma StepKeeps(prefix: string, s: State, id: nat, api: Api)
    requires AllStanding(prefix, s) && id in s.calls
    ensures AllStanding(prefix, Occur(prefix, s, Step(id, api)))
  {
    StepCallKeeps(prefix, s.store, s.calls[id], api);
    var s' := Occur(prefix, s, Step(id, api));
    forall k | k in s'.calls && s'.calls[k].at.Returned? && s'.calls[k].at.standing
      ensures Holds(prefix, s'.store, s'.calls[k].corr, s'.calls[k].at.v)
    {
      if k != id || s.calls[k].at.Returned? {
        assert Holds(prefix, s.store, s.calls[k].corr, s.calls[k].at.v);
      }
    }
  }

  lemma OccurKeeps(prefix: string, s: State, e: Event)
    requires AllStanding(prefix, s) && Disciplined(prefix, [e])
    ensures AllStanding(prefix, Occur(prefix, s, e))
  {
    assert e in [e];
    match e
    case Step(id, api) => if id in s.calls { StepKeeps(prefix, s, id, api); }
    case _ =>
  }

  lemma {:induction false} RunKeeps(prefix: string, s: State, events: seq<Event>)
    requires AllStanding(prefix, s) && Disciplined(prefix, events)
    ensures AllStanding(prefix, After(prefix, s, events))
    decreases |events|
  {
    if events != [] {
      var e := events[|events| - 1];
      assert e in events;
      RunKeeps(prefix, s, events[..|events| - 1]);
      OccurKeeps(prefix, After(prefix, s, events[..|events| - 1]), e);
    }
  }

  /** Over every interleaving of callers, other creators and deletions: two calls
      with different correlation ids never have the same value while both leases
      stand. */
  lemma ValuesAreExclusive(prefix: string, store: Store, events: seq<Event>, i: nat, j: nat)
    requires Named(prefix, store) && Disciplined(prefix, events)
    requires var s := After(prefix, State(store, map[]), events);
      && i in s.calls && s.calls[i].at.Returned? && s.calls[i].at.standing
      && j in s.calls && s.calls[j].at.Returned? && s.calls[j].at.standing
      && s.calls[i].corr != s.calls[j].corr
    ensures var s := After(prefix, State(store, map[]), events);
      s.calls[i].at.v != s.calls[j].at.v
  {
    RunKeeps(prefix, State(store, map[]), events);
  }

  // ---- the code ----------------------------------------------------------------------------

  /** Another client's write between two requests. */
  datatype Change = Put(name: string, lease: Lease) | Drop(name: string)

  /** Over the listed leases: the caller's own value, or the values recorded. */
  method Scan(listed: Store, corr: CorrId) returns (held: Option<int>, used: set<int>)
    ensures held == FirstHeld(listed, SortedKeys(listed.Keys), corr)
    ensures held.None? ==> used == Used(listed)
  {
    held, used := ScanNames(listed, SortedKeys(listed.Keys), corr);
    RecordedAll(listed);
  }

  method ScanNames(listed: Store, names: seq<string>, corr: CorrId) returns (held: Option<int>, used: set<int>)
    requires forall n :: n in names ==> n in listed
    ensures held == FirstHeld(listed, names, corr)
    ensures held.None? ==> used == Recorded(listed, names)
  {
    held, used := None, {};
    for i := 0 to |names|
      invariant held.None? && used == Recorded(listed, names[..i])
      invariant forall j :: 0 <= j < i ==> !Mine(listed[names[j]], corr)
    {
      assert names[..i + 1][..i] == names[..i];
      if Mine(listed[names[i]], corr) {
        FirstHeldAt(listed, names, i, corr);
        held := listed[names[i]].recorded;
        return;
      }
      if listed[names[i]].recorded.Some? {
        used := used + {listed[names[i]].recorded.value};
      }
    }
    assert names[..|names|] == names;
    FirstHeldAt(listed, names, |names|, corr);
  }

  class Pool {
    const prefix: string
    const others: nat -> seq<Change>
    const answers: nat -> Api
    var leases: Store
    var clock: nat

    constructor (p: string, o: nat -> seq<Change>, a: nat -> Api, store: Store)
      ensures prefix == p && others == o && answers == a && leases == store && clock == 0
    {
      prefix, others, answers, leases, clock := p, o, a, store, 0;
    }

    /** Others name leases of this kind after their value. */
    ghost predicate Tidy() {
      forall i, c :: c in others(i) && c.Put? && c.lease.ours && c.lease.recorded.Some? ==>
        c.name == NameOf(prefix, c.lease.recorded.value)
    }

    /** Nobody else writes and no request fails between two points of the clock. */
    ghost predicate Quiet(from: nat, to: nat) {
      forall i :: from <= i < to ==> others(i) == [] && answers(i).Done?
    }

    /** Others write until the next request is served. */
    method Await() returns (api: Api)
      requires Tidy() && Named(prefix, leases)
      modifies this
      ensures Named(prefix, leases) && clock == old(clock) + 1 && api == answers(old(clock))
      ensures others(old(clock)) == [] ==> leases == old(leases)
    {
      var changes := others(clock);
      api := answers(clock);
      clock := clock + 1;
      for i := 0 to |changes|
        invariant Named(prefix, leases) && clock == old(clock) + 1
        invariant changes == [] ==> leases == old(leases)
      {
        assert changes[i] in others(old(clock));
        match changes[i]
        case Put(name, lease) => if name !in leases { leases := leases[name := lease]; }
        case Drop(name) => leases := leases - {name};
      }
    }

    /** AllocateLeaseID. A value returned is held when the call returns, whoever
        else is writing; undisturbed, the call is Alone. */
    method AllocateLeaseId(corr: CorrId, first: int, last: int) returns (out: Outcome)
      requires Tidy() && Named(prefix, leases)
      modifies this
      ensures Named(prefix, leases) && old(clock) <= clock
      ensures out.Value? ==> Holds(prefix, leases, corr, out.v)
      ensures Quiet(old(clock), clock) ==> (leases, out) == Alone(prefix, old(leases), corr, first, last)
    {
      var held, used;
      held, used, out := Snapshot(corr);
      if held.Some? || out.ApiError? { return; }
      out := TryValues(corr, first, last, used);
    }

    /** The list request, and what the caller reads off it. */
    method Snapshot(corr: CorrId) returns (held: Option<int>, used: set<int>, out: Outcome)
      requires Tidy() && Named(prefix, leases)
      modifies this
      ensures Named(prefix, leases) && clock == old(clock) + 1
      ensures others(old(clock)) == [] ==> leases == old(leases)
      ensures answers(old(clock)).Failed? ==> held.None? && out.ApiError?
      ensures answers(old(clock)).Done? ==>
        && held == FirstHeld(leases, SortedKeys(leases.Keys), corr)
        && (held.None? ==> used == Used(leases) && out == Exhausted)
        && (held.Some? ==> out == Value(held.value) && Holds(prefix, leases, corr, held.value))
    {
      held, used, out := None, {}, Exhausted;
      var api := Await();
      if api.Failed? { out := ApiError; return; }
      held, used := Scan(leases, corr);
      HeldIsHeld(prefix, leases, corr);
      if held.Some? { out := Value(held.value); }
    }

    /** One create for each value the snapshot leaves open. */
    method TryValues(corr: CorrId, first: int, last: int, used: set<int>) returns (out: Outcome)
      requires Tidy() && Named(prefix, leases)
      modifies this
      ensures Named(prefix, leases) && old(clock) <= clock
      ensures out.Value? ==> Holds(prefix, leases, corr, out.v)
      ensures Quiet(old(clock), clock) ==> (leases, out) == Probe(prefix, old(leases), used, corr, first, last)
    {
      var value := first;
      while value <= last
        invariant Named(prefix, leases) && old(clock) <= clock
        invariant Quiet(old(clock), clock) ==>
          leases == old(leases) && Probe(prefix, leases, used, corr, value, last) == Probe(prefix, leases, used, corr, first, last)
        decreases last - value
      {
        if value !in used {
          out := TryValue(corr, value);
          if out != Exhausted { return; }
        }
        value := value + 1;
      }
      out := Exhausted;
    }

    /** Create, and read the name back when it is taken. Exhausted: the value is
        another's. */
    method TryValue(corr: CorrId, value: int) returns (out: Outcome)
      requires Tidy() && Named(prefix, leases)
      modifies this
      ensures Named(prefix, leases) && old(clock) < clock
      ensures out.Value? ==> out.v == value && Holds(prefix, leases, corr, value)
      ensures Quiet(old(clock), clock) ==>
        && out == (if NameOf(prefix, value) !in old(leases) || Holds(prefix, old(leases), corr, value) then Value(value) else Exhausted)
        && leases == (if NameOf(prefix, value) in old(leases) then old(leases)
                      else old(leases)[NameOf(prefix, value) := NewLease(value, corr)])
    {
      var name := NameOf(prefix, value);
      var api := Await();
      if name !in leases {
        if api.Done? || api.landed { leases := leases[name := NewLease(value, corr)]; }
        return if api.Done? then Value(value) else ApiError;
      }
      if api.Failed? { return ApiError; }
      api := Await();
      out := if api.Done? && name in leases && leases[name].holder == corr then Value(value) else Exhausted;
    }

    /** releaseFallbackLeases: list, then delete by name what carries the id. */
    method Release(corr: CorrId) returns (deleted: nat, ok: bool)
      requires Tidy() && Named(prefix, leases)
      modifies this
      ensures Named(prefix, leases) && old(clock) <= clock
      ensures Quiet(old(clock), clock) ==>
        ok && leases == Released(old(leases), corr) && deleted == |old(leases)| - |leases|
    {
      var api := Await();
      if api.Failed? { return 0, false; }
      ghost var before := leases;
      deleted, ok := DeleteListed(corr, leases);
      if Quiet(old(clock), clock) { ReleasedSize(before, corr); }
    }

    method DeleteListed(corr: CorrId, listed: Store) returns (deleted: nat, ok: bool)
      requires Tidy() && Named(prefix, leases)
      modifies this
      ensures Named(prefix, leases) && old(clock) <= clock
      ensures Quiet(old(clock), clock) ==>
        ok && leases == old(leases) - Carrying(listed, SortedKeys(listed.Keys), corr)
        && deleted == |Carrying(listed, SortedKeys(listed.Keys), corr)|
    {
      deleted, ok := 0, true;
      var names := SortedKeys(listed.Keys);
      ghost var gone: set<string> := {};
      for i := 0 to |names|
        invariant Named(prefix, leases) && old(clock) <= clock && ok
        invariant gone == Carrying(listed, names[..i], corr) && deleted == |gone|
        invariant Quiet(old(clock), clock) ==> leases == old(leases) - gone
      {
        CarryingNext(listed, names, i, corr);
        if listed[names[i]].holder == corr {
          ok := DeleteNext(names[i], old(leases), gone, old(clock));
          if !ok { return; }
          deleted := deleted + 1;
          gone := gone + {names[i]};
        }
      }
      assert names[..|names|] == names;
    }

    method DeleteNext(name: string, ghost before: Store, ghost gone: set<string>, ghost since: nat) returns (ok: bool)
      requires Tidy() && Named(prefix, leases) && since <= clock && (Quiet(since, clock) ==> leases == before - gone)
      modifies this
      ensures Named(prefix, leases) && clock == old(clock) + 1
      ensures Quiet(since, clock) ==> ok && leases == before - (gone + {name})
    {
      ok := DeleteOne(name);
      MinusTwice(before, gone, name);
    }

    method DeleteOne(name: string) returns (ok: bool)
      requires Tidy() && Named(prefix, leases)
      modifies this
      ensures Named(prefix, leases) && clock == old(clock) + 1
      ensures Quiet(old(clock), clock) ==> ok && leases == old(leases) - {name}
    {
      var api := Await();
      ok := api.Done?;
      if api.Done? || api.landed { leases := leases - {name}; }
    }
  }

  lemma MinusTwice(store: Store, gone: set<string>, name: string)
    ensures store - gone - {name} == store - (gone + {name})
  {
  }

  lemma ReleasedSize(store: Store, corr: CorrId)
    ensures var gone := Carrying(store, SortedKeys(store.Keys), corr);
      store - gone == Released(store, corr) && |gone| == |store| - |Released(store, corr)|
  {
    CarryingIsRest(store, corr);
    KeysSplit(store, Released(store, corr), Carrying(store, SortedKeys(store.Keys), corr));
  }

  lemma CarryingIsRest(store: Store, corr: CorrId)
    ensures var gone, kept := Carrying(store, SortedKeys(store.Keys), corr), Released(store, corr);
      store - gone == kept && store.Keys == kept.Keys + gone && kept.Keys !! gone
  {
    var gone, kept := Carrying(store, SortedKeys(store.Keys), corr), Released(store, corr);
    forall n ensures n in gone <==> n in store && store[n].holder == corr { assert n in SortedKeys(store.Keys) <==> n in store.Keys; }
    assert (store - gone).Keys == kept.Keys;
  }

  lemma KeysSplit(store: Store, kept: Store, gone: set<string>)
    requires store.Keys == kept.Keys + gone && kept.Keys !! gone
    ensures |gone| == |store| - |kept|
  {
    assert |kept.Keys + gone| == |kept.Keys| + |gone|;
  }
}

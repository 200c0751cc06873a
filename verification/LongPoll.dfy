/**
 The limit on long-polling requests (api/src/transactions.rs: `wait_transaction_by_hash`).

 A request adds one to the shared counter and sees its previous value; only afterwards does it compare, and only
 after that does a rejected request subtract again. These are separate steps of concurrent requests. A request
 whose client goes away while it polls is dropped without subtracting.
 */
module LongPoll {
  import opened Wrappers

  type Id = nat

  datatype Pc = Added(seen: nat) | Rejected | Polling | ShortPoll | Finished

  datatype State = State(counter: nat, pcs: map<Id, Pc>, dropped: nat)

  datatype Action = Enter(id: Id) | Compare(id: Id) | TakeBack(id: Id) | Leave(id: Id) | Drop(id: Id)

  predicate Enabled(s: State, a: Action) {
    match a
    case Enter(id) => id !in s.pcs
    case Compare(id) => id in s.pcs && s.pcs[id].Added?
    case TakeBack(id) => id in s.pcs && s.pcs[id].Rejected?
    case Leave(id) => id in s.pcs && s.pcs[id].Polling?
    case Drop(id) => id in s.pcs && s.pcs[id].Polling?
  }

  /** The counter is unsigned and wraps at both ends. */
  function Decremented(counter: nat): nat {
    if counter == 0 then U64_MAX else counter - 1
  }

  function Incremented(counter: nat): nat {
    if counter == U64_MAX then 0 else counter + 1
  }

  function Apply(max: nat, s: State, a: Action): State
    requires Enabled(s, a)
  {
    match a
    case Enter(id) => s.(counter := Incremented(s.counter), pcs := s.pcs[id := Added(s.counter)])
    case Compare(id) => s.(pcs := s.pcs[id := if s.pcs[id].seen >= max then Rejected else Polling])
    case TakeBack(id) => s.(counter := Decremented(s.counter), pcs := s.pcs[id := ShortPoll])
    case Leave(id) => s.(counter := Decremented(s.counter), pcs := s.pcs[id := Finished])
    case Drop(id) => s.(pcs := s.pcs[id := Finished], dropped := s.dropped + 1)
  }

  function Those(pcs: map<Id, Pc>, f: Pc -> bool): set<Id> {
    set id | id in pcs && f(pcs[id])
  }

  lemma ThoseAfter(pcs: map<Id, Pc>, f: Pc -> bool, id: Id, pc: Pc)
    ensures Those(pcs[id := pc], f) == if f(pc) then Those(pcs, f) + {id} else Those(pcs, f) - {id}
  {
  }

  const Flies: Pc -> bool := (pc: Pc) => pc.Added? || pc.Rejected? || pc.Polling?
  const Polls: Pc -> bool := (pc: Pc) => pc.Polling?

  function WillPoll(max: nat): Pc -> bool {
    (pc: Pc) => pc.Polling? || (pc.Added? && pc.seen < max)
  }

  /** Requests between adding and subtracting. */
  function InFlight(s: State): set<Id> {
    Those(s.pcs, Flies)
  }

  function Pollers(s: State): set<Id> {
    Those(s.pcs, Polls)
  }

  /** Requests that poll, or will. */
  function Admitted(max: nat, s: State): set<Id> {
    Those(s.pcs, WillPoll(max))
  }

  /** Requests that account for one each: in flight, or dropped before subtracting. */
  function Load(s: State): nat {
    |InFlight(s)| + s.dropped
  }

  /** In any state, wrapped or not. */
  predicate Counts(s: State) {
    s.counter == Load(s) % (U64_MAX + 1)
  }

  predicate Inv(max: nat, s: State) {
    s.counter == Load(s) <= U64_MAX && |Admitted(max, s)| + s.dropped <= max
  }

  lemma Subset(a: set<Id>, b: set<Id>)
    requires a <= b
    ensures |a| <= |b|
  {
    if a != {} {
      var x :| x in a;
      Subset(a - {x}, b - {x});
    }
  }

  /** A request in flight accounts for one: neither subtraction can wrap. */
  lemma NoUnderflow(max: nat, s: State, a: Action)
    requires Inv(max, s) && Enabled(s, a)
    ensures (a.TakeBack? || a.Leave?) ==> s.counter > 0
  {
    if a.TakeBack? || a.Leave? { Subset({a.id}, InFlight(s)); }
  }

  lemma FlightAfter(max: nat, s: State, a: Action)
    requires Enabled(s, a)
    ensures InFlight(Apply(max, s, a)) ==
            if a.Enter? then InFlight(s) + {a.id} else if a.Compare? then InFlight(s) else InFlight(s) - {a.id}
  {
    ThoseAfter(s.pcs, Flies, a.id, Apply(max, s, a).pcs[a.id]);
    if a.Compare? { assert a.id in InFlight(s); }
  }

  lemma AdmittedAfter(max: nat, s: State, a: Action)
    requires Enabled(s, a)
    ensures Admitted(max, Apply(max, s, a)) ==
            if a.Enter? then Admitted(max, s) + (if s.counter < max then {a.id} else {})
            else if a.Leave? || a.Drop? then Admitted(max, s) - {a.id} else Admitted(max, s)
  {
    ThoseAfter(s.pcs, WillPoll(max), a.id, Apply(max, s, a).pcs[a.id]);
  }

  lemma LoadAfter(max: nat, s: State, a: Action)
    requires Enabled(s, a)
    ensures a.TakeBack? || a.Leave? ==> Load(s) > 0
    ensures Load(Apply(max, s, a)) ==
            if a.Enter? then Load(s) + 1 else if a.TakeBack? || a.Leave? then Load(s) - 1 else Load(s)
  {
    FlightAfter(max, s, a);
    InFlightMeans(s, a.id);
    Sizes(InFlight(s), a.id);
  }

  lemma InFlightMeans(s: State, id: Id)
    ensures id in InFlight(s) <==> id in s.pcs && Flies(s.pcs[id])
  {
  }

  lemma Sizes(a: set<Id>, x: Id)
    ensures x in a ==> |a| > 0 && |a - {x}| == |a| - 1
    ensures x !in a ==> |a + {x}| == |a| + 1
  {
  }

  lemma NextIsWrapped(n: nat)
    ensures (n + 1) % (U64_MAX + 1) == Incremented(n % (U64_MAX + 1))
    ensures n % (U64_MAX + 1) == Decremented((n + 1) % (U64_MAX + 1))
  {
  }

  lemma StepKeepsCounts(max: nat, s: State, a: Action)
    requires Counts(s) && Enabled(s, a)
    ensures Counts(Apply(max, s, a))
  {
    LoadAfter(max, s, a);
    NextIsWrapped(Load(s));
    if Load(s) > 0 { NextIsWrapped(Load(s) - 1); }
  }

  lemma AdmittedStays(max: nat, s: State, a: Action)
    requires Inv(max, s) && Enabled(s, a)
    ensures |Admitted(max, Apply(max, s, a))| + Apply(max, s, a).dropped <= max
  {
    AdmittedAfter(max, s, a);
    Subset(Admitted(max, s), InFlight(s));
    assert a.Leave? || a.Drop? ==> a.id in Admitted(max, s);
  }

  lemma StepKeepsInv(max: nat, s: State, a: Action)
    requires Inv(max, s) && Enabled(s, a) && Load(Apply(max, s, a)) <= U64_MAX
    ensures Inv(max, Apply(max, s, a))
  {
    LoadAfter(max, s, a);
    AdmittedStays(max, s, a);
  }

  ghost predicate Next(max: nat, s: State, a: Action, s': State) {
    Enabled(s, a) && s' == Apply(max, s, a)
  }

  ghost predicate Run(max: nat, ss: seq<State>, acts: seq<Action>) {
    && |ss| == |acts| + 1
    && ss[0] == State(0, map[], 0)
    && forall i :: 0 <= i < |acts| ==> Next(max, ss[i], acts[i], ss[i + 1])
  }

  /** Up to here there were never more requests at once than the counter has values. */
  ghost predicate NeverFull(ss: seq<State>, k: nat)
    requires k < |ss|
  {
    forall i :: 0 <= i <= k ==> Load(ss[i]) <= U64_MAX
  }

  /** In every run, however many requests there are, the counter is their number, wrapped. */
  lemma {:induction false} CounterIsLoad(max: nat, ss: seq<State>, acts: seq<Action>, k: nat)
    requires Run(max, ss, acts) && k < |ss|
    ensures ss[k].counter == Load(ss[k]) % (U64_MAX + 1)
    decreases k
  {
    if k == 0 {
      assert InFlight(ss[0]) == {};
    } else {
      CounterIsLoad(max, ss, acts, k - 1);
      assert Next(max, ss[k - 1], acts[k - 1], ss[k]);
      StepKeepsCounts(max, ss[k - 1], acts[k - 1]);
    }
  }

  lemma {:induction false} RunKeepsInv(max: nat, ss: seq<State>, acts: seq<Action>, k: nat)
    requires Run(max, ss, acts) && k < |ss| && NeverFull(ss, k)
    ensures Inv(max, ss[k])
    decreases k
  {
    if k == 0 {
      assert InFlight(ss[0]) == {} && Admitted(max, ss[0]) == {};
    } else {
      RunKeepsInv(max, ss, acts, k - 1);
      assert Next(max, ss[k - 1], acts[k - 1], ss[k]) && Load(ss[k]) <= U64_MAX;
      StepKeepsInv(max, ss[k - 1], acts[k - 1]);
    }
  }

  /**
   In every interleaving the requests that poll, with those dropped while polling, never exceed the limit; the counter
   never goes below zero, and counts the requests in flight exactly when none has been dropped.
   */
  lemma PollersNeverExceedLimit(max: nat, ss: seq<State>, acts: seq<Action>, k: nat)
    requires Run(max, ss, acts) && k < |ss| && NeverFull(ss, k)
    ensures |Pollers(ss[k])| + ss[k].dropped <= max
    ensures ss[k].counter == |InFlight(ss[k])| <==> ss[k].dropped == 0
    ensures k < |acts| && (acts[k].TakeBack? || acts[k].Leave?) ==> ss[k].counter > 0
  {
    RunKeepsInv(max, ss, acts, k);
    Subset(Pollers(ss[k]), Admitted(max, ss[k]));
    if k < |acts| {
      assert Next(max, ss[k], acts[k], ss[k + 1]);
      NoUnderflow(max, ss[k], acts[k]);
    }
  }

  /** Only then: a counter that has gone all the way round admits the next request, however many poll already. */
  lemma FullCounterAdmits(max: nat, ss: seq<State>, acts: seq<Action>, k: nat, id: Id)
    requires Run(max, ss, acts) && k < |ss| && Load(ss[k]) == U64_MAX + 1 && max > 0 && id !in ss[k].pcs
    ensures Apply(max, Apply(max, ss[k], Enter(id)), Compare(id)).pcs[id] == Polling
  {
    CounterIsLoad(max, ss, acts, k);
  }

  function Ids(n: nat): (r: set<Id>)
    ensures |r| == n && forall id: Id :: id in r <==> id < n
  {
    if n == 0 then {} else Ids(n - 1) + {n - 1}
  }

  /** The requests 0 to `n - 1` have added one each, and not yet compared. */
  ghost predicate Crowded(s: State, n: nat) {
    s.dropped == 0 && s.pcs.Keys == Ids(n) && forall id :: id in s.pcs ==> s.pcs[id].Added?
  }

  lemma CrowdIsLoad(s: State, n: nat)
    requires Crowded(s, n)
    ensures Load(s) == n && n !in s.pcs
  {
    assert InFlight(s) == Ids(n);
  }

  lemma CrowdGrows(max: nat, s: State, n: nat)
    requires Crowded(s, n)
    ensures Enabled(s, Enter(n)) && Crowded(Apply(max, s, Enter(n)), n + 1)
  {
    assert Apply(max, s, Enter(n)).pcs.Keys == Ids(n) + {n};
  }

  lemma {:induction false} Crowd(max: nat, n: nat) returns (ss: seq<State>, acts: seq<Action>)
    ensures Run(max, ss, acts) && |acts| == n && Crowded(ss[n], n)
  {
    if n == 0 {
      ss, acts := [State(0, map[], 0)], [];
    } else {
      var before, already := Crowd(max, n - 1);
      CrowdGrows(max, before[n - 1], n - 1);
      ss, acts := before + [Apply(max, before[n - 1], Enter(n - 1))], already + [Enter(n - 1)];
      forall i | 0 <= i < n ensures Next(max, ss[i], acts[i], ss[i + 1]) {
        if i < n - 1 { assert Next(max, before[i], already[i], before[i + 1]); }
      }
    }
  }

  /** As many requests at once as the counter has values do bring it there. */
  lemma CounterCanBeFull(max: nat)
    ensures exists ss: seq<State>, acts: seq<Action> ::
              Run(max, ss, acts) && Load(ss[|acts|]) == U64_MAX + 1 && U64_MAX + 1 !in ss[|acts|].pcs
  {
    var ss, acts := Crowd(max, U64_MAX + 1);
    CrowdIsLoad(ss[|acts|], U64_MAX + 1);
  }

  /** Dropped requests keep their place: once they fill the limit, every later request is a short poll. */
  lemma DroppedRequestsKeepTheirPlace(max: nat, ss: seq<State>, acts: seq<Action>, k: nat)
    requires Run(max, ss, acts) && k < |ss| && NeverFull(ss, k) && ss[k].dropped == max
    ensures Pollers(ss[k]) == {} && ss[k].counter >= max
    ensures forall id :: id !in ss[k].pcs ==>
              Apply(max, Apply(max, ss[k], Enter(id)), Compare(id)).pcs[id] == Rejected
  {
    RunKeepsInv(max, ss, acts, k);
    Subset(Pollers(ss[k]), Admitted(max, ss[k]));
  }
}

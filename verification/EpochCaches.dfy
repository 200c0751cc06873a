/**
 The two double-checked caches of per-epoch configuration: gas schedule and execution config
 (api/src/context.rs: `get_gas_schedule`, `execution_onchain_config`).

 Threads take the read lock, look, release it, take the write lock, look again, load, and store value and epoch
 in two separate writes. Any interleaving that the lock allows is a run.

 Assumed: within an epoch the configuration in storage does not change, so a load at any version of an epoch
 gives that epoch's configuration, or fails.
 */
module EpochCaches {
  import opened Wrappers

  type Value = nat
  type Thread = nat

  /** The execution config cache starts with a default value and no epoch, the gas schedule cache with neither. */
  datatype Cache = Cache(epoch: Option<nat>, value: Option<Value>) {
    predicate Hit(e: nat) {
      epoch == Some(e) && value.Some?
    }
  }

  /** The configuration of every epoch. */
  type Configs = nat -> Value

  ghost predicate Matches(cfg: Configs, c: Cache) {
    c.epoch.Some? && c.value.Some? ==> c.value.value == cfg(c.epoch.value)
  }

  // ---------------------------------------------------------------------------------------------
  // One call, with what other threads leave between its two critical sections
  // ---------------------------------------------------------------------------------------------

  class EpochCache {
    var lastUpdatedEpoch: Option<nat>
    var value: Option<Value>

    function View(): Cache
      reads this
    {
      Cache(lastUpdatedEpoch, value)
    }

    /** `left` is the cache as other threads left it when the write lock is granted. */
    method Get(ghost cfg: Configs, epoch: nat, left: Cache, loaded: Result<Value, ()>) returns (r: Result<Value, ()>)
      requires Matches(cfg, View()) && Matches(cfg, left) && (loaded.Ok? ==> loaded.value == cfg(epoch))
      modifies this
      ensures Matches(cfg, View())
      ensures r.Ok? ==> r.value == cfg(epoch)
      ensures old(View()).Hit(epoch) ==> r.Ok? && View() == old(View())
      ensures !old(View()).Hit(epoch) && left.Hit(epoch) ==> r.Ok? && View() == left
      ensures !old(View()).Hit(epoch) && !left.Hit(epoch) ==>
                r == loaded && View() == if loaded.Ok? then Cache(Some(epoch), Some(cfg(epoch))) else left
    {
      if lastUpdatedEpoch == Some(epoch) && value.Some? {
        return Ok(value.value);
      }
      lastUpdatedEpoch, value := left.epoch, left.value;
      if lastUpdatedEpoch == Some(epoch) && value.Some? {
        return Ok(value.value);
      }
      if loaded.Err? {
        return Err(loaded.error);
      }
      value := Some(loaded.value);
      lastUpdatedEpoch := Some(epoch);
      return Ok(loaded.value);
    }
  }

  // ---------------------------------------------------------------------------------------------
  // All interleavings
  // ---------------------------------------------------------------------------------------------

  /** Where a thread is; `before` is the cache when its write lock was granted. */
  datatype Pc =
    | Waiting(e: nat)
    | Reading(e: nat)
    | Missed(e: nat)
    | Writing(e: nat, before: Cache)
    | Loading(e: nat, before: Cache)
    | Loaded(e: nat, v: Value)
    | Stored(e: nat, v: Value)
    | Returned(e: nat, v: Value)
    | Failed(e: nat)

  datatype State = State(threads: map<Thread, Pc>, cache: Cache)

  predicate HoldsWrite(pc: Pc) {
    pc.Writing? || pc.Loading? || pc.Loaded? || pc.Stored?
  }

  predicate HoldsRead(pc: Pc) {
    pc.Reading?
  }

  ghost predicate WriteFree(s: State) {
    forall t :: t in s.threads ==> !HoldsWrite(s.threads[t])
  }

  ghost predicate ReadFree(s: State) {
    forall t :: t in s.threads ==> !HoldsRead(s.threads[t])
  }

  datatype Action = Arrive(who: Thread, epoch: nat) | Advance(t: Thread, outcome: Result<Value, ()>)

  /** The lock admits readers while nobody writes, and a writer while nobody reads or writes. */
  ghost predicate Enabled(cfg: Configs, s: State, a: Action) {
    match a
    case Arrive(t, _) => t !in s.threads
    case Advance(t, outcome) =>
      && t in s.threads
      && match s.threads[t]
         case Waiting(_) => WriteFree(s)
         case Missed(_) => WriteFree(s) && ReadFree(s)
         case Loading(e, _) => outcome.Ok? ==> outcome.value == cfg(e)
         case Returned(_, _) => false
         case Failed(_) => false
         case _ => true
  }

  function AdvancePc(pc: Pc, c: Cache, outcome: Result<Value, ()>): Pc {
    match pc
    case Waiting(e) => Reading(e)
    case Reading(e) => if c.Hit(e) then Returned(e, c.value.value) else Missed(e)
    case Missed(e) => Writing(e, c)
    case Writing(e, before) => if c.Hit(e) then Returned(e, c.value.value) else Loading(e, before)
    case Loading(e, _) => (match outcome case Ok(v) => Loaded(e, v) case Err(_) => Failed(e))
    case Loaded(e, v) => Stored(e, v)
    case Stored(e, v) => Returned(e, v)
    case _ => pc
  }

  function Effect(pc: Pc, c: Cache): Cache {
    match pc
    case Loaded(_, v) => c.(value := Some(v))
    case Stored(e, _) => c.(epoch := Some(e))
    case _ => c
  }

  function Apply(s: State, a: Action): State
    requires a.Advance? ==> a.t in s.threads
  {
    match a
    case Arrive(t, e) => s.(threads := s.threads[t := Waiting(e)])
    case Advance(t, outcome) =>
      State(s.threads[t := AdvancePc(s.threads[t], s.cache, outcome)], Effect(s.threads[t], s.cache))
  }

  ghost predicate Run(cfg: Configs, ss: seq<State>, acts: seq<Action>) {
    && |ss| == |acts| + 1
    && ss[0].threads == map[] && Matches(cfg, ss[0].cache)
    && forall i {:trigger acts[i]} :: 0 <= i < |acts| ==>
         Enabled(cfg, ss[i], acts[i]) && ss[i + 1] == Apply(ss[i], acts[i])
  }

  /** What a thread may rely on at each point. */
  ghost predicate PcOk(cfg: Configs, pc: Pc, c: Cache) {
    match pc
    case Writing(_, before) => before == c
    case Loading(e, before) => before == c && !c.Hit(e)
    case Loaded(e, v) => v == cfg(e) && !c.Hit(e)
    case Stored(e, v) => v == cfg(e) && c.value == Some(v)
    case Returned(e, v) => v == cfg(e)
    case _ => true
  }

  /** A writer is alone. */
  ghost predicate Exclusive(s: State) {
    forall t, u :: t in s.threads && u in s.threads && t != u && HoldsWrite(s.threads[t]) ==>
      !HoldsWrite(s.threads[u]) && !HoldsRead(s.threads[u])
  }

  /** Only a writer between its two writes sees an epoch and a value that do not belong together. */
  ghost predicate Settled(cfg: Configs, s: State) {
    Matches(cfg, s.cache) || exists t :: t in s.threads && s.threads[t].Stored?
  }

  ghost predicate Inv(cfg: Configs, s: State) {
    && Exclusive(s) && Settled(cfg, s)
    && forall t :: t in s.threads ==> PcOk(cfg, s.threads[t], s.cache)
  }

  /** Somebody else in the lock cannot be between the two writes. */
  lemma SettledFor(cfg: Configs, s: State, t: Thread)
    requires Inv(cfg, s) && t in s.threads && !s.threads[t].Stored?
    requires HoldsWrite(s.threads[t]) || HoldsRead(s.threads[t])
    ensures Matches(cfg, s.cache)
  {
  }

  lemma OthersKeep(cfg: Configs, s: State, a: Action, u: Thread)
    requires Inv(cfg, s) && Enabled(cfg, s, a) && a.Advance? && u in s.threads && u != a.t
    ensures PcOk(cfg, s.threads[u], Apply(s, a).cache)
  {
  }

  lemma SelfKeeps(cfg: Configs, s: State, a: Action)
    requires Inv(cfg, s) && Enabled(cfg, s, a) && a.Advance?
    ensures PcOk(cfg, Apply(s, a).threads[a.t], Apply(s, a).cache)
  {
    var pc := s.threads[a.t];
    if HoldsRead(pc) || (HoldsWrite(pc) && !pc.Stored?) { SettledFor(cfg, s, a.t); }
  }

  lemma StaysSettled(cfg: Configs, s: State, a: Action)
    requires Inv(cfg, s) && Enabled(cfg, s, a) && a.Advance?
    ensures Settled(cfg, Apply(s, a))
  {
    if s.threads[a.t].Loaded? { assert Apply(s, a).threads[a.t].Stored?; }
  }

  lemma StaysExclusive(cfg: Configs, s: State, a: Action)
    requires Inv(cfg, s) && Enabled(cfg, s, a)
    ensures Exclusive(Apply(s, a))
  {
  }

  lemma StepKeepsInv(cfg: Configs, s: State, a: Action)
    requires Inv(cfg, s) && Enabled(cfg, s, a)
    ensures Inv(cfg, Apply(s, a))
  {
    var s' := Apply(s, a);
    StaysExclusive(cfg, s, a);
    if a.Advance? {
      StaysSettled(cfg, s, a);
      SelfKeeps(cfg, s, a);
      forall u | u in s'.threads ensures PcOk(cfg, s'.threads[u], s'.cache) {
        if u != a.t { OthersKeep(cfg, s, a, u); }
      }
    } else if !Matches(cfg, s.cache) {
      var u :| u in s.threads && s.threads[u].Stored?;
      assert s'.threads[u].Stored?;
    }
  }

  lemma {:induction false} RunKeepsInv(cfg: Configs, ss: seq<State>, acts: seq<Action>, k: nat)
    requires Run(cfg, ss, acts) && k < |ss|
    ensures Inv(cfg, ss[k])
    decreases k
  {
    if k > 0 {
      RunKeepsInv(cfg, ss, acts, k - 1);
      assert acts[k - 1] == acts[k - 1];
      StepKeepsInv(cfg, ss[k - 1], acts[k - 1]);
    }
  }

  /** In every interleaving a call that succeeds returns the configuration of the epoch it asked for. */
  lemma ReturnsOwnEpoch(cfg: Configs, ss: seq<State>, acts: seq<Action>, k: nat, t: Thread)
    requires Run(cfg, ss, acts) && k < |ss| && t in ss[k].threads && ss[k].threads[t].Returned?
    ensures ss[k].threads[t].v == cfg(ss[k].threads[t].e)
  {
    RunKeepsInv(cfg, ss, acts, k);
  }

  /** Whenever the cache can be read, its epoch and value belong together. */
  lemma ReadableIsConsistent(cfg: Configs, ss: seq<State>, acts: seq<Action>, k: nat)
    requires Run(cfg, ss, acts) && k < |ss|
    requires WriteFree(ss[k]) || !ReadFree(ss[k])
    ensures Matches(cfg, ss[k].cache)
  {
    RunKeepsInv(cfg, ss, acts, k);
  }

  /** A failed load leaves the cache as it was when the write lock was granted. */
  lemma FailedLoadChangesNothing(cfg: Configs, ss: seq<State>, acts: seq<Action>, k: nat)
    requires Run(cfg, ss, acts) && k < |acts| && acts[k].Advance?
    requires ss[k + 1].threads[acts[k].t].Failed?
    ensures ss[k].threads[acts[k].t].Loading? && ss[k + 1].cache == ss[k].threads[acts[k].t].before
  {
    RunKeepsInv(cfg, ss, acts, k);
    assert acts[k] == acts[k];
  }

  // ---------------------------------------------------------------------------------------------
  // What is stored is served
  // ---------------------------------------------------------------------------------------------

  /** Step `k` is the second of the two writes of a call for epoch `e`. */
  ghost predicate StoresAt(ss: seq<State>, acts: seq<Action>, k: nat, e: nat) {
    && k < |acts| && k < |ss| && acts[k].Advance? && acts[k].t in ss[k].threads
    && ss[k].threads[acts[k].t].Stored? && ss[k].threads[acts[k].t].e == e
  }

  /** Step `i` writes the value of an epoch other than `e`. */
  ghost predicate Replaces(ss: seq<State>, acts: seq<Action>, i: nat, e: nat) {
    && i < |acts| && i < |ss| && acts[i].Advance? && acts[i].t in ss[i].threads
    && ss[i].threads[acts[i].t].Loaded? && ss[i].threads[acts[i].t].e != e
  }

  /** The cache holds epoch `e` and nobody is between the two writes. */
  ghost predicate Holds(cfg: Configs, s: State, e: nat) {
    && s.cache == Cache(Some(e), Some(cfg(e)))
    && forall t :: t in s.threads ==> !s.threads[t].Stored?
  }

  lemma StoreHolds(cfg: Configs, ss: seq<State>, acts: seq<Action>, k: nat, e: nat)
    requires Run(cfg, ss, acts) && StoresAt(ss, acts, k, e)
    ensures Holds(cfg, ss[k + 1], e)
  {
    RunKeepsInv(cfg, ss, acts, k);
    assert acts[k] == acts[k];
  }

  lemma {:induction false} HoldsUntilReplaced(cfg: Configs, ss: seq<State>, acts: seq<Action>, k: nat, j: nat, e: nat)
    requires Run(cfg, ss, acts) && StoresAt(ss, acts, k, e) && k < j < |ss|
    requires forall i: nat :: k < i < j ==> !Replaces(ss, acts, i, e)
    ensures Holds(cfg, ss[j], e)
    decreases j
  {
    if j == k + 1 {
      StoreHolds(cfg, ss, acts, k, e);
    } else {
      HoldsUntilReplaced(cfg, ss, acts, k, j - 1, e);
      RunKeepsInv(cfg, ss, acts, j - 1);
      assert acts[j - 1] == acts[j - 1] && !Replaces(ss, acts, j - 1, e);
    }
  }

  /**
   Once a call has stored an epoch's configuration, and until a call for another epoch stores its own, every call for
   that epoch that looks is answered from the cache: it returns the stored value at once and loads nothing.
   */
  lemma StoredIsServed(cfg: Configs, ss: seq<State>, acts: seq<Action>, k: nat, j: nat, e: nat, u: Thread)
    requires Run(cfg, ss, acts) && StoresAt(ss, acts, k, e) && k < j < |acts|
    requires forall i: nat :: k < i < j ==> !Replaces(ss, acts, i, e)
    requires acts[j].Advance? && acts[j].t == u && u in ss[j].threads
    requires ss[j].threads[u].Reading? || ss[j].threads[u].Writing?
    requires ss[j].threads[u].e == e
    ensures ss[j + 1].threads[u] == Returned(e, cfg(e)) && ss[j + 1].cache == Cache(Some(e), Some(cfg(e)))
  {
    HoldsUntilReplaced(cfg, ss, acts, k, j, e);
    assert acts[j] == acts[j];
  }

  predicate Finished(pc: Pc) {
    pc.Returned? || pc.Failed?
  }

  /** The locks never block for good: while a call is unfinished, some thread can go on. */
  lemma NeverStuck(cfg: Configs, s: State, t: Thread)
    requires t in s.threads && !Finished(s.threads[t])
    ensures exists a: Action :: a.Advance? && Enabled(cfg, s, a)
  {
    if u :| u in s.threads && (HoldsWrite(s.threads[u]) || HoldsRead(s.threads[u])) {
      assert Enabled(cfg, s, Advance(u, Err(())));
    } else {
      assert Enabled(cfg, s, Advance(t, Err(())));
    }
  }
}

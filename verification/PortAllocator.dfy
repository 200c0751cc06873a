/**
 Unique ports across processes (config/src/utils.rs: `get_unique_port`).

 A lock file, created exclusively, guards a counter file. The counter walks cyclically over a fixed permutation
 of the port range. `walked` counts, without wrapping, how far the counter has moved since the first call.
 */
module PortAllocator {
  import opened Wrappers

  const MAX_PORT_RETRIES: nat := 1000
  const FIRST_PORT: nat := 10000
  const END_PORT: nat := 30000
  const PORT_COUNT: nat := END_PORT - FIRST_PORT

  /** The shuffled port range, the same in every process. */
  ghost predicate Permutation(ports: seq<nat>) {
    && |ports| == PORT_COUNT
    && (forall i :: 0 <= i < |ports| ==> FIRST_PORT <= ports[i] < END_PORT)
    && (forall i, j :: 0 <= i < j < |ports| ==> ports[i] != ports[j])
  }

  /** There is one: the range itself, in order. */
  lemma RangeIsPermutation()
    ensures Permutation(seq(PORT_COUNT, i => FIRST_PORT + i))
  {
  }

  /** What a file read yields: an unreadable or out-of-range counter counts as zero. */
  function Normalised(stored: Option<nat>): (c: nat)
    ensures c < PORT_COUNT
  {
    if stored.Some? && stored.value < PORT_COUNT then stored.value else 0
  }

  /** The first attempt that binds. */
  ghost predicate FirstFree(free: nat -> bool, k: nat) {
    k < MAX_PORT_RETRIES && free(k) && forall j :: 0 <= j < k ==> !free(j)
  }

  ghost predicate NoneFree(free: nat -> bool) {
    forall k :: 0 <= k < MAX_PORT_RETRIES ==> !free(k)
  }

  lemma NextIndex(n: nat)
    ensures n % PORT_COUNT < PORT_COUNT
    ensures (n + 1) % PORT_COUNT == if n % PORT_COUNT + 1 == PORT_COUNT then 0 else n % PORT_COUNT + 1
  {
  }

  /**
   `free(k)` says whether the k-th attempt binds. The port returned is the first that does, counting cyclically from
   the counter; the new counter is one past it.
   */
  method BindPortFromCounter(ports: seq<nat>, start: nat, free: nat -> bool)
    returns (r: Option<(nat, nat)>, ghost tried: nat)
    requires |ports| == PORT_COUNT && start < PORT_COUNT
    ensures r.Some? ==>
              && FirstFree(free, tried)
              && r.value.0 == ports[(start + tried) % PORT_COUNT]
              && r.value.1 == (start + tried + 1) % PORT_COUNT
    ensures r.None? <==> NoneFree(free)
  {
    var counter := start;
    tried := 0;
    for attempt := 0 to MAX_PORT_RETRIES
      invariant tried == attempt
      invariant counter == (start + attempt) % PORT_COUNT
      invariant forall j :: 0 <= j < attempt ==> !free(j)
    {
      NextIndex(start + attempt);
      var port := ports[counter];
      counter := counter + 1;
      if counter == |ports| {
        counter := 0;
      }
      if free(attempt) {
        return Some((port, counter)), attempt;
      }
      tried := tried + 1;
    }
    return None, tried;
  }

  /** The counter file, while its lock is held. */
  class CounterFile {
    var content: Option<nat>

    /** None where the original panics; the stored counter is then left as it was. */
    method GetUniquePort(ports: seq<nat>, free: nat -> bool) returns (r: Option<nat>)
      requires |ports| == PORT_COUNT
      modifies this
      ensures r.None? ==> NoneFree(free) && content == old(content)
      ensures r.Some? ==> exists k :: FirstFree(free, k)
                            && r.value == ports[(Normalised(old(content)) + k) % PORT_COUNT]
                            && content == Some((Normalised(old(content)) + k + 1) % PORT_COUNT)
    {
      var counter := 0;
      if content.Some? && content.value < |ports| {
        counter := content.value;
      }
      var bound, tried := BindPortFromCounter(ports, counter, free);
      if bound.None? {
        return None;
      }
      content := None;
      content := Some(bound.value.1);
      return Some(bound.value.0);
    }
  }

  // ---------------------------------------------------------------------------------------------
  // Processes
  // ---------------------------------------------------------------------------------------------

  type Process = nat

  /** Where a process is in its call. */
  datatype Pc =
    | Outside
    | Locked
    | HasRead(counter: nat)
    | HasBound(port: nat, updated: nat, at: nat)
    | Truncated(port: nat, updated: nat, at: nat)
    | Written(port: nat, at: nat)
    | Panicking
    | Killed(was: Pc)

  /** A port handed out, and the unwrapped position it was found at. */
  datatype Grant = Grant(port: nat, at: nat)

  datatype State = State(
    lockFile: bool,
    counterFile: Option<nat>,
    pcs: map<Process, Pc>,
    grants: seq<Grant>,
    walked: nat)

  datatype Action = Go(p: Process, free: nat -> bool, tried: nat) | Kill(p: Process)

  ghost predicate Enabled(s: State, a: Action) {
    && a.p in s.pcs
    && !s.pcs[a.p].Killed?
    && (a.Go? ==>
          match s.pcs[a.p]
          case Outside => !s.lockFile
          case HasRead(_) => FirstFree(a.free, a.tried) || NoneFree(a.free)
          case _ => true)
  }

  /** One system call at a time; `walked` moves when the new counter is written. */
  ghost function Apply(ports: seq<nat>, s: State, a: Action): State
    requires a.p in s.pcs && |ports| == PORT_COUNT
  {
    if a.Kill? then s.(pcs := s.pcs[a.p := Killed(s.pcs[a.p])]) else
    match s.pcs[a.p]
    case Outside => s.(lockFile := true, pcs := s.pcs[a.p := Locked])
    case Locked => s.(pcs := s.pcs[a.p := HasRead(Normalised(s.counterFile))])
    case HasRead(c) =>
      if FirstFree(a.free, a.tried) then
        s.(pcs := s.pcs[a.p := HasBound(ports[(c + a.tried) % PORT_COUNT], (c + a.tried + 1) % PORT_COUNT,
                                        s.walked + a.tried)])
      else s.(pcs := s.pcs[a.p := Panicking])
    case HasBound(port, updated, at) =>
      s.(counterFile := None, pcs := s.pcs[a.p := Truncated(port, updated, at)])
    case Truncated(port, updated, at) =>
      s.(counterFile := Some(updated), walked := at + 1, grants := s.grants + [Grant(port, at)],
         pcs := s.pcs[a.p := Written(port, at)])
    case Written(_, _) => s.(lockFile := false, pcs := s.pcs[a.p := Outside])
    case Panicking => s.(lockFile := false, pcs := s.pcs[a.p := Outside])
    case Killed(_) => s
  }

  /** Where a process is, or was when it was killed. */
  function Place(pc: Pc): Pc {
    if pc.Killed? then pc.was else pc
  }

  /** A process killed inside leaves the lock file behind. */
  predicate Holds(pc: Pc) {
    !Place(pc).Outside?
  }

  predicate Rewriting(pc: Pc) {
    Place(pc).Truncated?
  }

  /** What the process inside relies on. */
  ghost predicate PcOk(ports: seq<nat>, s: State, pc: Pc)
    requires |ports| == PORT_COUNT
  {
    match pc
    case HasRead(c) => c == s.walked % PORT_COUNT
    case HasBound(port, updated, at) => BoundAt(ports, s.walked, port, updated, at)
    case Truncated(port, updated, at) => BoundAt(ports, s.walked, port, updated, at)
    case _ => true
  }

  ghost predicate BoundAt(ports: seq<nat>, walked: nat, port: nat, updated: nat, at: nat)
    requires |ports| == PORT_COUNT
  {
    && walked <= at < walked + MAX_PORT_RETRIES
    && port == ports[at % PORT_COUNT] && updated == (at + 1) % PORT_COUNT
  }

  ghost predicate LockOk(s: State) {
    && (forall p :: p in s.pcs && Holds(s.pcs[p]) ==> s.lockFile)
    && (forall p, q :: p in s.pcs && q in s.pcs && Holds(s.pcs[p]) && Holds(s.pcs[q]) ==> p == q)
  }

  /** The lock file is somebody's. */
  ghost predicate LockHeld(s: State) {
    s.lockFile ==> exists p :: p in s.pcs && Holds(s.pcs[p])
  }

  /** Outside the short moment of rewriting, the stored counter is the walk so far, reduced to an index. */
  ghost predicate CounterOk(s: State) {
    || (exists p :: p in s.pcs && Rewriting(s.pcs[p]))
    || (Normalised(s.counterFile) == s.walked % PORT_COUNT && (s.grants != [] ==> s.counterFile.Some?))
  }

  ghost predicate GrantsOk(ports: seq<nat>, s: State)
    requires |ports| == PORT_COUNT
  {
    && (forall i :: 0 <= i < |s.grants| ==>
          s.grants[i].at < s.walked && s.grants[i].port == ports[s.grants[i].at % PORT_COUNT])
    && (forall i :: 0 < i < |s.grants| ==>
          s.grants[i - 1].at < s.grants[i].at <= s.grants[i - 1].at + MAX_PORT_RETRIES)
    && (s.grants != [] ==> s.walked == s.grants[|s.grants| - 1].at + 1 && (s.counterFile.Some? ==>
          s.counterFile.value < PORT_COUNT))
  }

  ghost predicate Inv(ports: seq<nat>, s: State) {
    && Permutation(ports)
    && LockOk(s) && LockHeld(s) && CounterOk(s) && GrantsOk(ports, s)
    && forall p :: p in s.pcs ==> PcOk(ports, s, s.pcs[p])
  }

  lemma LockStays(ports: seq<nat>, s: State, a: Action)
    requires Inv(ports, s) && Enabled(s, a)
    ensures LockOk(Apply(ports, s, a))
  {
  }

  lemma HolderStays(ports: seq<nat>, s: State, a: Action)
    requires |ports| == PORT_COUNT && LockOk(s) && LockHeld(s) && Enabled(s, a)
    ensures LockHeld(Apply(ports, s, a))
  {
    var s' := Apply(ports, s, a);
    if s.lockFile {
      var p :| p in s.pcs && Holds(s.pcs[p]);
      assert p in s'.pcs && (a.p == p || s'.pcs[p] == s.pcs[p]);
      if s'.lockFile && a.p == p { assert Holds(s'.pcs[p]); }
    } else if s'.lockFile {
      assert Holds(s'.pcs[a.p]);
    }
  }

  lemma ModStep(walked: nat, tried: nat)
    ensures (walked % PORT_COUNT + tried) % PORT_COUNT == (walked + tried) % PORT_COUNT
  {
  }

  lemma PcStays(ports: seq<nat>, s: State, a: Action, p: Process)
    requires Inv(ports, s) && Enabled(s, a) && p in s.pcs
    ensures PcOk(ports, Apply(ports, s, a), Apply(ports, s, a).pcs[p])
  {
    if p == a.p && a.Go? {
      ModStep(s.walked, a.tried);
      ModStep(s.walked, a.tried + 1);
    }
  }

  lemma CounterStays(ports: seq<nat>, s: State, a: Action)
    requires Inv(ports, s) && Enabled(s, a)
    ensures CounterOk(Apply(ports, s, a))
  {
    var s' := Apply(ports, s, a);
    if a.Go? && s.pcs[a.p].HasBound? { assert Rewriting(s'.pcs[a.p]); }
    if a.Kill? && (exists p :: p in s.pcs && Rewriting(s.pcs[p])) {
      var p :| p in s.pcs && Rewriting(s.pcs[p]);
      assert Rewriting(s'.pcs[p]);
    }
  }

  lemma GrantsStay(ports: seq<nat>, s: State, a: Action)
    requires Inv(ports, s) && Enabled(s, a)
    ensures GrantsOk(ports, Apply(ports, s, a))
  {
    if a.Go? && s.pcs[a.p].Truncated? {
      var pc := s.pcs[a.p];
      assert PcOk(ports, s, pc);
      GrantAppended(ports, s, Apply(ports, s, a), pc.port, pc.updated, pc.at);
    }
  }

  lemma GrantAppended(ports: seq<nat>, s: State, s': State, port: nat, updated: nat, at: nat)
    requires |ports| == PORT_COUNT && GrantsOk(ports, s) && BoundAt(ports, s.walked, port, updated, at)
    requires s'.grants == s.grants + [Grant(port, at)] && s'.walked == at + 1 && s'.counterFile == Some(updated)
    ensures GrantsOk(ports, s')
  {
    forall i | 0 <= i < |s'.grants|
      ensures s'.grants[i].at < s'.walked && s'.grants[i].port == ports[s'.grants[i].at % PORT_COUNT]
    {
      if i < |s.grants| { assert s'.grants[i] == s.grants[i]; }
    }
    forall i | 0 < i < |s'.grants|
      ensures s'.grants[i - 1].at < s'.grants[i].at <= s'.grants[i - 1].at + MAX_PORT_RETRIES
    {
      if i < |s.grants| { assert s'.grants[i] == s.grants[i]; }
    }
  }

  lemma StepKeepsInv(ports: seq<nat>, s: State, a: Action)
    requires Inv(ports, s) && Enabled(s, a)
    ensures Inv(ports, Apply(ports, s, a))
  {
    LockStays(ports, s, a);
    HolderStays(ports, s, a);
    CounterStays(ports, s, a);
    GrantsStay(ports, s, a);
    forall p | p in Apply(ports, s, a).pcs ensures PcOk(ports, Apply(ports, s, a), Apply(ports, s, a).pcs[p]) {
      PcStays(ports, s, a, p);
    }
  }

  /** Any number of processes, none inside; the walk begins at whatever counter the file holds. */
  ghost predicate Start(s: State) {
    && !s.lockFile && s.grants == [] && s.walked == Normalised(s.counterFile)
    && forall p :: p in s.pcs ==> s.pcs[p].Outside?
  }

  ghost predicate Run(ports: seq<nat>, ss: seq<State>, acts: seq<Action>) {
    && Permutation(ports)
    && |ss| == |acts| + 1
    && Start(ss[0])
    && forall i {:trigger acts[i]} :: 0 <= i < |acts| ==>
         Enabled(ss[i], acts[i]) && ss[i + 1] == Apply(ports, ss[i], acts[i])
  }

  lemma {:induction false} RunKeepsInv(ports: seq<nat>, ss: seq<State>, acts: seq<Action>, k: nat)
    requires Run(ports, ss, acts) && k < |ss|
    ensures Inv(ports, ss[k])
    decreases k
  {
    if k > 0 {
      RunKeepsInv(ports, ss, acts, k - 1);
      assert acts[k - 1] == acts[k - 1];
      StepKeepsInv(ports, ss[k - 1], acts[k - 1]);
    }
  }

  // ---------------------------------------------------------------------------------------------
  // What holds of every interleaving
  // ---------------------------------------------------------------------------------------------

  lemma {:induction false} GrantsMoveOn(ports: seq<nat>, s: State, i: nat, j: nat)
    requires Inv(ports, s) && i <= j < |s.grants|
    ensures s.grants[i].at + (j - i) <= s.grants[j].at <= s.grants[i].at + (j - i) * MAX_PORT_RETRIES
    decreases j - i
  {
    if i < j { GrantsMoveOn(ports, s, i, j - 1); }
  }

  lemma SameResidue(ports: seq<nat>, a: nat, b: nat)
    requires Permutation(ports) && a < b && ports[a % PORT_COUNT] == ports[b % PORT_COUNT]
    ensures b - a >= PORT_COUNT
  {
    assert a % PORT_COUNT == b % PORT_COUNT;
  }

  /**
   Whatever the interleaving, ports are handed out along one cyclic walk over the permutation; the same port comes
   again only after the walk has gone all the way round, so not before twenty further calls have succeeded.
   */
  lemma PortsRepeatOnlyAfterFullCycle(ports: seq<nat>, ss: seq<State>, acts: seq<Action>, k: nat, i: nat, j: nat)
    requires Run(ports, ss, acts) && k < |ss| && i < j < |ss[k].grants|
    requires ss[k].grants[i].port == ss[k].grants[j].port
    ensures ss[k].grants[j].at - ss[k].grants[i].at >= PORT_COUNT
    ensures j - i >= 20
  {
    RunKeepsInv(ports, ss, acts, k);
    GrantsMoveOn(ports, ss[k], i, j);
    SameResidue(ports, ss[k].grants[i].at, ss[k].grants[j].at);
  }

  lemma PortsAreInRange(ports: seq<nat>, ss: seq<State>, acts: seq<Action>, k: nat, i: nat)
    requires Run(ports, ss, acts) && k < |ss| && i < |ss[k].grants|
    ensures var g := ss[k].grants[i];
            g.port == ports[g.at % PORT_COUNT] && FIRST_PORT <= g.port < END_PORT
  {
    RunKeepsInv(ports, ss, acts, k);
  }

  /** Once a counter has been written, the file holds a valid index whenever nobody is rewriting it. */
  lemma StoredCounterIsAnIndex(ports: seq<nat>, ss: seq<State>, acts: seq<Action>, k: nat)
    requires Run(ports, ss, acts) && k < |ss| && ss[k].grants != []
    requires forall p :: p in ss[k].pcs ==> !Rewriting(ss[k].pcs[p])
    ensures ss[k].counterFile == Some(ss[k].walked % PORT_COUNT)
  {
    RunKeepsInv(ports, ss, acts, k);
  }

  /** A process killed inside the lock: nobody else ever gets in, so nothing is granted and nothing written again. */
  lemma {:induction false} KilledInsideBlocksAll(ports: seq<nat>, ss: seq<State>, acts: seq<Action>, j: nat, k: nat,
                                                 p: Process)
    requires Run(ports, ss, acts) && j <= k < |ss|
    requires p in ss[j].pcs && ss[j].pcs[p].Killed? && Holds(ss[j].pcs[p])
    ensures ss[k].lockFile && p in ss[k].pcs && ss[k].pcs[p] == ss[j].pcs[p]
    ensures ss[k].grants == ss[j].grants && ss[k].counterFile == ss[j].counterFile
    decreases k - j
  {
    RunKeepsInv(ports, ss, acts, j);
    if j < k {
      KilledInsideBlocksAll(ports, ss, acts, j, k - 1, p);
      RunKeepsInv(ports, ss, acts, k - 1);
      var a := acts[k - 1];
      assert a.p != p && !Holds(ss[k - 1].pcs[a.p]);
    }
  }

  /** At most one process is between taking and removing the lock file, counting one killed there. */
  lemma OneProcessInside(ports: seq<nat>, ss: seq<State>, acts: seq<Action>, k: nat, p: Process, q: Process)
    requires Run(ports, ss, acts) && k < |ss| && p in ss[k].pcs && q in ss[k].pcs
    requires Holds(ss[k].pcs[p]) && Holds(ss[k].pcs[q])
    ensures p == q && ss[k].lockFile
  {
    RunKeepsInv(ports, ss, acts, k);
  }

  // ---------------------------------------------------------------------------------------------
  // What one call does
  // ---------------------------------------------------------------------------------------------

  /** Process `p` goes on from state to state, alone, its attempts binding as `free` says. */
  ghost predicate Alone(ports: seq<nat>, ss: seq<State>, p: Process, free: nat -> bool, tried: nat)
    requires |ports| == PORT_COUNT
  {
    && ss != []
    && forall i :: 0 <= i < |ss| - 1 ==>
         Enabled(ss[i], Go(p, free, tried)) && ss[i + 1] == Apply(ports, ss[i], Go(p, free, tried))
  }

  /**
   A call that finds the lock free takes it, hands out the first port that binds counting cyclically from the stored
   counter, empties the file, stores one past it, and leaves the lock free and every other process where it was.
   */
  lemma CallGrantsFirstFree(ports: seq<nat>, s: State, p: Process, free: nat -> bool, tried: nat)
    returns (ss: seq<State>)
    requires |ports| == PORT_COUNT && p in s.pcs && s.pcs[p].Outside? && !s.lockFile && FirstFree(free, tried)
    ensures Alone(ports, ss, p, free, tried) && |ss| == 7 && ss[0] == s
    ensures var at := Normalised(s.counterFile) + tried;
            && ss[6].counterFile == Some((at + 1) % PORT_COUNT)
            && ss[6].grants == s.grants + [Grant(ports[at % PORT_COUNT], s.walked + tried)]
            && ss[4].counterFile == None
            && ss[5].pcs[p] == Written(ports[at % PORT_COUNT], s.walked + tried)
            && ss[6].pcs == s.pcs && !ss[6].lockFile && forall i :: 0 < i < 6 ==> ss[i].lockFile
  {
    var a := Go(p, free, tried);
    var s1 := Apply(ports, s, a);
    var s2 := Apply(ports, s1, a);
    var s3 := Apply(ports, s2, a);
    var s4 := Apply(ports, s3, a);
    var s5 := Apply(ports, s4, a);
    ss := [s, s1, s2, s3, s4, s5, Apply(ports, s5, a)];
    assert ss[6].pcs == s.pcs;
  }

  /** A call for which no attempt binds panics and leaves everything as it found it, the lock included. */
  lemma CallWithoutPortLeavesNothing(ports: seq<nat>, s: State, p: Process, free: nat -> bool)
    returns (ss: seq<State>)
    requires |ports| == PORT_COUNT && p in s.pcs && s.pcs[p].Outside? && !s.lockFile && NoneFree(free)
    ensures Alone(ports, ss, p, free, 0) && |ss| == 5 && ss[0] == s && ss[4] == s && ss[3].pcs[p].Panicking?
  {
    var a := Go(p, free, 0);
    var s1 := Apply(ports, s, a);
    var s2 := Apply(ports, s1, a);
    var s3 := Apply(ports, s2, a);
    ss := [s, s1, s2, s3, Apply(ports, s3, a)];
    assert ss[4].pcs == s.pcs;
  }

  /** Unless one was killed inside, some process that is alive can always go on: the lock is never left behind. */
  lemma SomeoneCanGoOn(ports: seq<nat>, ss: seq<State>, acts: seq<Action>, k: nat, p: Process)
    requires Run(ports, ss, acts) && k < |ss| && p in ss[k].pcs && !ss[k].pcs[p].Killed?
    requires forall q :: q in ss[k].pcs && ss[k].pcs[q].Killed? ==> !Holds(ss[k].pcs[q])
    ensures exists a: Action :: a.Go? && Enabled(ss[k], a)
  {
    RunKeepsInv(ports, ss, acts, k);
    var q := p;
    if ss[k].lockFile { q :| q in ss[k].pcs && Holds(ss[k].pcs[q]); }
    assert Enabled(ss[k], Go(q, _ => false, 0));
  }
}

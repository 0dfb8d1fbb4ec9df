/**
 * The lazily booted engine singleton that both in-browser runners keep at module
 * level: `webcontainerInstance` with `isBooting` in WebContainerRunner.ts, and
 * `pyodideInstance` with `isLoading` in PyodideRunner.ts.  The two files repeat
 * the same code; it is modelled once, with the engine kind fixing the messages.
 *
 * Every caller that reaches the acquisition is recorded as a task, so that the
 * single-flight rule (at most one boot in flight, waiters never boot) is an
 * object invariant over all interleavings of `Begin`, `Settle` and `Poll`.
 */
module EngineHandle {
  import opened Types

  datatype Kind = Container | Interpreter

  /** An engine instance, known only by its identity. */
  type Instance = nat

  /** Where one caller stands in the acquisition. */
  datatype Phase =
    | Booting                  // started the boot and awaits it
    | Waiting                  // found a boot in flight and polls the flag
    | Acquired(instance: Instance)
    | Failed(fault: Fault)

  /** Notice streamed when a caller starts a boot. */
  function BootNotice(kind: Kind): string {
    match kind
    case Container => "System: Booting WebContainer (Node.js environment)...\n"
    case Interpreter => "System: Downloading Python 3.12 (first time only - 8-12 MB)...\n"
  }

  /** Notice streamed when that boot succeeds. */
  function ReadyNotice(kind: Kind): string {
    match kind
    case Container => "System: WebContainer ready!\n\n"
    case Interpreter => "System: Python ready!\n\n"
  }

  /** The error a caller throws when it still has no instance after the wait. */
  function InitFailure(kind: Kind): Fault {
    match kind
    case Container => Raised("Failed to initialize WebContainer")
    case Interpreter => Raised("Failed to initialize Pyodide")
  }

  /**
   * What one caller ends up with, given the state it arrives in, the outcome of
   * the boot it would start, and the outcome of the boot already in flight.
   */
  function AcquireOutcome(kind: Kind, instance: Option<Instance>, busy: bool,
                          boot: Result<Instance>, inflight: Result<Instance>): Result<Instance> {
    if instance.Some? then Ok(instance.value)
    else if !busy then boot
    else if inflight.Ok? then inflight
    else Err(InitFailure(kind))
  }

  /** What the rest of the program sees of an engine: its instance, its flag, and how many boots it started. */
  datatype EngineState = EngineState(instance: Option<Instance>, busy: bool, boots: nat)

  /** Whether a caller arriving in state `s` starts a boot. */
  predicate StartsBoot(s: EngineState) {
    s.instance.None? && !s.busy
  }

  /** The engine after one caller's acquisition: it holds what the caller acquired, and the flag is down. */
  function AfterAcquire(kind: Kind, s: EngineState, boot: Result<Instance>, inflight: Result<Instance>): EngineState {
    var r := AcquireOutcome(kind, s.instance, s.busy, boot, inflight);
    EngineState(if r.Ok? then Some(r.value) else None, false, s.boots + (if StartsBoot(s) then 1 else 0))
  }

  /**
   * A booting caller leaves the instance its boot produced, or none when the
   * boot failed, so that the next caller boots again; a caller that finds an
   * instance changes nothing; a waiter starts no boot.  In every case the flag
   * ends down.
   */
  lemma AcquireEffect(kind: Kind, s: EngineState, boot: Result<Instance>, inflight: Result<Instance>)
    ensures var t := AfterAcquire(kind, s, boot, inflight);
      !t.busy
      && (s.instance.Some? ==> t == s.(busy := false))
      && (StartsBoot(s) ==> t.boots == s.boots + 1 && (t.instance.Some? <==> boot.Ok?)
                            && (boot.Ok? ==> t.instance == Some(boot.value)))
      && (StartsBoot(s) && boot.Err? ==> StartsBoot(t))
      && (!StartsBoot(s) ==> t.boots == s.boots)
  {
  }

  /** The engine after a series of acquisitions, each with its own boot and in-flight outcomes. */
  function AfterAcquires(kind: Kind, s: EngineState, runs: seq<(Result<Instance>, Result<Instance>)>): EngineState
    decreases |runs|
  {
    if runs == [] then s else AfterAcquires(kind, AfterAcquire(kind, s, runs[0].0, runs[0].1), runs[1..])
  }

  /**
   * Once an acquisition has left an instance, every later acquisition finds
   * it: the engine does not change again and no further boot starts, whatever
   * any later boot would have done.
   */
  lemma {:induction false} BootedStays(kind: Kind, s: EngineState, runs: seq<(Result<Instance>, Result<Instance>)>)
    requires s.instance.Some? && !s.busy
    ensures AfterAcquires(kind, s, runs) == s
  {
    if runs != [] {
      assert AfterAcquire(kind, s, runs[0].0, runs[0].1) == s;
      BootedStays(kind, s, runs[1..]);
    }
  }

  /**
   * On an engine that never booted, a series of runs whose first boot succeeds
   * boots exactly once and keeps that instance.
   */
  lemma FirstBootServesAll(kind: Kind, s: EngineState, boot: Instance, inflight: Result<Instance>,
                           runs: seq<(Result<Instance>, Result<Instance>)>)
    requires StartsBoot(s)
    ensures var t := AfterAcquires(kind, s, [(Ok(boot), inflight)] + runs);
      t.boots == s.boots + 1 && t.instance == Some(boot) && !t.busy
  {
    var runs' := [(Ok(boot), inflight)] + runs;
    assert runs'[1..] == runs;
    BootedStays(kind, AfterAcquire(kind, s, Ok(boot), inflight), runs);
  }

  /** How many callers are booting. */
  function BootingCount(tasks: seq<Phase>): nat {
    if tasks == [] then 0
    else BootingCount(tasks[..|tasks| - 1]) + (if tasks[|tasks| - 1] == Booting then 1 else 0)
  }

  lemma {:induction false} BootingCountUpdate(tasks: seq<Phase>, t: nat, p: Phase)
    requires t < |tasks|
    ensures BootingCount(tasks[t := p]) ==
      BootingCount(tasks) - (if tasks[t] == Booting then 1 else 0) + (if p == Booting then 1 else 0)
  {
    var n := |tasks| - 1;
    if t < n {
      assert tasks[t := p][..n] == tasks[..n][t := p];
      BootingCountUpdate(tasks[..n], t, p);
    } else {
      assert tasks[t := p][..n] == tasks[..n];
    }
  }

  lemma {:induction false} BootingCountZero(tasks: seq<Phase>)
    requires BootingCount(tasks) == 0
    ensures forall t :: 0 <= t < |tasks| ==> tasks[t] != Booting
  {
    if tasks != [] {
      BootingCountZero(tasks[..|tasks| - 1]);
      assert forall t :: 0 <= t < |tasks| - 1 ==> tasks[t] == tasks[..|tasks| - 1][t];
    }
  }

  /** The one booting caller, when there is one, is the only one. */
  lemma BootingCountOne(tasks: seq<Phase>, t: nat)
    requires BootingCount(tasks) == 1 && t < |tasks| && tasks[t] == Booting
    ensures forall u :: 0 <= u < |tasks| && u != t ==> tasks[u] != Booting
  {
    BootingCountUpdate(tasks, t, Waiting);
    BootingCountZero(tasks[t := Waiting]);
    assert forall u :: 0 <= u < |tasks| && u != t ==> tasks[t := Waiting][u] == tasks[u];
  }

  lemma {:induction false} BootingCountPositive(tasks: seq<Phase>)
    requires BootingCount(tasks) > 0
    ensures exists t :: 0 <= t < |tasks| && tasks[t] == Booting
  {
    var n := |tasks| - 1;
    if tasks[n] != Booting {
      BootingCountPositive(tasks[..n]);
      var t :| 0 <= t < n && tasks[..n][t] == Booting;
      assert tasks[t] == Booting;
    }
  }

  lemma BootingCountAppend(tasks: seq<Phase>, p: Phase)
    ensures BootingCount(tasks + [p]) == BootingCount(tasks) + (if p == Booting then 1 else 0)
  {
    assert (tasks + [p])[..|tasks|] == tasks;
  }

  /** `n` copies of `p`. */
  function Repeat(p: Phase, n: nat): (r: seq<Phase>)
    ensures |r| == n
  {
    seq(n, _ => p)
  }

  lemma RepeatSnoc(p: Phase, n: nat)
    ensures Repeat(p, n) + [p] == Repeat(p, n + 1)
  {
  }

  /** Turning the first of the trailing `b`s into an `a`. */
  lemma RepeatShift(pre: seq<Phase>, a: Phase, b: Phase, i: nat, n: nat)
    requires i < n
    ensures (pre + Repeat(a, i) + Repeat(b, n - i))[|pre| + i] == b
    ensures (pre + Repeat(a, i) + Repeat(b, n - i))[|pre| + i := a] == pre + Repeat(a, i + 1) + Repeat(b, n - i - 1)
  {
  }

  /** Replacing the middle element of `pre + [a] + post`, and cutting there. */
  lemma SplitAround(pre: seq<Phase>, a: Phase, b: Phase, post: seq<Phase>)
    ensures (pre + [a] + post)[|pre| := b] == pre + [b] + post
    ensures (pre + [b] + post)[..|pre| + 1] == pre + [b]
    ensures (pre + [b] + post)[|pre| + 1..] == post
  {
  }

  lemma RepeatCons(pre: seq<Phase>, p: Phase, n: nat)
    ensures pre + [p] + Repeat(p, n) == pre + Repeat(p, n + 1)
  {
  }

  /** What one caller streams during its acquisition: notices only when it boots. */
  function AcquireNotices(kind: Kind, instance: Option<Instance>, busy: bool, boot: Result<Instance>): seq<string> {
    if instance.None? && !busy then [BootNotice(kind)] + (if boot.Ok? then [ReadyNotice(kind)] else [])
    else []
  }

  /** The engine invariant, on the values of its fields. */
  ghost predicate Consistent(tasks: seq<Phase>, instance: Option<Instance>, busy: bool) {
    // the flag is up exactly while one caller's boot is in flight
    && BootingCount(tasks) == (if busy then 1 else 0)
    // nobody boots once there is an instance
    && (instance.Some? ==> !busy)
    // every caller that acquired holds the one instance
    && (forall t :: 0 <= t < |tasks| && tasks[t].Acquired? ==> instance == Some(tasks[t].instance))
  }

  /** The phase a newly arriving caller takes. */
  function Arrival(instance: Option<Instance>, busy: bool): Phase {
    if instance.Some? then Acquired(instance.value) else if busy then Waiting else Booting
  }

  /** A new arrival keeps the invariant, the flag going up when it boots. */
  lemma ArrivalKeepsConsistent(tasks: seq<Phase>, instance: Option<Instance>, busy: bool)
    requires Consistent(tasks, instance, busy)
    ensures Consistent(tasks + [Arrival(instance, busy)], instance, busy || Arrival(instance, busy) == Booting)
  {
    var p := Arrival(instance, busy);
    BootingCountAppend(tasks, p);
    assert forall k :: 0 <= k < |tasks| ==> (tasks + [p])[k] == tasks[k];
  }

  class Engine {
    const kind: Kind
    var instance: Option<Instance>   // the singleton, once booted
    var busy: bool                   // `isBooting` / `isLoading`
    var tasks: seq<Phase>            // every caller so far, in arrival order
    var boots: nat                   // boot operations started so far

    ghost predicate Valid()
      reads this
    {
      Consistent(tasks, instance, busy)
    }

    /** The engine as the runners see it. */
    function State(): EngineState
      reads this
    {
      EngineState(instance, busy, boots)
    }

    /** Page load: no instance, flag down. */
    constructor (k: Kind)
      ensures Valid()
      ensures kind == k && instance == None && !busy && tasks == [] && boots == 0
    {
      kind := k;
      instance := None;
      busy := false;
      tasks := [];
      boots := 0;
    }

    /**
     * A caller reaches the acquisition: it takes the instance if there is one,
     * waits if a boot is in flight, and otherwise raises the flag and boots.
     */
    method Begin() returns (t: nat)
      requires Valid()
      modifies this
      ensures Valid()
      ensures t == |old(tasks)| && tasks == old(tasks) + [Arrival(old(instance), old(busy))]
      ensures instance == old(instance) && busy == (old(busy) || tasks[t].Booting?)
      ensures boots == old(boots) + (if tasks[t].Booting? then 1 else 0)
    {
      t := |tasks|;
      var p := Arrival(instance, busy);
      ArrivalKeepsConsistent(tasks, instance, busy);
      tasks := tasks + [p];
      if p.Booting? {
        busy := true;
        boots := boots + 1;
      }
    }

    /**
     * The boot started by caller `t` settles.  On success the instance is
     * stored and the flag lowered; on failure the caller's `catch` lowers the
     * flag, so a later caller may boot again.
     */
    method Settle(t: nat, outcome: Result<Instance>) returns (emitted: seq<string>)
      requires Valid() && t < |tasks| && tasks[t] == Booting
      modifies this
      ensures Valid() && !busy && boots == old(boots)
      ensures outcome.Ok? ==>
        instance == Some(outcome.value) && tasks == old(tasks)[t := Acquired(outcome.value)] && emitted == [ReadyNotice(kind)]
      ensures outcome.Err? ==>
        instance == None && tasks == old(tasks)[t := Failed(outcome.fault)] && emitted == []
    {
      BootingCountUpdate(tasks, t, if outcome.Ok? then Acquired(outcome.value) else Failed(outcome.fault));
      if outcome.Ok? {
        BootingCountOne(tasks, t);
        instance := Some(outcome.value);
        tasks := tasks[t := Acquired(outcome.value)];
        emitted := [ReadyNotice(kind)];
      } else {
        tasks := tasks[t := Failed(outcome.fault)];
        emitted := [];
      }
      busy := false;
    }

    /**
     * A waiting caller wakes up: while the flag is up it keeps waiting; once it
     * is down it takes the instance, or fails if the boot it waited for failed.
     */
    method Poll(t: nat)
      requires Valid() && 0 <= t < |tasks| && tasks[t] == Waiting
      modifies this
      ensures Valid()
      ensures instance == old(instance) && busy == old(busy) && boots == old(boots)
      ensures busy ==> tasks == old(tasks)
      ensures !busy && instance.Some? ==> tasks == old(tasks)[t := Acquired(instance.value)]
      ensures !busy && instance.None? ==> tasks == old(tasks)[t := Failed(InitFailure(kind))]
    {
      if !busy {
        if instance.Some? {
          tasks := tasks[t := Acquired(instance.value)];
        } else {
          tasks := tasks[t := Failed(InitFailure(kind))];
        }
        BootingCountUpdate(old(tasks), t, tasks[t]);
      }
    }

    /**
     * One caller's whole acquisition.  A caller that finds a boot in flight
     * resumes after that boot has settled (with outcome `inflight`), as the
     * polling loop does; it never starts a boot of its own.
     */
    method Acquire(boot: Result<Instance>, inflight: Result<Instance>) returns (r: Result<Instance>, emitted: seq<string>)
      requires Valid()
      modifies this
      ensures Valid() && !busy
      ensures r == AcquireOutcome(kind, old(instance), old(busy), boot, inflight)
      ensures boots == old(boots) + (if old(instance).None? && !old(busy) then 1 else 0)
      ensures emitted == AcquireNotices(kind, old(instance), old(busy), boot)
      ensures r.Ok? ==> instance == Some(r.value)
      ensures r.Err? ==> instance == None
    {
      var t := Begin();
      emitted := if tasks[t].Booting? then [BootNotice(kind)] else [];
      if tasks[t] == Booting {
        var more := Settle(t, boot);
        emitted := emitted + more;
      } else if tasks[t] == Waiting {
        BootingCountPositive(tasks);
        var b :| 0 <= b < |tasks| && tasks[b] == Booting;
        BootingCountOne(tasks, b);
        var _ := Settle(b, inflight);   // the in-flight boot settles while this caller waits
        Poll(t);
      }
      match tasks[t]
      case Acquired(i) => r := Ok(i);
      case Failed(f) => r := Err(f);
    }

    /** `n` more callers arrive while a boot is in flight: all of them wait. */
    method ArriveWhileBooting(n: nat)
      requires Valid() && busy
      modifies this
      ensures Valid() && busy && instance == old(instance) && boots == old(boots)
      ensures tasks == old(tasks) + Repeat(Waiting, n)
    {
      var i := 0;
      while i < n
        invariant Valid() && busy && instance == old(instance) && boots == old(boots)
        invariant 0 <= i <= n && tasks == old(tasks) + Repeat(Waiting, i)
      {
        var t := Begin();
        RepeatSnoc(Waiting, i);
        i := i + 1;
      }
    }

    /** The waiting callers `from .. from+n-1` wake up after the boot has settled. */
    method WakeAll(from: nat, n: nat)
      requires Valid() && !busy
      requires from + n == |tasks| && tasks[from..] == Repeat(Waiting, n)
      modifies this
      ensures Valid() && !busy && instance == old(instance) && boots == old(boots)
      ensures tasks == old(tasks)[..from] +
        Repeat(if instance.Some? then Acquired(instance.value) else Failed(InitFailure(kind)), n)
    {
      ghost var settled := if instance.Some? then Acquired(instance.value) else Failed(InitFailure(kind));
      ghost var pre := old(tasks)[..from];
      assert tasks == pre + Repeat(settled, 0) + Repeat(Waiting, n);
      var i := 0;
      while i < n
        invariant Valid() && !busy && instance == old(instance) && boots == old(boots)
        invariant 0 <= i <= n && tasks == pre + Repeat(settled, i) + Repeat(Waiting, n - i)
      {
        ghost var before := tasks;
        RepeatShift(pre, settled, Waiting, i, n);
        Poll(from + i);
        assert tasks == before[from + i := settled];
        i := i + 1;
      }
    }

    /**
     * N more callers arrive at an engine that has never booted (the first run
     * of a page): exactly one boot starts, and every caller ends with the
     * instance it produced; if it fails, the booting caller fails with the
     * boot's error and every waiter with the initialisation error.
     */
    method SingleFlight(n: nat, outcome: Result<Instance>) returns (first: nat)
      requires Valid() && instance.None? && !busy
      modifies this
      ensures Valid() && !busy
      ensures boots == old(boots) + 1
      ensures first == |old(tasks)|
      ensures outcome.Ok? ==> tasks == old(tasks) + Repeat(Acquired(outcome.value), n + 1)
      ensures outcome.Err? ==> tasks == old(tasks) + [Failed(outcome.fault)] + Repeat(Failed(InitFailure(kind)), n)
    {
      first := Begin();
      ArriveWhileBooting(n);
      ghost var start := old(tasks);
      var notices := Settle(first, outcome);
      ghost var head := tasks[first];
      SplitAround(start, Booting, head, Repeat(Waiting, n));
      WakeAll(first + 1, n);
      ghost var settled := if outcome.Ok? then Acquired(outcome.value) else Failed(InitFailure(kind));
      if outcome.Ok? {
        RepeatCons(start, settled, n);
      }
    }
  }
}

/**
 What workers and tools achieve: every step's effect on leases, records and helpers, a worker's whole life
 without a failure, and the two ways a kill succeeds.
 */
module WorkerOutcomes {
  import opened Options
  import opened WorkerLease
  import opened WorkerSystem

  // ----- single steps -----

  /** Apart from what belongs to worker `w` of instance `id`, nothing has changed. */
  ghost predicate OnlyOwn(s: Shared, t: Shared, id: Id, w: Worker) {
    && t.leases - {id} == s.leases - {id} && t.records - {id} == s.records - {id}
    && t.helpers - {(id, w)} == s.helpers - {(id, w)}
  }

  /** The lease is taken exactly when free; a helper is there once made and until closed. */
  lemma LeaseAndHelper(s: Shared, w: Worker, p: Proc)
    ensures var t := Effect(s, w, p, Acquire(true));
            (t.Some? <==> p.id !in s.leases) && (t.Some? ==> t.value == s.(leases := s.leases[p.id := ByWorker(w)]))
    ensures Effect(s, w, p, Acquire(false)) == Some(s)
    ensures forall ok, made :: Effect(s, w, p, CreateHelper(ok, made)) ==
                               Some(if made then s.(helpers := s.helpers + {(p.id, w)}) else s)
    ensures forall ok, gone :: Effect(s, w, p, CloseHelper(ok, gone)) ==
                               Some(if gone then s.(helpers := s.helpers - {(p.id, w)}) else s)
    ensures forall ok, released ::
              var t := Effect(s, w, p, CloseLease(ok, released));
              t.Some? && t.value.records == s.records && t.value.helpers == s.helpers && t.value.leases - {p.id} == s.leases - {p.id}
              && (p.id in t.value.leases <==> p.id in s.leases && !(released && s.leases[p.id] == ByWorker(w)))
  {
  }

  /** A record is stored only where there is none, and removed exactly when it bears the given process ID. */
  lemma RecordComesAndGoes(s: Shared, w: Worker, p: Proc)
    ensures forall ok :: var t := Effect(s, w, p, Publish(ok, true));
                         && (t.Some? <==> p.id !in s.records)
                         && (t.Some? ==> t.value == s.(records := s.records[p.id := Record(p.pid, w)]))
    ensures forall ok :: Effect(s, w, p, Publish(ok, false)) == Some(s)
    ensures Effect(s, w, p, RemoveRecord(false)) == Some(s)
    ensures var t := Effect(s, w, p, RemoveRecord(true));
            && t.Some? && t.value.leases == s.leases && t.value.helpers == s.helpers
            && t.value.records == if p.id in s.records && s.records[p.id].pid == p.pid then s.records - {p.id} else s.records
  {
  }

  /** After a worker's removal its record is not in the store, whatever else is. */
  lemma RemovesOwnRecord(x: Sys, w: Worker)
    requires w in x.procs && x.procs[w].l.phase.RemovingRecord? && x.procs[w].l.published && !x.procs[w].l.failed
    ensures Step(x, Work(w, RemoveRecord(true))).Some?
    ensures var (p, y) := (x.procs[w], Step(x, Work(w, RemoveRecord(true))).value);
            && !(p.id in y.s.records && y.s.records[p.id].pid == p.pid) && OnlyOwn(x.s, y.s, p.id, w)
            && y.procs == x.procs[w := p.(l := p.l.(phase := Ended))] && y.jobs == x.jobs
  {
    RecordComesAndGoes(x.s, w, x.procs[w]);
  }

  /** In every run, from its removal on a worker has no record, no helper and no lease. */
  lemma RemovedLeavesNothing(xs: seq<Sys>, acts: seq<Action>, i: nat, w: Worker)
    requires IsRun(xs, acts) && i < |acts| && acts[i] == Work(w, RemoveRecord(true))
    ensures w in xs[i].procs && w in xs[i + 1].procs && xs[i + 1].procs[w].l.phase.Ended?
    ensures var (id, s) := (xs[i].procs[w].id, xs[i + 1].s);
            && !(id in s.records && s.records[id].worker == w) && (id, w) !in s.helpers
            && !(id in s.leases && s.leases[id] == ByWorker(w))
  {
    RunKeepsInv(xs, acts, i);
    RunStep(xs, acts, i);
    var p := xs[i].procs[w];
    assert WorkerInv(w, p, xs[i].s);
    RemovesOwnRecord(xs[i], w);
    RunKeepsInv(xs, acts, i + 1);
    assert WorkerInv(w, xs[i + 1].procs[w], xs[i + 1].s);
  }

  /** A crash costs a worker its lease and nothing else. */
  lemma DeathDropsLease(x: Sys, w: Worker)
    requires w in x.procs && Alive(x.procs[w].l.phase)
    ensures Step(x, Die(w)).Some?
    ensures var (p, y) := (x.procs[w], Step(x, Die(w)).value);
            && y.s.records == x.s.records && y.s.helpers == x.s.helpers && y.s.leases - {p.id} == x.s.leases - {p.id}
            && (p.id in y.s.leases <==> p.id in x.s.leases && x.s.leases[p.id] != ByWorker(w))
            && y.procs == x.procs[w := p.(l := p.l.(phase := Crashed))]
  {
  }

  // ----- several steps -----

  function Steps(x: Sys, acts: seq<Action>): Option<Sys>
    decreases |acts|
  {
    if acts == [] then Some(x)
    else var y := Step(x, acts[0]); if y.None? then None else Steps(y.value, acts[1..])
  }

  lemma {:induction false} StepsAppend(x: Sys, acts: seq<Action>, y: Sys, more: seq<Action>, z: Sys)
    requires Steps(x, acts) == Some(y) && Steps(y, more) == Some(z)
    ensures Steps(x, acts + more) == Some(z)
    decreases |acts|
  {
    if acts == [] {
      assert acts + more == more;
    } else {
      var u := Step(x, acts[0]).value;
      StepsAppend(u, acts[1..], y, more, z);
      assert (acts + more)[1..] == acts[1..] + more;
    }
  }

  lemma OneMore(x: Sys, acts: seq<Action>, y: Sys, a: Action, z: Sys)
    requires Steps(x, acts) == Some(y) && Step(y, a) == Some(z)
    ensures Steps(x, acts + [a]) == Some(z)
  {
    assert [a][1..] == [];
    assert Steps(z, []) == Some(z) && Steps(y, [a]) == Some(z);
    StepsAppend(x, acts, y, [a], z);
  }

  /** Steps that can be taken from the empty system are a run. */
  lemma {:induction false} StepsAreRun(acts: seq<Action>, y: Sys) returns (xs: seq<Sys>)
    requires Steps(Fresh, acts) == Some(y)
    ensures IsRun(xs, acts) && xs[|acts|] == y
  {
    xs := [Fresh];
    var done := 0;
    while done < |acts|
      invariant 0 <= done <= |acts| && |xs| == done + 1 && xs[0] == Fresh && Steps(xs[done], acts[done..]) == Some(y)
      invariant forall i :: 0 <= i < done ==> Step(xs[i], acts[i]) == Some(xs[i + 1])
    {
      var next := Step(xs[done], acts[done..][0]).value;
      assert acts[done..][1..] == acts[done + 1..];
      xs := xs + [next];
      done := done + 1;
    }
  }

  // ----- a worker's life without a failure -----

  function Events(w: Worker, events: seq<Event>): seq<Action> {
    seq(|events|, i requires 0 <= i < |events| => Work(w, events[i]))
  }

  /** The system with worker `w` at this point of its life, and these shared resources. */
  function At(x: Sys, w: Worker, p: Proc, phase: Phase, published: bool, s: Shared): Sys {
    x.(procs := x.procs[w := p.(l := Local(phase, published, published, false))], s := s)
  }

  lemma AtTwice(x: Sys, w: Worker, p: Proc, a: Phase, m: bool, s: Shared, b: Phase, n: bool, t: Shared)
    ensures At(At(x, w, p, a, m, s), w, p, b, n, t) == At(x, w, p, b, n, t)
  {
    assert x.procs[w := p.(l := Local(a, m, m, false))][w := p.(l := Local(b, n, n, false))] ==
           x.procs[w := p.(l := Local(b, n, n, false))];
  }

  lemma WorksTo(x: Sys, w: Worker, p: Proc, a: Phase, m: bool, s: Shared, e: Event, b: Phase, n: bool, t: Shared)
    requires var l := Local(a, m, m, false);
             AfterWork(s, w, p.(l := l), e) == Some((t, p.(l := Local(b, n, n, false))))
    ensures Step(At(x, w, p, a, m, s), Work(w, e)) == Some(At(x, w, p, b, n, t))
  {
    AtTwice(x, w, p, a, m, s, b, n, t);
  }

  /** What a worker holds while it serves. */
  function Holding(s: Shared, w: Worker, p: Proc): Shared {
    Shared(s.leases[p.id := ByWorker(w)], s.records[p.id := Record(p.pid, w)], s.helpers + {(p.id, w)})
  }

  predicate Unclaimed(s: Shared, w: Worker, p: Proc) {
    p.id !in s.leases && p.id !in s.records && (p.id, w) !in s.helpers
  }

  const Rising: seq<Event> :=
    [Acquire(true), CreateHelper(true, true), NewMirror(true), StartMirror(true), Publish(true, true)]

  /** A worker nothing fails comes to serve, with lease, helper and record. */
  lemma Rises(x: Sys, w: Worker, p: Proc)
    requires Unclaimed(x.s, w, p)
    ensures Steps(At(x, w, p, Phase.Starting, false, x.s), Events(w, Rising)) ==
            Some(At(x, w, p, Serving, true, Holding(x.s, w, p)))
  {
    var s0 := x.s;
    var s1 := s0.(leases := s0.leases[p.id := ByWorker(w)]);
    var s2 := s1.(helpers := s1.helpers + {(p.id, w)});
    var s3 := s2.(records := s2.records[p.id := Record(p.pid, w)]);
    WorksTo(x, w, p, Phase.Starting, false, s0, Rising[0], Leased, false, s1);
    WorksTo(x, w, p, Leased, false, s1, Rising[1], Helped, false, s2);
    WorksTo(x, w, p, Helped, false, s2, Rising[2], Mirrored, false, s2);
    WorksTo(x, w, p, Mirrored, false, s2, Rising[3], Serving, false, s2);
    WorksTo(x, w, p, Serving, false, s2, Rising[4], Serving, true, s3);
    FiveSteps(At(x, w, p, Phase.Starting, false, s0), At(x, w, p, Leased, false, s1), At(x, w, p, Helped, false, s2),
              At(x, w, p, Mirrored, false, s2), At(x, w, p, Serving, false, s2), At(x, w, p, Serving, true, s3), Events(w, Rising));
  }

  lemma FiveSteps(x0: Sys, x1: Sys, x2: Sys, x3: Sys, x4: Sys, x5: Sys, acts: seq<Action>)
    requires |acts| == 5
    requires Step(x0, acts[0]) == Some(x1) && Step(x1, acts[1]) == Some(x2) && Step(x2, acts[2]) == Some(x3)
    requires Step(x3, acts[3]) == Some(x4) && Step(x4, acts[4]) == Some(x5)
    ensures Steps(x0, acts) == Some(x5)
  {
    assert Steps(x0, []) == Some(x0);
    OneMore(x0, [], x0, acts[0], x1);
    OneMore(x0, [] + [acts[0]], x1, acts[1], x2);
    OneMore(x0, [] + [acts[0]] + [acts[1]], x2, acts[2], x3);
    OneMore(x0, [] + [acts[0]] + [acts[1]] + [acts[2]], x3, acts[3], x4);
    OneMore(x0, [] + [acts[0]] + [acts[1]] + [acts[2]] + [acts[3]], x4, acts[4], x5);
    assert [] + [acts[0]] + [acts[1]] + [acts[2]] + [acts[3]] + [acts[4]] == acts;
  }

  const Falling: seq<Event> := [Stop, StopControl(true), StopMirror(true), CloseHelper(true, true), Prune]

  /** Told to stop, it closes its services and its helper. */
  lemma Falls(x: Sys, w: Worker, p: Proc, s: Shared)
    ensures Steps(At(x, w, p, Serving, true, s), Events(w, Falling)) ==
            Some(At(x, w, p, ClosingLease, true, s.(helpers := s.helpers - {(p.id, w)})))
  {
    var t := s.(helpers := s.helpers - {(p.id, w)});
    WorksTo(x, w, p, Serving, true, s, Falling[0], StoppingControl, true, s);
    WorksTo(x, w, p, StoppingControl, true, s, Falling[1], StoppingMirror, true, s);
    WorksTo(x, w, p, StoppingMirror, true, s, Falling[2], ClosingHelper, true, s);
    WorksTo(x, w, p, ClosingHelper, true, s, Falling[3], Pruning, true, t);
    WorksTo(x, w, p, Pruning, true, t, Falling[4], ClosingLease, true, t);
    FiveSteps(At(x, w, p, Serving, true, s), At(x, w, p, StoppingControl, true, s), At(x, w, p, StoppingMirror, true, s),
              At(x, w, p, ClosingHelper, true, s), At(x, w, p, Pruning, true, t), At(x, w, p, ClosingLease, true, t),
              Events(w, Falling));
  }

  /** Then it gives up the lease and removes its record. */
  lemma Leaves(x: Sys, w: Worker, p: Proc, s: Shared)
    requires p.id in s.leases && s.leases[p.id] == ByWorker(w) && p.id in s.records && s.records[p.id].pid == p.pid
    ensures Steps(At(x, w, p, ClosingLease, true, s), [Work(w, CloseLease(true, true)), Work(w, RemoveRecord(true))]) ==
            Some(At(x, w, p, Ended, true, Shared(s.leases - {p.id}, s.records - {p.id}, s.helpers)))
  {
    var t := s.(leases := s.leases - {p.id});
    var (x0, x1) := (At(x, w, p, ClosingLease, true, s), At(x, w, p, RemovingRecord, true, t));
    var x2 := At(x, w, p, Ended, true, t.(records := t.records - {p.id}));
    WorksTo(x, w, p, ClosingLease, true, s, CloseLease(true, true), RemovingRecord, true, t);
    WorksTo(x, w, p, RemovingRecord, true, t, RemoveRecord(true), Ended, true, t.(records := t.records - {p.id}));
    assert Steps(x0, []) == Some(x0);
    OneMore(x0, [], x0, Work(w, CloseLease(true, true)), x1);
    OneMore(x0, [] + [Work(w, CloseLease(true, true))], x1, Work(w, RemoveRecord(true)), x2);
    assert [] + [Work(w, CloseLease(true, true))] + [Work(w, RemoveRecord(true))] ==
           [Work(w, CloseLease(true, true)), Work(w, RemoveRecord(true))];
  }

  function Life(w: Worker): seq<Action> {
    Events(w, Rising) + WindDown(w)
  }

  function WindDown(w: Worker): seq<Action> {
    Events(w, Falling) + [Work(w, CloseLease(true, true)), Work(w, RemoveRecord(true))]
  }

  lemma WindsDown(x: Sys, w: Worker, p: Proc, s: Shared)
    requires p.id in s.leases && s.leases[p.id] == ByWorker(w) && p.id in s.records && s.records[p.id].pid == p.pid
    ensures Steps(At(x, w, p, Serving, true, s), WindDown(w)) ==
            Some(At(x, w, p, Ended, true, Shared(s.leases - {p.id}, s.records - {p.id}, s.helpers - {(p.id, w)})))
  {
    var t := s.(helpers := s.helpers - {(p.id, w)});
    Falls(x, w, p, s);
    Leaves(x, w, p, t);
    StepsAppend(At(x, w, p, Serving, true, s), Events(w, Falling), At(x, w, p, ClosingLease, true, t),
                [Work(w, CloseLease(true, true)), Work(w, RemoveRecord(true))],
                At(x, w, p, Ended, true, Shared(s.leases - {p.id}, s.records - {p.id}, s.helpers - {(p.id, w)})));
  }

  /** A worker nothing ever fails leaves leases, records and helpers exactly as it found them. */
  lemma CleanLife(x: Sys, w: Worker, p: Proc)
    requires Unclaimed(x.s, w, p)
    ensures Steps(At(x, w, p, Phase.Starting, false, x.s), Life(w)) == Some(At(x, w, p, Ended, true, x.s))
  {
    var s := Holding(x.s, w, p);
    Rises(x, w, p);
    WindsDown(x, w, p, s);
    assert s.leases - {p.id} == x.s.leases && s.records - {p.id} == x.s.records && s.helpers - {(p.id, w)} == x.s.helpers;
    StepsAppend(At(x, w, p, Phase.Starting, false, x.s), Events(w, Rising), At(x, w, p, Serving, true, s), WindDown(w),
                At(x, w, p, Ended, true, x.s));
  }

  // ----- tools -----

  /** The system with this job for tool `t`, and these shared resources. */
  function Doing(x: Sys, t: Tool, job: Option<Job>, s: Shared): Sys {
    x.(s := s, jobs := if job.Some? then x.jobs[t := job.value] else x.jobs - {t})
  }

  lemma DoingTwice(x: Sys, t: Tool, a: Option<Job>, s: Shared, b: Option<Job>, u: Shared)
    ensures Doing(Doing(x, t, a, s), t, b, u) == Doing(x, t, b, u)
  {
    if a.Some? && b.Some? {
      assert x.jobs[t := a.value][t := b.value] == x.jobs[t := b.value];
    } else if a.Some? {
      assert x.jobs[t := a.value] - {t} == x.jobs - {t};
    } else if b.Some? {
      assert (x.jobs - {t})[t := b.value] == x.jobs[t := b.value];
    } else {
      assert x.jobs - {t} - {t} == x.jobs - {t};
    }
  }

  lemma ToolDoes(x: Sys, t: Tool, a: Option<Job>, s: Shared, step: ToolStep, b: Option<Job>, u: Shared)
    requires StepTool(s, t, a, step) == Some((u, b))
    ensures Step(Doing(x, t, a, s), Use(t, step)) == Some(Doing(x, t, b, u))
  {
    assert JobOf(Doing(x, t, a, s).jobs, t) == a;
    DoingTwice(x, t, a, s, b, u);
  }

  /** What stale cleanup leaves of an instance: no helper, no record, and the lease free again. */
  function Swept(s: Shared, id: Id): Shared {
    Shared(s.leases - {id}, s.records - {id}, set h | h in s.helpers && h.0 != id)
  }

  function StaleKill(t: Tool, id: Id): seq<Action> {
    [Use(t, Read(id)), Use(t, Lock), Use(t, CleanUp(true, {})), Use(t, Remove(true)), Use(t, Close(true))]
  }

  /** Killing a worker that left its lease sweeps the instance and reports success, whatever state the rest is in. */
  lemma StaleKillSucceeds(x: Sys, t: Tool, id: Id)
    requires t !in x.jobs && id in x.s.records && id !in x.s.leases
    ensures Steps(x, StaleKill(t, id)) == Some(Doing(x, t, Some(Killed(id, x.s.records[id])), Swept(x.s, id)))
  {
    var (r, s0) := (x.s.records[id], x.s);
    var s1 := s0.(leases := s0.leases[id := ByTool(t)]);
    var s2 := s1.(helpers := set h | h in s1.helpers && h.0 != id);
    var s3 := s2.(records := s2.records - {id});
    assert Doing(x, t, None, s0) == x by { assert x.jobs - {t} == x.jobs; }
    assert CleanHelpers(s1, id, true, {}) == s2;
    assert s3.leases - {id} == s0.leases - {id};
    ToolDoes(x, t, None, s0, Read(id), Some(Looking(id, r)), s0);
    ToolDoes(x, t, Some(Looking(id, r)), s0, Lock, Some(Locked(id, Some(r))), s1);
    ToolDoes(x, t, Some(Locked(id, Some(r))), s1, CleanUp(true, {}), Some(Cleaned(id, Some(r))), s2);
    ToolDoes(x, t, Some(Cleaned(id, Some(r))), s2, Remove(true), Some(Leaving(id, Some(r))), s3);
    ToolDoes(x, t, Some(Leaving(id, Some(r))), s3, Close(true), Some(Killed(id, r)), Swept(s0, id));
    FiveSteps(x, Doing(x, t, Some(Looking(id, r)), s0), Doing(x, t, Some(Locked(id, Some(r))), s1),
              Doing(x, t, Some(Cleaned(id, Some(r))), s2), Doing(x, t, Some(Leaving(id, Some(r))), s3),
              Doing(x, t, Some(Killed(id, r)), Swept(s0, id)), StaleKill(t, id));
  }

  /** Where the lease is held, or cleaning up fails, or the record has changed hands, the tool leaves the record and reports no kill. */
  lemma StaleKillGivesUp(s: Shared, t: Tool, id: Id, r: Record, gone: set<Worker>)
    ensures id in s.leases ==> StepTool(s, t, Some(Looking(id, r)), Lock) == Some((s, None))
    ensures var after := StepTool(s, t, Some(Locked(id, Some(r))), CleanUp(false, gone));
            && after.Some? && after.value.1 == Some(Leaving(id, None)) && after.value.0.records == s.records
            && after.value.0.helpers <= s.helpers
    ensures id !in s.records || s.records[id].pid != r.pid ==>
              StepTool(s, t, Some(Cleaned(id, Some(r))), Remove(true)) == Some((s, Some(Leaving(id, None))))
    ensures StepTool(s, t, Some(Cleaned(id, Some(r))), Remove(false)) == Some((s, Some(Leaving(id, None))))
    ensures var after := StepTool(s, t, Some(Leaving(id, None)), Close(true));
            after.Some? && after.value.1.None? && after.value.0.records == s.records
  {
  }

  /** A tool that quits or crashes gives up its job and the lease that went with it, and nothing else. */
  lemma QuitDropsLease(s: Shared, t: Tool, job: Job)
    ensures StepTool(s, t, Some(job), Quit).Some?
    ensures var (after, left) := StepTool(s, t, Some(job), Quit).value;
            && left.None? && after.records == s.records && after.helpers == s.helpers
            && after.leases == if job.Locked? || job.Cleaned? || job.Leaving?
                               then (if job.id in s.leases && s.leases[job.id] == ByTool(t) then s.leases - {job.id} else s.leases)
                               else s.leases
  {
  }

  /** A launcher that reaped its worker cleans up only under the lease, and removes no record. */
  lemma LauncherCleansUp(s: Shared, t: Tool, id: Id)
    ensures var after := StepTool(s, t, None, LaunchedWorkerReaped(id));
            if id in s.leases then after == Some((s, None))
            else after == Some((s.(leases := s.leases[id := ByTool(t)]), Some(Locked(id, None))))
    ensures var after := StepTool(s, t, Some(Locked(id, None)), CleanUp(true, {}));
            && after.Some? && after.value.1 == Some(Cleaned(id, None)) && after.value.0.records == s.records
            && forall h :: h in after.value.0.helpers <==> h in s.helpers && h.0 != id
    ensures StepTool(s, t, Some(Cleaned(id, None)), Remove(true)).None?
  {
  }

  /** After an acknowledged shutdown the tool waits for the record and then for the lease to go. */
  lemma AwaitsBoth(s: Shared, t: Tool, id: Id, r: Record)
    ensures StepTool(s, t, Some(Waiting(id, r)), PollRecord) ==
            Some((s, Some(if id in s.records then Waiting(id, r) else Absent(id, r))))
    ensures StepTool(s, t, Some(Absent(id, r)), PollLease) ==
            Some((s, Some(if id in s.leases then Waiting(id, r) else Killed(id, r))))
  {
  }

  function AskedKill(t: Tool, id: Id, w: Worker): seq<Action> {
    [Use(t, Read(id)), Use(t, AskShutdown)] + WindDown(w) + [Use(t, PollRecord), Use(t, PollLease)]
  }

  lemma TwoUses(x: Sys, t: Tool, a: Option<Job>, s: Shared, p: ToolStep, b: Option<Job>, q: ToolStep, c: Option<Job>)
    requires StepTool(s, t, a, p) == Some((s, b)) && StepTool(s, t, b, q) == Some((s, c))
    ensures Steps(Doing(x, t, a, s), [Use(t, p), Use(t, q)]) == Some(Doing(x, t, c, s))
  {
    ToolDoes(x, t, a, s, p, b, s);
    ToolDoes(x, t, b, s, q, c, s);
    var x0 := Doing(x, t, a, s);
    assert Steps(x0, []) == Some(x0);
    OneMore(x0, [], x0, Use(t, p), Doing(x, t, b, s));
    OneMore(x0, [] + [Use(t, p)], Doing(x, t, b, s), Use(t, q), Doing(x, t, c, s));
    assert [] + [Use(t, p)] + [Use(t, q)] == [Use(t, p), Use(t, q)];
  }

  lemma Independent(x: Sys, w: Worker, p: Proc, phase: Phase, published: bool, t: Tool, job: Option<Job>, s: Shared)
    ensures Doing(At(x, w, p, phase, published, s), t, job, s) == At(Doing(x, t, job, s), w, p, phase, published, s)
  {
  }

  lemma AsksToStop(x: Sys, t: Tool, w: Worker, p: Proc, s: Shared, r: Record)
    requires t !in x.jobs && p.id in s.records && s.records[p.id] == r && r.worker == w
    ensures Steps(At(x, w, p, Serving, true, s), [Use(t, Read(p.id)), Use(t, AskShutdown)]) ==
            Some(At(Doing(x, t, Some(Waiting(p.id, r)), s), w, p, Serving, true, s))
  {
    var x0 := At(x, w, p, Serving, true, s);
    assert Doing(x0, t, None, s) == x0 by { assert x.jobs - {t} == x.jobs; }
    TwoUses(x0, t, None, s, Read(p.id), Some(Looking(p.id, r)), AskShutdown, Some(Waiting(p.id, r)));
    Independent(x, w, p, Serving, true, t, Some(Waiting(p.id, r)), s);
  }

  lemma SeesItGone(x: Sys, t: Tool, w: Worker, p: Proc, s: Shared, u: Shared, r: Record)
    requires p.id !in u.records && p.id !in u.leases
    ensures Steps(At(Doing(x, t, Some(Waiting(p.id, r)), s), w, p, Ended, true, u), [Use(t, PollRecord), Use(t, PollLease)]) ==
            Some(At(Doing(x, t, Some(Killed(p.id, r)), u), w, p, Ended, true, u))
  {
    var z := At(Doing(x, t, Some(Waiting(p.id, r)), s), w, p, Ended, true, u);
    assert z == Doing(z, t, Some(Waiting(p.id, r)), u);
    TwoUses(z, t, Some(Waiting(p.id, r)), u, PollRecord, Some(Absent(p.id, r)), PollLease, Some(Killed(p.id, r)));
    DoingTwice(x, t, Some(Waiting(p.id, r)), s, Some(Killed(p.id, r)), u);
    assert Doing(z, t, Some(Killed(p.id, r)), u) == At(Doing(x, t, Some(Killed(p.id, r)), u), w, p, Ended, true, u);
  }

  /** A worker asked to stop winds down, and the kill that asked it reports success. */
  lemma AskedKillSucceeds(x: Sys, t: Tool, w: Worker, p: Proc, s: Shared)
    requires t !in x.jobs && p.id in s.leases && s.leases[p.id] == ByWorker(w)
    requires p.id in s.records && s.records[p.id] == Record(p.pid, w)
    ensures var u := Shared(s.leases - {p.id}, s.records - {p.id}, s.helpers - {(p.id, w)});
            Steps(At(x, w, p, Serving, true, s), AskedKill(t, p.id, w)) ==
            Some(At(Doing(x, t, Some(Killed(p.id, Record(p.pid, w))), u), w, p, Ended, true, u))
  {
    var (id, r) := (p.id, s.records[p.id]);
    var u := Shared(s.leases - {id}, s.records - {id}, s.helpers - {(id, w)});
    var (x0, y) := (At(x, w, p, Serving, true, s), Doing(x, t, Some(Waiting(id, r)), s));
    var z := At(y, w, p, Ended, true, u);
    AsksToStop(x, t, w, p, s, r);
    WindsDown(y, w, p, s);
    StepsAppend(x0, [Use(t, Read(id)), Use(t, AskShutdown)], At(y, w, p, Serving, true, s), WindDown(w), z);
    SeesItGone(x, t, w, p, s, u, r);
    StepsAppend(x0, [Use(t, Read(id)), Use(t, AskShutdown)] + WindDown(w), z, [Use(t, PollRecord), Use(t, PollLease)],
                At(Doing(x, t, Some(Killed(id, r)), u), w, p, Ended, true, u));
  }

  // ----- both kills happen -----

  lemma FirstWorker(w: Worker, id: Id, pid: nat)
    ensures Steps(Fresh, [Spawn(w, id, pid)] + Events(w, Rising)) ==
            Some(At(Fresh, w, Proc(id, pid, Born), Serving, true, Holding(Fresh.s, w, Proc(id, pid, Born))))
  {
    var p := Proc(id, pid, Born);
    var x := At(Fresh, w, p, Phase.Starting, false, Fresh.s);
    assert Step(Fresh, Spawn(w, id, pid)) == Some(x);
    assert Steps(Fresh, []) == Some(Fresh);
    OneMore(Fresh, [], Fresh, Spawn(w, id, pid), x);
    assert [] + [Spawn(w, id, pid)] == [Spawn(w, id, pid)];
    Rises(Fresh, w, p);
    StepsAppend(Fresh, [Spawn(w, id, pid)], x, Events(w, Rising), At(Fresh, w, p, Serving, true, Holding(Fresh.s, w, p)));
  }

  /** A run in which a worker serves, is asked to stop, and its kill succeeds. */
  lemma AskedKillHappens(w: Worker, id: Id, pid: nat, t: Tool) returns (xs: seq<Sys>, acts: seq<Action>)
    ensures IsRun(xs, acts) && t in xs[|acts|].jobs && xs[|acts|].jobs[t] == Killed(id, Record(pid, w))
    ensures exists i :: 0 <= i < |acts| && acts[i] == Use(t, AskShutdown)
  {
    var p := Proc(id, pid, Born);
    var s := Holding(Fresh.s, w, p);
    FirstWorker(w, id, pid);
    AskedKillSucceeds(Fresh, t, w, p, s);
    var u := Shared(s.leases - {id}, s.records - {id}, s.helpers - {(id, w)});
    var y := At(Doing(Fresh, t, Some(Killed(id, Record(pid, w))), u), w, p, Ended, true, u);
    var rise := [Spawn(w, id, pid)] + Events(w, Rising);
    acts := rise + AskedKill(t, id, w);
    StepsAppend(Fresh, rise, At(Fresh, w, p, Serving, true, s), AskedKill(t, id, w), y);
    xs := StepsAreRun(acts, y);
    assert acts[|rise| + 1] == Use(t, AskShutdown);
  }

  /** A run in which a worker crashes, and killing what it left succeeds. */
  lemma StaleKillHappens(w: Worker, id: Id, pid: nat, t: Tool) returns (xs: seq<Sys>, acts: seq<Action>)
    ensures IsRun(xs, acts) && t in xs[|acts|].jobs && xs[|acts|].jobs[t] == Killed(id, Record(pid, w))
    ensures exists i :: 0 <= i < |acts| && acts[i] == Die(w)
  {
    var p := Proc(id, pid, Born);
    var s := Holding(Fresh.s, w, p);
    var x := At(Fresh, w, p, Serving, true, s);
    FirstWorker(w, id, pid);
    DeathDropsLease(x, w);
    var y := Step(x, Die(w)).value;
    var rise := [Spawn(w, id, pid)] + Events(w, Rising);
    OneMore(Fresh, rise, x, Die(w), y);
    StaleKillSucceeds(y, t, id);
    var z := Doing(y, t, Some(Killed(id, y.s.records[id])), Swept(y.s, id));
    acts := rise + [Die(w)] + StaleKill(t, id);
    StepsAppend(Fresh, rise + [Die(w)], y, StaleKill(t, id), z);
    xs := StepsAreRun(acts, z);
    assert acts[|rise|] == Die(w);
  }
}

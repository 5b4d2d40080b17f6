/**
 Who may clean up after a worker, and when its record may disappear (Run in internal/share/service.go,
 inspectRecords, killRecord and waitForStopped in cmd/wrap/commands.go, cleanupReapedWorkerArtifacts in
 internal/share/process.go, the leases and RemoveIfPID of internal/instance/store.go).

 Any number of workers, command-line processes and launchers run at once and may crash anywhere; process
 IDs are unique among live workers only. A helper session is named by the instance and the worker that
 made it.
 */
module WorkerSystem {
  import opened Options
  import opened WorkerLease

  type Id = nat
  type Worker = nat
  type Tool = nat // a command-line or launcher process

  datatype Proc = Proc(id: Id, pid: nat, l: Local)

  /** `worker` identifies the writer; the store itself sees only the process ID. */
  datatype Record = Record(pid: nat, worker: Worker)

  datatype Holder = ByWorker(worker: Worker) | ByTool(tool: Tool)

  datatype Job =
    | Looking(id: Id, r: Record) // read from the store; its control socket did not answer
    | Locked(id: Id, stale: Option<Record>) // holds the lease; a launcher has no record to remove
    | Cleaned(id: Id, stale: Option<Record>)
    | Leaving(id: Id, removed: Option<Record>) // about to close the lease; whether the record it had read was removed
    | Waiting(id: Id, r: Record) // shutdown was acknowledged
    | Absent(id: Id, r: Record) // saw no record, will probe the lease
    | Killed(id: Id, r: Record) // success was reported

  datatype Shared = Shared(leases: map<Id, Holder>, records: map<Id, Record>, helpers: set<(Id, Worker)>)

  datatype Sys = Sys(procs: map<Worker, Proc>, jobs: map<Tool, Job>, s: Shared)

  const Fresh := Sys(map[], map[], Shared(map[], map[], {}))

  // ----- the store and the leases -----

  function TakeLease(s: Shared, id: Id, h: Holder): Option<Shared> {
    if id in s.leases then None else Some(s.(leases := s.leases[id := h]))
  }

  function DropLease(s: Shared, id: Id, h: Holder): Shared {
    if id in s.leases && s.leases[id] == h then s.(leases := s.leases - {id}) else s
  }

  function RemoveIfPID(s: Shared, id: Id, pid: nat): (Shared, bool) {
    if id in s.records && s.records[id].pid == pid then (s.(records := s.records - {id}), true) else (s, false)
  }

  // ----- worker steps -----

  /** What a worker's step does to the rest of the system, when the system lets it happen. */
  function Effect(s: Shared, w: Worker, p: Proc, e: Event): Option<Shared> {
    match e
    case Acquire(ok) => if ok then TakeLease(s, p.id, ByWorker(w)) else Some(s)
    case CreateHelper(_, made) => Some(if made then s.(helpers := s.helpers + {(p.id, w)}) else s)
    case Publish(_, kept) =>
      if !kept then Some(s)
      else if p.id in s.records then None
      else Some(s.(records := s.records[p.id := Record(p.pid, w)]))
    case CloseHelper(_, gone) => Some(if gone then s.(helpers := s.helpers - {(p.id, w)}) else s)
    case CloseLease(_, released) => Some(if released then DropLease(s, p.id, ByWorker(w)) else s)
    case RemoveRecord(ok) => Some(if ok then RemoveIfPID(s, p.id, p.pid).0 else s)
    case _ => Some(s)
  }

  /** The state after worker `w`, in state `p`, took step `e`. */
  function AfterWork(s: Shared, w: Worker, p: Proc, e: Event): Option<(Shared, Proc)> {
    var l := LocalStep(p.l, e);
    var t := Effect(s, w, p, e);
    if !Sensible(e) || l.None? || t.None? then None
    else Some((if l.value.phase.Ended? then DropLease(t.value, p.id, ByWorker(w)) else t.value, p.(l := l.value)))
  }

  datatype Action =
    | Spawn(w: Worker, id: Id, pid: nat)
    | Work(w: Worker, e: Event)
    | Die(w: Worker) // a crash; the kernel drops its lease
    | Use(t: Tool, step: ToolStep)

  datatype ToolStep =
    | Read(id: Id)
    | Lock // ErrLeaseHeld gives up
    | LaunchedWorkerReaped(id: Id)
    | CleanUp(ok: bool, gone: set<Worker>)
    | Remove(ok: bool)
    | Close(ok: bool)
    | AskShutdown
    | PollRecord
    | PollLease
    | Quit // an error, the end, or a crash

  function StepWorker(x: Sys, w: Worker, e: Event): Option<Sys> {
    if w !in x.procs || AfterWork(x.s, w, x.procs[w], e).None? then None
    else var (s, p) := AfterWork(x.s, w, x.procs[w], e).value; Some(x.(procs := x.procs[w := p], s := s))
  }

  /** CleanupHelper: success leaves no helper of the instance, failure may have closed some. */
  function CleanHelpers(s: Shared, id: Id, ok: bool, gone: set<Worker>): Shared {
    s.(helpers := set h | h in s.helpers && !(h.0 == id && (ok || h.1 in gone)))
  }

  function JobLeases(j: Job): Option<Id> {
    match j
    case Locked(id, _) => Some(id)
    case Cleaned(id, _) => Some(id)
    case Leaving(id, _) => Some(id)
    case _ => None
  }

  function StepTool(s: Shared, t: Tool, job: Option<Job>, a: ToolStep): Option<(Shared, Option<Job>)> {
    match a
    case Read(id) => if job.Some? || id !in s.records then None else Some((s, Some(Looking(id, s.records[id]))))
    case LaunchedWorkerReaped(id) =>
      if job.Some? then None
      else
        var locked := TakeLease(s, id, ByTool(t));
        Some(if locked.None? then (s, None) else (locked.value, Some(Locked(id, None))))
    case Lock =>
      if job.None? || !job.value.Looking? then None
      else
        var locked := TakeLease(s, job.value.id, ByTool(t));
        Some(if locked.None? then (s, None) else (locked.value, Some(Locked(job.value.id, Some(job.value.r)))))
    case CleanUp(ok, gone) =>
      if job.None? || !job.value.Locked? then None
      else Some((CleanHelpers(s, job.value.id, ok, gone),
                 Some(if ok then Cleaned(job.value.id, job.value.stale) else Leaving(job.value.id, None))))
    case Remove(ok) =>
      if job.None? || !job.value.Cleaned? || job.value.stale.None? then None
      else
        var (id, r) := (job.value.id, job.value.stale.value);
        var (after, removed) := RemoveIfPID(s, id, r.pid);
        Some(if ok then (after, Some(Leaving(id, if removed then Some(r) else None))) else (s, Some(Leaving(id, None))))
    case Close(ok) =>
      if job.None? || !(job.value.Leaving? || job.value.Cleaned?) then None
      else
        var killed := ok && job.value.Leaving? && job.value.removed.Some?;
        Some((DropLease(s, job.value.id, ByTool(t)), if killed then Some(Killed(job.value.id, job.value.removed.value)) else None))
    case AskShutdown => if job.None? || !job.value.Looking? then None else Some((s, Some(Waiting(job.value.id, job.value.r))))
    case PollRecord =>
      if job.None? || !job.value.Waiting? then None
      else Some((s, if job.value.id in s.records then job else Some(Absent(job.value.id, job.value.r))))
    case PollLease =>
      if job.None? || !job.value.Absent? then None
      else if job.value.id in s.leases then Some((s, Some(Waiting(job.value.id, job.value.r))))
      else Some((s, Some(Killed(job.value.id, job.value.r))))
    case Quit =>
      if job.None? then None
      else Some((if JobLeases(job.value).Some? then DropLease(s, JobLeases(job.value).value, ByTool(t)) else s, None))
  }

  function JobOf(jobs: map<Tool, Job>, t: Tool): Option<Job> {
    if t in jobs then Some(jobs[t]) else None
  }

  function Step(x: Sys, a: Action): Option<Sys> {
    match a
    case Spawn(w, id, pid) =>
      if w in x.procs || exists v :: v in x.procs && Alive(x.procs[v].l.phase) && x.procs[v].pid == pid then None
      else Some(x.(procs := x.procs[w := Proc(id, pid, Born)]))
    case Work(w, e) => StepWorker(x, w, e)
    case Die(w) =>
      if w !in x.procs || !Alive(x.procs[w].l.phase) then None
      else
        var p := x.procs[w];
        Some(x.(procs := x.procs[w := p.(l := p.l.(phase := Crashed))], s := DropLease(x.s, p.id, ByWorker(w))))
    case Use(t, step) =>
      var r := StepTool(x.s, t, JobOf(x.jobs, t), step);
      if r.None? then None
      else
        var (s, job) := r.value;
        Some(x.(s := s, jobs := if job.Some? then x.jobs[t := job.value] else x.jobs - {t}))
  }

  ghost predicate IsRun(xs: seq<Sys>, acts: seq<Action>) {
    && |xs| == |acts| + 1 && xs[0] == Fresh
    && forall i {:trigger acts[i]} :: 0 <= i < |acts| ==> Step(xs[i], acts[i]) == Some(xs[i + 1])
  }

  // ----- invariants -----

  /** Between acquiring and closing, and after a close that kept it, a worker has the lease. */
  predicate WorkerLeased(w: Worker, p: Proc, leases: map<Id, Holder>) {
    Inside(p.l.phase) ==> p.id in leases && leases[p.id] == ByWorker(w)
  }

  predicate JobLeased(t: Tool, j: Job, leases: map<Id, Holder>) {
    JobLeases(j).Some? ==> JobLeases(j).value in leases && leases[JobLeases(j).value] == ByTool(t)
  }

  predicate JobClean(j: Job, helpers: set<(Id, Worker)>) {
    j.Cleaned? ==> forall h :: h in helpers ==> h.0 != j.id
  }

  /** The helper of a worker that published and got past closing it is gone, unless a cleanup failed. */
  predicate Tidy(w: Worker, p: Proc, helpers: set<(Id, Worker)>) {
    (p.l.phase.Pruning? || p.l.phase.ClosingLease? || p.l.phase.RemovingRecord? || p.l.phase.Ended?) && p.l.published && !p.l.failed ==>
      (p.id, w) !in helpers
  }

  /** A worker whose record was stored and is no longer there has no helper. */
  predicate Accounted(w: Worker, p: Proc, s: Shared) {
    p.l.stored && !(p.id in s.records && s.records[p.id].worker == w) ==> (p.id, w) !in s.helpers
  }

  predicate Local0(p: Proc) {
    && (p.l.published ==> p.l.stored)
    && (p.l.stored ==> !p.l.phase.Starting? && !p.l.phase.Leased? && !p.l.phase.Helped? && !p.l.phase.Mirrored?)
  }

  predicate WorkerInv(w: Worker, p: Proc, s: Shared) {
    WorkerLeased(w, p, s.leases) && Tidy(w, p, s.helpers) && Accounted(w, p, s) && Local0(p)
  }

  ghost predicate RecordsInv(records: map<Id, Record>, procs: map<Worker, Proc>) {
    forall id :: id in records ==>
      var r := records[id]; r.worker in procs && procs[r.worker].id == id && procs[r.worker].pid == r.pid && procs[r.worker].l.stored
  }

  ghost predicate HelpersInv(helpers: set<(Id, Worker)>, procs: map<Worker, Proc>) {
    forall h :: h in helpers ==> h.1 in procs && procs[h.1].id == h.0
  }

  ghost predicate PidsInv(procs: map<Worker, Proc>) {
    forall v, w :: v in procs && w in procs && v != w && Alive(procs[v].l.phase) && Alive(procs[w].l.phase) ==> procs[v].pid != procs[w].pid
  }

  /** Nobody else's record bears the process ID of a live worker that has stored one. */
  ghost predicate OwnPids(records: map<Id, Record>, procs: map<Worker, Proc>) {
    forall w :: w in procs ==> OwnPid(w, procs[w], records)
  }

  predicate OwnPid(w: Worker, p: Proc, records: map<Id, Record>) {
    Alive(p.l.phase) && p.l.stored && p.id in records && records[p.id].pid == p.pid ==> records[p.id].worker == w
  }

  ghost predicate Inv(x: Sys) {
    && (forall w :: w in x.procs ==> WorkerInv(w, x.procs[w], x.s))
    && (forall t :: t in x.jobs ==> JobLeased(t, x.jobs[t], x.s.leases) && JobClean(x.jobs[t], x.s.helpers))
    && RecordsInv(x.s.records, x.procs) && HelpersInv(x.s.helpers, x.procs) && PidsInv(x.procs) && OwnPids(x.s.records, x.procs)
  }

  // ----- a worker's step -----

  lemma WorkLeases(s: Shared, w: Worker, p: Proc, e: Event)
    requires AfterWork(s, w, p, e).Some? && WorkerLeased(w, p, s.leases)
    ensures WorkerLeased(w, AfterWork(s, w, p, e).value.1, AfterWork(s, w, p, e).value.0.leases)
    ensures forall id :: id in s.leases && s.leases[id] != ByWorker(w) ==>
              id in AfterWork(s, w, p, e).value.0.leases && AfterWork(s, w, p, e).value.0.leases[id] == s.leases[id]
  {
  }

  lemma WorkLocal(s: Shared, w: Worker, p: Proc, e: Event)
    requires AfterWork(s, w, p, e).Some? && Local0(p)
    ensures Local0(AfterWork(s, w, p, e).value.1)
  {
  }

  lemma WorkHelpers(s: Shared, w: Worker, p: Proc, e: Event)
    requires AfterWork(s, w, p, e).Some?
    ensures var t := AfterWork(s, w, p, e).value.0;
            && (forall h :: h != (p.id, w) ==> (h in t.helpers <==> h in s.helpers))
            && ((p.id, w) in t.helpers && (p.id, w) !in s.helpers ==> e.CreateHelper?)
  {
  }

  lemma WorkRecords(s: Shared, w: Worker, p: Proc, e: Event)
    requires AfterWork(s, w, p, e).Some? && OwnPid(w, p, s.records) && Local0(p)
    ensures var t := AfterWork(s, w, p, e).value.0;
            && (forall id :: id != p.id ==> (id in t.records <==> id in s.records) && (id in t.records ==> t.records[id] == s.records[id]))
            && (p.id in s.records && p.id !in t.records ==> e.RemoveRecord? && s.records[p.id].worker == w)
            && (p.id in t.records && p.id in s.records ==> t.records[p.id] == s.records[p.id])
            && (p.id in t.records && p.id !in s.records ==>
                  e.Publish? && AfterWork(s, w, p, e).value.1.l.stored && t.records[p.id] == Record(p.pid, w))
  {
  }

  lemma WorkTidy(s: Shared, w: Worker, p: Proc, e: Event)
    requires AfterWork(s, w, p, e).Some? && Tidy(w, p, s.helpers) && Local0(p)
    ensures Tidy(w, AfterWork(s, w, p, e).value.1, AfterWork(s, w, p, e).value.0.helpers)
  {
  }

  lemma WorkAccounts(s: Shared, w: Worker, p: Proc, e: Event)
    requires AfterWork(s, w, p, e).Some? && Tidy(w, p, s.helpers) && Accounted(w, p, s) && Local0(p)
    ensures Accounted(w, AfterWork(s, w, p, e).value.1, AfterWork(s, w, p, e).value.0)
  {
  }

  /** Another worker keeps its lease, its helper and its record. */
  lemma WorkSpares(s: Shared, w: Worker, p: Proc, e: Event, v: Worker, q: Proc)
    requires AfterWork(s, w, p, e).Some? && OwnPid(w, p, s.records) && Local0(p) && WorkerLeased(w, p, s.leases)
    requires v != w && WorkerInv(v, q, s)
    ensures WorkerInv(v, q, AfterWork(s, w, p, e).value.0)
  {
    WorkLeases(s, w, p, e);
    WorkHelpers(s, w, p, e);
    WorkRecords(s, w, p, e);
  }

  lemma WorkSparesTools(s: Shared, w: Worker, p: Proc, e: Event, t: Tool, j: Job)
    requires AfterWork(s, w, p, e).Some? && WorkerLeased(w, p, s.leases)
    requires JobLeased(t, j, s.leases) && JobClean(j, s.helpers)
    ensures JobLeased(t, j, AfterWork(s, w, p, e).value.0.leases) && JobClean(j, AfterWork(s, w, p, e).value.0.helpers)
  {
    WorkLeases(s, w, p, e);
    WorkHelpers(s, w, p, e);
  }

  lemma WorkKeepsPids(x: Sys, w: Worker, e: Event)
    requires PidsInv(x.procs) && w in x.procs && AfterWork(x.s, w, x.procs[w], e).Some?
    ensures PidsInv(x.procs[w := AfterWork(x.s, w, x.procs[w], e).value.1])
  {
    assert Alive(x.procs[w].l.phase);
  }

  lemma WorkKeepsRecords(x: Sys, w: Worker, e: Event)
    requires RecordsInv(x.s.records, x.procs) && w in x.procs && AfterWork(x.s, w, x.procs[w], e).Some?
    requires OwnPid(w, x.procs[w], x.s.records) && Local0(x.procs[w])
    ensures var (s, p) := AfterWork(x.s, w, x.procs[w], e).value; RecordsInv(s.records, x.procs[w := p])
  {
    WorkRecords(x.s, w, x.procs[w], e);
  }

  lemma WorkKeepsOwnPid(x: Sys, w: Worker, e: Event, v: Worker)
    requires PidsInv(x.procs) && w in x.procs && v in x.procs && AfterWork(x.s, w, x.procs[w], e).Some?
    requires OwnPid(w, x.procs[w], x.s.records) && OwnPid(v, x.procs[v], x.s.records) && Local0(x.procs[w])
    ensures var (s, p) := AfterWork(x.s, w, x.procs[w], e).value; OwnPid(v, x.procs[w := p][v], s.records)
  {
    WorkRecords(x.s, w, x.procs[w], e);
    assert Alive(x.procs[w].l.phase);
  }

  lemma WorkSparesOthers(x: Sys, w: Worker, e: Event)
    requires Inv(x) && w in x.procs && AfterWork(x.s, w, x.procs[w], e).Some?
    ensures var (s, p) := AfterWork(x.s, w, x.procs[w], e).value;
            && RecordsInv(s.records, x.procs[w := p]) && HelpersInv(s.helpers, x.procs[w := p])
            && PidsInv(x.procs[w := p]) && OwnPids(s.records, x.procs[w := p])
  {
    var (s, p) := AfterWork(x.s, w, x.procs[w], e).value;
    assert WorkerInv(w, x.procs[w], x.s) && OwnPid(w, x.procs[w], x.s.records);
    WorkKeepsPids(x, w, e);
    WorkKeepsRecords(x, w, e);
    WorkHelpers(x.s, w, x.procs[w], e);
    forall v | v in x.procs ensures OwnPid(v, x.procs[w := p][v], s.records) {
      assert OwnPid(v, x.procs[v], x.s.records);
      WorkKeepsOwnPid(x, w, e, v);
    }
  }

  lemma WorkKeepsInv(x: Sys, w: Worker, e: Event)
    requires Inv(x) && StepWorker(x, w, e).Some?
    ensures Inv(StepWorker(x, w, e).value)
  {
    var (p, y) := (x.procs[w], StepWorker(x, w, e).value);
    assert WorkerInv(w, p, x.s) && OwnPid(w, p, x.s.records);
    WorkLeases(x.s, w, p, e);
    WorkTidy(x.s, w, p, e);
    WorkAccounts(x.s, w, p, e);
    WorkLocal(x.s, w, p, e);
    forall v | v in y.procs ensures WorkerInv(v, y.procs[v], y.s) {
      if v != w {
        WorkSpares(x.s, w, p, e, v, x.procs[v]);
      }
    }
    forall t | t in y.jobs ensures JobLeased(t, y.jobs[t], y.s.leases) && JobClean(y.jobs[t], y.s.helpers) {
      WorkSparesTools(x.s, w, p, e, t, x.jobs[t]);
    }
    WorkSparesOthers(x, w, e);
  }

  // ----- births, crashes and tools -----

  lemma SpawnKeepsInv(x: Sys, w: Worker, id: Id, pid: nat)
    requires Inv(x) && Step(x, Spawn(w, id, pid)).Some?
    ensures Inv(Step(x, Spawn(w, id, pid)).value)
  {
  }

  lemma DieSpares(x: Sys, w: Worker, v: Worker)
    requires w in x.procs && v in x.procs && WorkerInv(v, x.procs[v], x.s)
    ensures var s := DropLease(x.s, x.procs[w].id, ByWorker(w));
            if v == w then WorkerInv(v, x.procs[v].(l := x.procs[v].l.(phase := Crashed)), s) else WorkerInv(v, x.procs[v], s)
  {
  }

  lemma DieKeepsInv(x: Sys, w: Worker)
    requires Inv(x) && Step(x, Die(w)).Some?
    ensures Inv(Step(x, Die(w)).value)
  {
    var y := Step(x, Die(w)).value;
    forall v | v in y.procs ensures WorkerInv(v, y.procs[v], y.s) {
      DieSpares(x, w, v);
    }
  }

  /** A tool's step takes nothing from a worker: it cleans and removes only under the lease, and only after a full cleanup. */
  lemma ToolSpares(s: Shared, t: Tool, job: Option<Job>, a: ToolStep, w: Worker, p: Proc)
    requires StepTool(s, t, job, a).Some? && WorkerInv(w, p, s)
    requires job.Some? ==> JobLeased(t, job.value, s.leases) && JobClean(job.value, s.helpers)
    ensures WorkerInv(w, p, StepTool(s, t, job, a).value.0)
  {
  }

  lemma ToolKeepsJob(s: Shared, t: Tool, job: Option<Job>, a: ToolStep)
    requires StepTool(s, t, job, a).Some?
    requires job.Some? ==> JobLeased(t, job.value, s.leases) && JobClean(job.value, s.helpers)
    ensures var (s', job') := StepTool(s, t, job, a).value;
            job'.Some? ==> JobLeased(t, job'.value, s'.leases) && JobClean(job'.value, s'.helpers)
  {
  }

  lemma ToolSparesJobs(s: Shared, t: Tool, job: Option<Job>, a: ToolStep, u: Tool, j: Job)
    requires StepTool(s, t, job, a).Some? && u != t && JobLeased(u, j, s.leases) && JobClean(j, s.helpers)
    ensures JobLeased(u, j, StepTool(s, t, job, a).value.0.leases) && JobClean(j, StepTool(s, t, job, a).value.0.helpers)
  {
  }

  lemma ToolShrinks(s: Shared, t: Tool, job: Option<Job>, a: ToolStep)
    requires StepTool(s, t, job, a).Some?
    ensures var s' := StepTool(s, t, job, a).value.0;
            s'.helpers <= s.helpers && s'.records.Keys <= s.records.Keys && forall id :: id in s'.records ==> s'.records[id] == s.records[id]
  {
  }

  lemma ToolKeepsInv(x: Sys, t: Tool, a: ToolStep)
    requires Inv(x) && Step(x, Use(t, a)).Some?
    ensures Inv(Step(x, Use(t, a)).value)
  {
    var (job, y) := (JobOf(x.jobs, t), Step(x, Use(t, a)).value);
    forall w | w in y.procs ensures WorkerInv(w, y.procs[w], y.s) {
      ToolSpares(x.s, t, job, a, w, x.procs[w]);
    }
    ToolKeepsJob(x.s, t, job, a);
    forall u | u in y.jobs ensures JobLeased(u, y.jobs[u], y.s.leases) && JobClean(y.jobs[u], y.s.helpers) {
      if u != t {
        ToolSparesJobs(x.s, t, job, a, u, x.jobs[u]);
      }
    }
    ToolShrinks(x.s, t, job, a);
    ShrinkKeeps(x.procs, x.s, y.s);
  }

  lemma ShrinkKeeps(procs: map<Worker, Proc>, s: Shared, t: Shared)
    requires RecordsInv(s.records, procs) && HelpersInv(s.helpers, procs) && OwnPids(s.records, procs)
    requires t.helpers <= s.helpers && t.records.Keys <= s.records.Keys
    requires forall id :: id in t.records ==> t.records[id] == s.records[id]
    ensures RecordsInv(t.records, procs) && HelpersInv(t.helpers, procs) && OwnPids(t.records, procs)
  {
    forall id | id in t.records ensures id in s.records {
      assert id in t.records.Keys;
    }
    forall w | w in procs ensures OwnPid(w, procs[w], t.records) {
      assert OwnPid(w, procs[w], s.records);
    }
  }

  lemma StepKeepsInv(x: Sys, a: Action)
    requires Inv(x) && Step(x, a).Some?
    ensures Inv(Step(x, a).value)
  {
    match a
    case Spawn(w, id, pid) => SpawnKeepsInv(x, w, id, pid);
    case Work(w, e) => WorkKeepsInv(x, w, e);
    case Die(w) => DieKeepsInv(x, w);
    case Use(t, step) => ToolKeepsInv(x, t, step);
  }

  lemma RunStep(xs: seq<Sys>, acts: seq<Action>, i: nat)
    requires IsRun(xs, acts) && i < |acts|
    ensures Step(xs[i], acts[i]) == Some(xs[i + 1])
  {
  }

  lemma {:induction false} RunKeepsInv(xs: seq<Sys>, acts: seq<Action>, i: nat)
    requires IsRun(xs, acts) && i < |xs|
    ensures Inv(xs[i])
  {
    if i > 0 {
      RunKeepsInv(xs, acts, i - 1);
      RunStep(xs, acts, i - 1);
      StepKeepsInv(xs[i - 1], acts[i - 1]);
    }
  }

  // ----- what tools have seen -----

  /** The worker whose record the tool read, and what the tool has concluded about it. */
  predicate Seen(id: Id, r: Record, procs: map<Worker, Proc>) {
    r.worker in procs && procs[r.worker].id == id && procs[r.worker].l.stored
  }

  predicate Traceless(id: Id, r: Record, s: Shared) {
    (id, r.worker) !in s.helpers && !(id in s.records && s.records[id].worker == r.worker)
  }

  /** Its worker has left its lease, its helper and its record. */
  predicate Gone(id: Id, r: Record, procs: map<Worker, Proc>, s: Shared) {
    Seen(id, r, procs) && Traceless(id, r, s) && !Inside(procs[r.worker].l.phase)
  }

  predicate JobSound(j: Job, procs: map<Worker, Proc>, s: Shared) {
    match j
    case Looking(id, r) => Seen(id, r, procs)
    case Locked(id, stale) => stale.Some? ==> Seen(id, stale.value, procs)
    case Cleaned(id, stale) => stale.Some? ==> Seen(id, stale.value, procs)
    case Leaving(id, removed) => removed.Some? ==> Gone(id, removed.value, procs, s)
    case Waiting(id, r) => Seen(id, r, procs)
    case Absent(id, r) => Seen(id, r, procs) && Traceless(id, r, s)
    case Killed(id, r) => Gone(id, r, procs, s)
  }

  /** A worker that stored its record never makes a helper, stores a record or takes a lease again. */
  lemma StoredStays(s: Shared, w: Worker, p: Proc, e: Event)
    requires AfterWork(s, w, p, e).Some? && p.l.stored && Local0(p)
    ensures var (t, q) := AfterWork(s, w, p, e).value;
            && q.id == p.id && q.l.stored && (Inside(q.l.phase) ==> Inside(p.l.phase)) && t.helpers <= s.helpers
            && forall id :: id in t.records ==> id in s.records && t.records[id] == s.records[id]
  {
  }

  lemma WorkKeepsSound(s: Shared, procs: map<Worker, Proc>, w: Worker, e: Event, j: Job)
    requires w in procs && AfterWork(s, w, procs[w], e).Some? && JobSound(j, procs, s) && Local0(procs[w])
    requires OwnPid(w, procs[w], s.records)
    ensures var (t, q) := AfterWork(s, w, procs[w], e).value; JobSound(j, procs[w := q], t)
  {
    if procs[w].l.stored {
      StoredStays(s, w, procs[w], e);
    } else {
      WorkHelpers(s, w, procs[w], e);
      WorkRecords(s, w, procs[w], e);
    }
  }

  lemma ToolKeepsSound(x: Sys, t: Tool, a: ToolStep, u: Tool)
    requires Inv(x) && Step(x, Use(t, a)).Some? && (u in x.jobs ==> JobSound(x.jobs[u], x.procs, x.s))
    ensures var y := Step(x, Use(t, a)).value; u in y.jobs ==> JobSound(y.jobs[u], y.procs, y.s)
  {
    var job := JobOf(x.jobs, t);
    ToolShrinks(x.s, t, job, a);
    var (s, after) := StepTool(x.s, t, job, a).value;
    if u != t {
      if u in x.jobs {
        ShrinkKeepsSound(x.jobs[u], x.procs, x.s, s);
      }
    } else if after.Some? {
      OwnSound(x, t, a, job);
    }
  }

  lemma ShrinkKeepsSound(j: Job, procs: map<Worker, Proc>, s: Shared, t: Shared)
    requires JobSound(j, procs, s) && t.helpers <= s.helpers && t.records.Keys <= s.records.Keys
    requires forall id :: id in t.records ==> t.records[id] == s.records[id]
    ensures JobSound(j, procs, t)
  {
    forall id | id in t.records ensures id in s.records {
      assert id in t.records.Keys;
    }
  }

  /** Under the lease, after a full cleanup, removing the record a tool had read leaves its worker nothing. */
  lemma RemoveSound(x: Sys, t: Tool, ok: bool, job: Job)
    requires Inv(x) && JobOf(x.jobs, t) == Some(job) && JobSound(job, x.procs, x.s)
    requires StepTool(x.s, t, Some(job), Remove(ok)).Some?
    ensures var (s, after) := StepTool(x.s, t, Some(job), Remove(ok)).value; after.Some? && JobSound(after.value, x.procs, s)
  {
    var r := job.stale.value;
    assert JobLeased(t, job, x.s.leases) && JobClean(job, x.s.helpers);
    assert WorkerInv(r.worker, x.procs[r.worker], x.s);
  }

  lemma PollSound(x: Sys, t: Tool, a: ToolStep, job: Job)
    requires Inv(x) && JobOf(x.jobs, t) == Some(job) && JobSound(job, x.procs, x.s)
    requires a.PollRecord? || a.PollLease?
    requires StepTool(x.s, t, Some(job), a).Some?
    ensures var (s, after) := StepTool(x.s, t, Some(job), a).value; after.Some? && JobSound(after.value, x.procs, s)
  {
    assert WorkerInv(job.r.worker, x.procs[job.r.worker], x.s);
  }

  lemma OwnSound(x: Sys, t: Tool, a: ToolStep, job: Option<Job>)
    requires Inv(x) && job == JobOf(x.jobs, t) && StepTool(x.s, t, job, a).Some?
    requires job.Some? ==> JobSound(job.value, x.procs, x.s)
    ensures var (s, after) := StepTool(x.s, t, job, a).value; after.Some? ==> JobSound(after.value, x.procs, s)
  {
    match a
    case Remove(ok) => RemoveSound(x, t, ok, job.value);
    case PollRecord => PollSound(x, t, a, job.value);
    case PollLease => PollSound(x, t, a, job.value);
    case _ =>
  }

  ghost predicate AllSound(x: Sys) {
    forall t :: t in x.jobs ==> JobSound(x.jobs[t], x.procs, x.s)
  }

  lemma StepKeepsSound(x: Sys, a: Action)
    requires Inv(x) && AllSound(x) && Step(x, a).Some?
    ensures AllSound(Step(x, a).value)
  {
    var y := Step(x, a).value;
    forall t | t in y.jobs ensures JobSound(y.jobs[t], y.procs, y.s) {
      match a
      case Spawn(w, _, _) =>
      case Work(w, e) =>
        assert WorkerInv(w, x.procs[w], x.s) && OwnPid(w, x.procs[w], x.s.records);
        WorkKeepsSound(x.s, x.procs, w, e, x.jobs[t]);
      case Die(w) =>
      case Use(u, step) => ToolKeepsSound(x, u, step, t);
    }
  }

  lemma {:induction false} RunKeepsSound(xs: seq<Sys>, acts: seq<Action>, i: nat)
    requires IsRun(xs, acts) && i < |xs|
    ensures AllSound(xs[i])
  {
    if i > 0 {
      RunKeepsSound(xs, acts, i - 1);
      RunKeepsInv(xs, acts, i - 1);
      RunStep(xs, acts, i - 1);
      StepKeepsSound(xs[i - 1], acts[i - 1]);
    }
  }

  // ----- results -----

  /** Stale cleanup never touches a helper of a worker that is between acquiring and closing the lease. */
  lemma CleanupIsExclusive(xs: seq<Sys>, acts: seq<Action>, i: nat, t: Tool, w: Worker)
    requires IsRun(xs, acts) && i < |acts| && acts[i].Use? && acts[i].t == t && acts[i].step.CleanUp?
    requires t in xs[i].jobs && xs[i].jobs[t].Locked? && w in xs[i].procs && xs[i].procs[w].id == xs[i].jobs[t].id
    ensures !Inside(xs[i].procs[w].l.phase)
  {
    RunKeepsInv(xs, acts, i);
    assert WorkerInv(w, xs[i].procs[w], xs[i].s);
  }

  /**
   A record leaves the store in two ways: its own worker removes it after every cleanup succeeded, or a
   tool removes it under the lease once no helper of the instance is left. Either way its helper is gone.
   */
  lemma RecordsLeaveClean(xs: seq<Sys>, acts: seq<Action>, i: nat, id: Id)
    requires IsRun(xs, acts) && i < |acts| && id in xs[i].s.records
    requires !(id in xs[i + 1].s.records && xs[i + 1].s.records[id] == xs[i].s.records[id])
    ensures id !in xs[i + 1].s.records
    ensures var r := xs[i].s.records[id];
            && (id, r.worker) !in xs[i].s.helpers
            && ((acts[i] == Work(r.worker, RemoveRecord(true)) && xs[i].procs[r.worker].l.published && !xs[i].procs[r.worker].l.failed)
                || (exists t :: acts[i] == Use(t, Remove(true)) && t in xs[i].jobs && xs[i].jobs[t].Cleaned?
                                && id in xs[i].s.leases && xs[i].s.leases[id] == ByTool(t)))
  {
    RunKeepsInv(xs, acts, i);
    var (x, a) := (xs[i], acts[i]);
    assert Step(x, a) == Some(xs[i + 1]);
    match a
    case Spawn(_, _, _) =>
    case Die(_) =>
    case Work(w, e) =>
      assert WorkerInv(w, x.procs[w], x.s) && OwnPid(w, x.procs[w], x.s.records);
      WorkRecords(x.s, w, x.procs[w], e);
    case Use(t, step) =>
      assert JobLeased(t, x.jobs[t], x.s.leases) && JobClean(x.jobs[t], x.s.helpers);
  }

  /** No orphans: a worker whose record was stored and is gone has no helper left. */
  lemma NoOrphanHelper(xs: seq<Sys>, acts: seq<Action>, i: nat, w: Worker)
    requires IsRun(xs, acts) && i < |xs| && w in xs[i].procs && xs[i].procs[w].l.stored
    requires !(xs[i].procs[w].id in xs[i].s.records && xs[i].s.records[xs[i].procs[w].id].worker == w)
    ensures (xs[i].procs[w].id, w) !in xs[i].s.helpers
  {
    RunKeepsInv(xs, acts, i);
    assert WorkerInv(w, xs[i].procs[w], xs[i].s);
  }

  /**
   Whether its shutdown was acknowledged and awaited or it was cleaned up as stale: when a kill reports
   success the worker whose record it read has left its lease, its record and its helper.
   */
  lemma KillMeansGone(xs: seq<Sys>, acts: seq<Action>, i: nat, t: Tool)
    requires IsRun(xs, acts) && i < |xs| && t in xs[i].jobs && xs[i].jobs[t].Killed?
    ensures var (id, r) := (xs[i].jobs[t].id, xs[i].jobs[t].r);
            && r.worker in xs[i].procs && !Inside(xs[i].procs[r.worker].l.phase)
            && (id, r.worker) !in xs[i].s.helpers
            && !(id in xs[i].s.records && xs[i].s.records[id].worker == r.worker)
  {
    RunKeepsSound(xs, acts, i);
  }
}

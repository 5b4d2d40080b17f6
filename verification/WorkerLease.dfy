/**
 One worker's life (Run in internal/share/service.go): the steps it takes, the early returns, and the
 deferred cleanups they unwind through.
 */
module WorkerLease {
  import opened Options

  datatype Phase =
    | Starting // no lease yet
    | Leased
    | Helped // the helper exists
    | Mirrored
    | Serving // the control socket is served
    | StoppingControl
    | StoppingMirror
    | ClosingHelper
    | Pruning
    | ClosingLease
    | RemovingRecord
    | Ended
    | Crashed

  /** `published` and `failed` are Run's variables published and cleanupErr; `stored`: its record reached the store. */
  datatype Local = Local(phase: Phase, published: bool, stored: bool, failed: bool)

  const Born := Local(Starting, false, false, false)

  datatype Event =
    | Acquire(ok: bool)
    | CreateHelper(ok: bool, made: bool) // a failed creation may leave a session behind
    | NewMirror(ok: bool)
    | StartMirror(ok: bool)
    | Publish(ok: bool, kept: bool) // so may a failed write leave the record
    | Stop // anything that ends the service: shutdown, an error, or control failing before publication
    | StopControl(ok: bool)
    | StopMirror(ok: bool)
    | CloseHelper(ok: bool, gone: bool)
    | Prune
    | CloseLease(ok: bool, released: bool)
    | RemoveRecord(ok: bool) // skipped when nothing was published or the cleanup failed
    | Exit

  predicate Sensible(e: Event) {
    match e
    case CreateHelper(ok, made) => ok ==> made
    case Publish(ok, kept) => ok ==> kept
    case CloseHelper(ok, gone) => ok ==> gone
    case CloseLease(ok, released) => ok ==> released
    case _ => true
  }

  function Fail(l: Local, ok: bool, next: Phase): Local {
    l.(phase := next, failed := l.failed || !ok)
  }

  /** Run's control flow: every early return unwinds through the deferred steps registered so far. */
  function LocalStep(l: Local, e: Event): Option<Local> {
    match e
    case Acquire(ok) => if !l.phase.Starting? then None else Some(l.(phase := if ok then Leased else Ended))
    case CreateHelper(ok, _) => if !l.phase.Leased? then None else Some(l.(phase := if ok then Helped else Pruning))
    case NewMirror(ok) => if !l.phase.Helped? then None else Some(l.(phase := if ok then Mirrored else ClosingHelper))
    case StartMirror(ok) => if !l.phase.Mirrored? then None else Some(l.(phase := if ok then Serving else StoppingMirror))
    case Publish(ok, kept) =>
      if !l.phase.Serving? || l.stored then None
      else Some(l.(published := ok, stored := kept, phase := if ok then Serving else StoppingControl))
    case Stop => if !l.phase.Serving? then None else Some(l.(phase := StoppingControl))
    case StopControl(ok) => if !l.phase.StoppingControl? then None else Some(Fail(l, ok, StoppingMirror))
    case StopMirror(ok) => if !l.phase.StoppingMirror? then None else Some(Fail(l, ok, ClosingHelper))
    case CloseHelper(ok, _) => if !l.phase.ClosingHelper? then None else Some(Fail(l, ok, Pruning))
    case Prune => if !l.phase.Pruning? then None else Some(l.(phase := ClosingLease))
    case CloseLease(ok, _) => if !l.phase.ClosingLease? then None else Some(Fail(l, ok, RemovingRecord))
    case RemoveRecord(_) =>
      if !l.phase.RemovingRecord? || !l.published || l.failed then None else Some(l.(phase := Ended))
    case Exit => if !l.phase.RemovingRecord? || (l.published && !l.failed) then None else Some(l.(phase := Ended))
  }

  /** From acquiring the lease to closing it. */
  predicate Inside(p: Phase) {
    !p.Starting? && !p.RemovingRecord? && !p.Ended? && !p.Crashed?
  }

  predicate Alive(p: Phase) {
    !p.Ended? && !p.Crashed?
  }

  /** The steps a run has taken, oldest innermost. */
  datatype Log = Nothing | Then(before: Log, event: Event)

  function Follow(log: Log): Option<Local> {
    match log
    case Nothing => Some(Born)
    case Then(before, e) =>
      if Follow(before).None? || !Sensible(e) then None else LocalStep(Follow(before).value, e)
  }

  predicate Took(log: Log, e: Event) {
    match log case Nothing => false case Then(before, last) => e == last || Took(before, e)
  }

  /** How each step of Run turns out. */
  datatype Fate = Fate(
    lease: bool, helper: bool, made: bool, mirror: bool, started: bool, serves: bool, published: bool, kept: bool,
    controlStops: bool, mirrorStops: bool, helperCloses: bool, gone: bool, leaseCloses: bool, released: bool, removes: bool)

  predicate Plausible(f: Fate) {
    (f.helper ==> f.made) && (f.published ==> f.kept) && (f.helperCloses ==> f.gone) && (f.leaseCloses ==> f.released)
  }

  /** One step of Run: what happened, and Run's variables after it. */
  method Do(log: Log, l: Local, e: Event) returns (log': Log, l': Local)
    requires Follow(log) == Some(l) && Sensible(e) && LocalStep(l, e).Some?
    ensures Follow(log') == Some(l') && LocalStep(l, e) == Some(l')
    ensures forall x :: Took(log', x) <==> x == e || Took(log, x)
  {
    log', l' := Then(log, e), LocalStep(l, e).value;
  }

  function Reached(f: Fate): Phase {
    if !f.helper then Pruning else if !f.mirror then ClosingHelper else if !f.started then StoppingMirror else StoppingControl
  }

  predicate Early(e: Event) {
    !e.RemoveRecord? && !e.CloseLease? && !e.CloseHelper?
  }

  /** The body of Run after it holds the lease; each early return leaves the cleanups deferred so far. */
  method Serve(f: Fate) returns (log: Log, l: Local)
    requires Plausible(f)
    ensures Follow(log) == Some(l)
    ensures l.phase == Reached(f) && !l.failed && l.published == (l.phase.StoppingControl? && f.serves && f.published)
    ensures forall e :: Took(log, e) ==> Early(e)
  {
    log, l := Do(Nothing, Born, Acquire(true));
    log, l := Do(log, l, CreateHelper(f.helper, f.made));
    if !f.helper { return; }
    log, l := Do(log, l, NewMirror(f.mirror));
    if !f.mirror { return; }
    log, l := Do(log, l, StartMirror(f.started));
    if !f.started { return; }
    if f.serves {
      log, l := Do(log, l, Publish(f.published, f.kept));
      if !f.published { return; }
    }
    log, l := Do(log, l, Stop);
  }

  predicate AllStopped(f: Fate, reached: Phase) {
    (reached.StoppingControl? ==> f.controlStops) && (!reached.Pruning? && !reached.ClosingHelper? ==> f.mirrorStops)
    && (!reached.Pruning? ==> f.helperCloses)
  }

  /** The deferred control, mirror and helper cleanups, last registered first. */
  method StopServices(f: Fate, log0: Log, l0: Local) returns (log: Log, l: Local)
    requires Plausible(f) && Follow(log0) == Some(l0) && l0.phase == Reached(f) && !l0.failed
    requires forall e :: Took(log0, e) ==> Early(e)
    ensures Follow(log) == Some(l) && l.phase == Pruning && l.published == l0.published
    ensures l.failed == !AllStopped(f, l0.phase)
    ensures Took(log, CloseHelper(f.helperCloses, f.gone)) <==> f.helper
    ensures forall e :: Took(log, e) ==> Early(e) || (e.CloseHelper? && f.helper)
  {
    log, l := log0, l0;
    if l.phase.StoppingControl? {
      log, l := Do(log, l, StopControl(f.controlStops));
    }
    if l.phase.StoppingMirror? {
      log, l := Do(log, l, StopMirror(f.mirrorStops));
    }
    if l.phase.ClosingHelper? {
      log, l := Do(log, l, CloseHelper(f.helperCloses, f.gone));
    }
  }

  /** The last deferred step. */
  method Leave(f: Fate, log0: Log, l0: Local) returns (log: Log, l: Local)
    requires Follow(log0) == Some(l0) && l0.phase == RemovingRecord
    ensures Follow(log) == Some(l) && l.phase == Ended
    ensures forall e: Event :: Took(log, e) <==>
              Took(log0, e) || e == if l0.published && !l0.failed then RemoveRecord(f.removes) else Exit
  {
    if !l0.published || l0.failed {
      log, l := Do(log0, l0, Exit);
    } else {
      log, l := Do(log0, l0, RemoveRecord(f.removes));
    }
  }

  method Release(f: Fate, log0: Log, l0: Local) returns (log: Log, l: Local)
    requires Plausible(f) && Follow(log0) == Some(l0) && l0.phase == Pruning
    ensures Follow(log) == Some(l) && l == Fail(l0, f.leaseCloses, RemovingRecord)
    ensures forall e: Event :: Took(log, e) <==> Took(log0, e) || e == Prune || e == CloseLease(f.leaseCloses, f.released)
  {
    log, l := Do(log0, l0, Prune);
    log, l := Do(log, l, CloseLease(f.leaseCloses, f.released));
  }

  method Finish(f: Fate, log0: Log, l0: Local) returns (log: Log, l: Local)
    requires Plausible(f) && Follow(log0) == Some(l0) && l0.phase == Pruning
    ensures Follow(log) == Some(l) && l.phase == Ended
    ensures forall e: Event :: Took(log, e) <==>
              Took(log0, e) || e == Prune || e == CloseLease(f.leaseCloses, f.released)
              || e == if l0.published && !l0.failed && f.leaseCloses then RemoveRecord(f.removes) else Exit
  {
    log, l := Release(f, log0, l0);
    log, l := Leave(f, log, l);
  }

  /**
   A run always ends; whenever it took the lease it closes it, whenever it made a helper it closes that,
   and it removes its record only when it published one and every cleanup before succeeded.
   */
  method Run(f: Fate) returns (log: Log)
    requires Plausible(f)
    ensures Follow(log).Some? && Follow(log).value.phase == Ended
    ensures Took(log, CloseLease(f.leaseCloses, f.released)) <==> f.lease
    ensures Took(log, CloseHelper(f.helperCloses, f.gone)) <==> f.lease && f.helper
    ensures Took(log, RemoveRecord(f.removes)) <==>
            f.lease && f.helper && f.mirror && f.started && f.serves && f.published
            && f.controlStops && f.mirrorStops && f.helperCloses && f.leaseCloses
  {
    var l: Local;
    if !f.lease {
      log, l := Do(Nothing, Born, Acquire(false));
      return;
    }
    log, l := Serve(f);
    log, l := StopServices(f, log, l);
    log, l := Finish(f, log, l);
  }
}

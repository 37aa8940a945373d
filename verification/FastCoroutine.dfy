/**
 The coroutine object that layers flags over thread creation, interrupt and join, and what
 every interleaving of its callers and its worker keeps.
 */
module FastCoroutine {
  import C = SchedulerCauses
  import I = SchedulerInvariant
  import M = SchedulerModel
  import T = Threads

  datatype Code = Started | Disposed | CreateFailed | Interrupted | Terminated | CycleError

  /** An error object: two are the same only if they come from one allocation. */
  datatype Err = Success | Failure(code: Code, id: nat)

  /** The thread behind the object. */
  datatype Worker = Absent | Running | Ended(res: Err) | Joined(res: Err)

  /** Where the one stopping caller is. */
  datatype Stopper = NotStopping | Waiting | Stopped | Crashed(assertion: Assertion)

  /**
   The assertions inside stop: it is not called again while in progress; the join succeeds; the
   recorded error is the worker's.
   */
  datatype Assertion = StopsOnce | JoinSucceeds | ErrorIsWorkers

  /** How a join begins: with the exit value of a thread that has ended, with a failure, or with a wait. */
  datatype JoinStart = Joins | Fails | Waits

  /**
   The fields of the object; then its thread, its stopper and the stopper's own pending
   interrupt; then how many threads and interrupts it asked for, how many of those interrupts
   were not for a live thread, and the number of the next error object.
   */
  datatype Co = Co(trd: bool, trdErr: Err, started: bool, interrupted: bool, disposed: bool, cycleDone: bool,
                   stopping: bool, worker: Worker, stopper: Stopper, stopperPending: bool,
                   starts: nat, interrupts: nat, strayInterrupts: nat, nextId: nat)

  const INITIAL := Co(false, Success, false, false, false, false, false, Absent, NotStopping, false, 0, 0, 0, 0)

  // ---------- the calls as functions ----------

  /** A new error object. */
  function New(s: Co, code: Code): Err {
    Failure(code, s.nextId)
  }

  /** Records a new error unless one is recorded. */
  function Record(s: Co, code: Code): Co {
    if s.trdErr == Success then s.(trdErr := New(s, code), nextId := s.nextId + 1) else s
  }

  function Start(s: Co, created: bool): Co {
    if s.disposed then Record(s, Disposed)
    else if s.started then Record(s, Started)
    else if !created then s.(trd := false, trdErr := New(s, CreateFailed), nextId := s.nextId + 1)
    else s.(trd := true, started := true, worker := Running, starts := s.starts + 1)
  }

  function Interrupt(s: Co): Co {
    if !s.started || s.interrupted || s.cycleDone then s
    else
      var s1 := Record(s.(interrupted := true), Interrupted);
      s1.(interrupts := s.interrupts + 1,
          strayInterrupts := s.strayInterrupts + if s.worker.Running? || s.worker.Ended? then 0 else 1)
  }

  /** The handler returns, and the thread runs on to its exit without a switch. */
  function CycleEnds(s: Co, failed: bool): Co {
    if failed then
      var err := New(s, CycleError);
      s.(trdErr := err, nextId := s.nextId + 1, worker := Ended(err))
    else s.(cycleDone := true, worker := Ended(Success))
  }

  /** A join looks at its thread first; a pending interrupt only keeps it from waiting. */
  function StartJoin(ended: bool, pending: bool): JoinStart {
    if ended then Joins else if pending then Fails else Waits
  }

  /** Stop up to its wait for the worker, or to its end when there is nothing to wait for. */
  function Stop(s: Co): Co {
    if s.disposed then if s.stopping then s.(stopper := Crashed(StopsOnce)) else s
    else
      var s1 := Interrupt(s.(disposed := true, stopping := true));
      if s.trd then StopJoins(s1) else StopEnd(s1)
  }

  /** The join of the worker up to its wait. */
  function StopJoins(s: Co): Co {
    match StartJoin(s.worker.Ended?, s.stopperPending)
    case Joins => StopJoined(s)
    case Fails => s.(stopper := Crashed(JoinSucceeds), stopperPending := false)
    case Waits => s.(stopper := Waiting)
  }

  /** The stopper runs again: its wait is over, or was interrupted. */
  function StopResume(s: Co): Co {
    if s.stopperPending then s.(stopper := Crashed(JoinSucceeds), stopperPending := false)
    else if s.worker.Ended? then StopJoined(s)
    else s
  }

  /** The join returned the worker's result. */
  function StopJoined(s: Co): Co
    requires s.worker.Ended?
  {
    var res := s.worker.res;
    var s1 := s.(worker := Joined(res));
    if res != Success && s.trdErr != res then s1.(stopper := Crashed(ErrorIsWorkers)) else StopEnd(s1)
  }

  function StopEnd(s: Co): Co {
    (if s.trdErr == Success && !s.cycleDone then Record(s, Terminated) else s).(stopping := false, stopper := Stopped)
  }

  // ---------- the object ----------

  class SrsFastCoroutine {
    var trd: bool
    var trdErr: Err
    var started: bool
    var interrupted: bool
    var disposed: bool
    var cycleDone: bool
    var stopping: bool
    var nextId: nat
    // of the thread library
    var worker: Worker
    var stopper: Stopper
    var stopperPending: bool
    ghost var starts: nat
    ghost var interrupts: nat
    ghost var strayInterrupts: nat

    ghost function View(): Co
      reads this
    {
      Co(trd, trdErr, started, interrupted, disposed, cycleDone, stopping, worker, stopper, stopperPending,
         starts, interrupts, strayInterrupts, nextId)
    }

    constructor ()
      ensures View() == INITIAL
    {
      trd, trdErr, started, interrupted, disposed := false, Success, false, false, false;
      cycleDone, stopping := false, false;
      worker, stopper, stopperPending := Absent, NotStopping, false;
      starts, interrupts, strayInterrupts, nextId := 0, 0, 0, 0;
    }

    method NewError(code: Code) returns (err: Err)
      modifies `nextId
      ensures err == New(old(View()), code) && nextId == old(nextId) + 1
    {
      err := Failure(code, nextId);
      nextId := nextId + 1;
    }

    /** `created` is whether thread creation succeeds. */
    method StartThread(created: bool) returns (ok: bool)
      modifies this
      ensures View() == Start(old(View()), created) && (ok <==> !old(disposed) && !old(started) && created)
    {
      if started || disposed {
        if trdErr == Success {
          trdErr := NewError(if disposed then Disposed else Started);
        }
        return false;
      }
      trd := created;
      if !created {
        trdErr := NewError(CreateFailed);
        return false;
      }
      worker, starts := Running, starts + 1;
      started := true;
      return true;
    }

    method InterruptThread()
      modifies this
      ensures View() == Interrupt(old(View()))
    {
      if !started || interrupted || cycleDone {
        return;
      }
      interrupted := true;
      if trdErr == Success {
        trdErr := NewError(Interrupted);
      }
      interrupts := interrupts + 1;
      strayInterrupts := strayInterrupts + if worker.Running? || worker.Ended? then 0 else 1;
    }

    /** The worker's thread function from the return of its handler on. */
    method Pfn(failed: bool)
      modifies this
      ensures View() == CycleEnds(old(View()), failed)
    {
      if failed {
        var err := NewError(CycleError);
        trdErr := err;
        worker := Ended(err);
      } else {
        cycleDone := true;
        worker := Ended(Success);
      }
    }

    method StopThread()
      modifies this
      ensures View() == Stop(old(View()))
    {
      if disposed {
        if stopping {
          stopper := Crashed(StopsOnce);
        }
        return;
      }
      disposed := true;
      stopping := true;
      InterruptThread();
      if trd {
        JoinWorker();
      } else {
        Finish();
      }
    }

    method JoinWorker()
      modifies this
      ensures View() == StopJoins(old(View()))
    {
      if worker.Ended? {
        AfterJoin();
      } else if stopperPending {
        stopper, stopperPending := Crashed(JoinSucceeds), false;
      } else {
        stopper := Waiting;
      }
    }

    method AfterJoin()
      requires worker.Ended?
      modifies this
      ensures View() == StopJoined(old(View()))
    {
      var res := worker.res;
      worker := Joined(res);
      if res != Success && trdErr != res {
        stopper := Crashed(ErrorIsWorkers);
      } else {
        Finish();
      }
    }

    method Finish()
      modifies this
      ensures View() == StopEnd(old(View()))
    {
      if trdErr == Success && !cycleDone {
        trdErr := NewError(Terminated);
      }
      stopping := false;
      stopper := Stopped;
    }

    method Pull() returns (err: Err)
      modifies `nextId
      ensures err == Success <==> trdErr == Success
      ensures trdErr != Success ==> err == Failure(trdErr.code, old(nextId))
    {
      if trdErr == Success {
        return Success;
      }
      err := NewError(trdErr.code);
    }
  }

  // ---------- runs ----------

  /** What any caller, the stopper's interrupter, or the worker does between two context switches. */
  datatype Action = StartCall(created: bool) | InterruptCall | StopCall | StopperResumes | StopperInterrupted
      | WorkerEnds(failed: bool)

  /** When an action can happen.  A crash ends the program, and the worker's thread ends once. */
  ghost predicate Enabled(s: Co, a: Action) {
    !s.stopper.Crashed? &&
    match a
    case StopperResumes => s.stopper.Waiting? && (s.stopperPending || s.worker.Ended?)
    case WorkerEnds(_) => s.worker.Running?
    case _ => true
  }

  ghost function Do(s: Co, a: Action): Co {
    match a
    case StartCall(created) => Start(s, created)
    case InterruptCall => Interrupt(s)
    case StopCall => Stop(s)
    case StopperResumes => StopResume(s)
    case StopperInterrupted => s.(stopperPending := true)
    case WorkerEnds(failed) => CycleEnds(s, failed)
  }

  ghost predicate Inv(s: Co) {
    && (s.trd <==> s.started) && (s.started <==> !s.worker.Absent?)
    && s.starts == (if s.started then 1 else 0)
    && s.interrupts == (if s.interrupted then 1 else 0) && s.strayInterrupts == 0
    && (s.trdErr != Success ==> s.trdErr.id < s.nextId) && (s.interrupted ==> s.trdErr != Success)
    && (!s.started && !s.disposed && s.trdErr != Success ==> s.trdErr.code == CreateFailed)
    // a finished worker left its error, or the mark that it had none
    && (s.worker.Ended? || s.worker.Joined? ==>
          if s.worker.res == Success then s.cycleDone else s.trdErr == s.worker.res && !s.cycleDone)
    && (s.cycleDone ==> s.worker.Ended? || s.worker.Joined?)
    // stop disposes and interrupts before it waits, and the thread is joined only by it
    && (s.disposed <==> s.stopper != NotStopping) && (s.stopping <==> s.stopper.Waiting? || s.stopper.Crashed?)
    && (s.stopper != NotStopping && s.started ==> s.interrupted || s.cycleDone)
    && (s.worker.Joined? ==> s.stopper == Stopped)
    && (s.stopper.Waiting? ==> s.started)
    && (s.stopper == Stopped ==> s.worker.Joined? || s.worker.Absent?)
    && (s.stopper == Stopped ==> s.trdErr != Success || s.cycleDone)
    && s.stopper != Crashed(ErrorIsWorkers)
  }

  lemma StepKeeps(s: Co, a: Action)
    requires Inv(s) && Enabled(s, a)
    ensures Inv(Do(s, a))
  {
    match a
    case StartCall(_) =>
    case InterruptCall =>
    case StopCall =>
    case StopperResumes =>
    case StopperInterrupted =>
    case WorkerEnds(_) =>
  }

  ghost predicate IsRun(ss: seq<Co>, actions: seq<Action>) {
    && |ss| == |actions| + 1 && ss[0] == INITIAL
    && forall i | 0 <= i < |actions| :: Enabled(ss[i], actions[i]) && ss[i + 1] == Do(ss[i], actions[i])
  }

  lemma {:induction false} RunInv(ss: seq<Co>, actions: seq<Action>, i: nat)
    requires IsRun(ss, actions) && i <= |actions|
    ensures Inv(ss[i])
  {
    if i > 0 {
      RunInv(ss, actions, i - 1);
      StepKeeps(ss[i - 1], actions[i - 1]);
    }
  }

  /**
   Over every run: the comparison of the recorded error with the worker's never fails, at
   most one thread is started and one interrupt sent, never to a thread that is gone, and
   stop leaves success only if the cycle was done.
   */
  lemma RunSafe(ss: seq<Co>, actions: seq<Action>, i: nat)
    requires IsRun(ss, actions) && i <= |actions|
    ensures ss[i].stopper != Crashed(ErrorIsWorkers)
    ensures ss[i].starts <= 1 && ss[i].interrupts <= 1 && ss[i].strayInterrupts == 0
    ensures ss[i].stopper == Stopped && ss[i].trdErr == Success ==> ss[i].cycleDone
    ensures ss[i].worker.Joined? && ss[i].worker.res != Success ==> ss[i].trdErr == ss[i].worker.res
  {
    RunInv(ss, actions, i);
  }

  lemma InterruptKeepsError(s: Co)
    requires s.trdErr != Success
    ensures Interrupt(s).trdErr == s.trdErr && Interrupt(s).worker == s.worker
  {
  }

  lemma StopKeepsError(s: Co)
    requires s.trdErr != Success
    ensures Stop(s).trdErr == s.trdErr
  {
    InterruptKeepsError(s.(disposed := true, stopping := true));
  }

  /** A recorded error is replaced only by the worker's, or by that of a creation that fails. */
  lemma StepKeepsError(s: Co, a: Action)
    requires s.trdErr != Success && Enabled(s, a)
    ensures Do(s, a).trdErr != Success
    ensures Do(s, a).trdErr == s.trdErr || a == WorkerEnds(true) || a == StartCall(false)
  {
    match a
    case InterruptCall => InterruptKeepsError(s);
    case StopCall => StopKeepsError(s);
    case _ =>
  }

  /** Once pull reports an error it never reports success again. */
  lemma {:induction false} ErrorsStay(ss: seq<Co>, actions: seq<Action>, i: nat, j: nat)
    requires IsRun(ss, actions) && i <= j <= |actions| && ss[i].trdErr != Success
    ensures ss[j].trdErr != Success
  {
    hide Inv, Do, Enabled;
    if i < j {
      ErrorsStay(ss, actions, i, j - 1);
      StepKeepsError(ss[j - 1], actions[j - 1]);
    }
  }

  // ---------- what the calls so far determine ----------

  ghost predicate StopCalled(actions: seq<Action>, i: nat)
    requires i <= |actions|
  {
    exists j :: 0 <= j < i && actions[j] == StopCall
  }

  /** A creation of the thread succeeded before any stop. */
  ghost predicate StartedBy(actions: seq<Action>, i: nat)
    requires i <= |actions|
  {
    exists j :: 0 <= j < i && actions[j] == StartCall(true) && !StopCalled(actions, j)
  }

  ghost predicate EndedBy(actions: seq<Action>, i: nat, failed: bool)
    requires i <= |actions|
  {
    exists j :: 0 <= j < i && actions[j] == WorkerEnds(failed)
  }

  /** A started coroutine whose handler has not returned successfully was interrupted or stopped. */
  ghost predicate InterruptedBy(actions: seq<Action>, i: nat)
    requires i <= |actions|
  {
    exists j :: 0 <= j < i && Interrupts(actions, j)
  }

  ghost predicate Interrupts(actions: seq<Action>, j: nat)
    requires j < |actions|
  {
    (actions[j] == InterruptCall || actions[j] == StopCall) && StartedBy(actions, j) && !EndedBy(actions, j, false)
  }

  /** The flags of the object say what was called so far. */
  ghost predicate FlagsSay(s: Co, actions: seq<Action>, i: nat)
    requires i <= |actions|
  {
    && (s.disposed <==> StopCalled(actions, i))
    && (s.started <==> StartedBy(actions, i))
    && (s.cycleDone <==> EndedBy(actions, i, false))
    && (s.interrupted <==> InterruptedBy(actions, i))
    && (s.worker.Ended? || s.worker.Joined? <==> EndedBy(actions, i, false) || EndedBy(actions, i, true))
    && (s.worker.Ended? || s.worker.Joined? ==> (s.worker.res == Success <==> EndedBy(actions, i, false)))
  }

  lemma StopCalledMore(actions: seq<Action>, i: nat)
    requires i < |actions|
    ensures StopCalled(actions, i + 1) <==> StopCalled(actions, i) || actions[i] == StopCall
  {
  }

  lemma StartedMore(actions: seq<Action>, i: nat)
    requires i < |actions|
    ensures StartedBy(actions, i + 1) <==>
            StartedBy(actions, i) || (actions[i] == StartCall(true) && !StopCalled(actions, i))
  {
    hide StopCalled;
  }

  lemma EndedMore(actions: seq<Action>, i: nat, failed: bool)
    requires i < |actions|
    ensures EndedBy(actions, i + 1, failed) <==> EndedBy(actions, i, failed) || actions[i] == WorkerEnds(failed)
  {
  }

  lemma InterruptedMore(actions: seq<Action>, i: nat)
    requires i < |actions|
    ensures InterruptedBy(actions, i + 1) <==> InterruptedBy(actions, i) || Interrupts(actions, i)
  {
    hide Interrupts;
  }

  lemma NothingYet(actions: seq<Action>)
    ensures FlagsSay(INITIAL, actions, 0)
  {
  }

  /** What each step does to the flags. */
  lemma FlagsStep(s: Co, a: Action)
    requires Inv(s) && Enabled(s, a)
    ensures var s' := Do(s, a);
            && (s'.disposed <==> s.disposed || a == StopCall)
            && (s'.started <==> s.started || (a == StartCall(true) && !s.disposed))
            && (s'.cycleDone <==> s.cycleDone || a == WorkerEnds(false))
            && (s'.interrupted <==>
                 s.interrupted || ((a == InterruptCall || a == StopCall) && s.started && !s.cycleDone))
            && (s'.worker.Ended? || s'.worker.Joined? <==> s.worker.Ended? || s.worker.Joined? || a.WorkerEnds?)
            && (a.WorkerEnds? ==> !s.worker.Ended? && !s.worker.Joined? && (s'.worker.res == Success <==> !a.failed))
            && ((s.worker.Ended? || s.worker.Joined?) && !a.WorkerEnds? ==> s'.worker.res == s.worker.res)
  {
    match a
    case StartCall(_) =>
    case InterruptCall =>
    case StopCall =>
    case StopperResumes =>
    case StopperInterrupted =>
    case WorkerEnds(_) =>
  }

  /** Over every run the flags are what the calls made so far determine, whatever their order. */
  lemma {:induction false} FlagsAre(ss: seq<Co>, actions: seq<Action>, i: nat)
    requires IsRun(ss, actions) && i <= |actions|
    ensures FlagsSay(ss[i], actions, i)
  {
    hide *;
    RunShape(ss, actions);
    if i == 0 {
      NothingYet(actions);
    } else {
      FlagsAre(ss, actions, i - 1);
      RunStep(ss, actions, i - 1);
      FlagsStep(ss[i - 1], actions[i - 1]);
      FlagsMore(ss[i - 1], ss[i], actions, i - 1);
    }
  }

  lemma RunShape(ss: seq<Co>, actions: seq<Action>)
    requires IsRun(ss, actions)
    ensures |ss| == |actions| + 1 && ss[0] == INITIAL
  {
  }

  lemma FlagsMore(s: Co, s': Co, actions: seq<Action>, i: nat)
    requires i < |actions| && Inv(s) && Enabled(s, actions[i]) && s' == Do(s, actions[i]) && FlagsSay(s, actions, i)
    ensures FlagsSay(s', actions, i + 1)
  {
    hide Inv, Do, Enabled, StopCalled, StartedBy, EndedBy, InterruptedBy;
    FlagsStep(s, actions[i]);
    StopCalledMore(actions, i);
    StartedMore(actions, i);
    EndedMore(actions, i, false);
    EndedMore(actions, i, true);
    InterruptedMore(actions, i);
  }

  /** What one call adds to the record: no error, or one of a kind. */
  datatype Report = Fine | Error(code: Code)

  /** The error that the `j`-th call records if none is recorded yet. */
  ghost function Records(actions: seq<Action>, j: nat): Report
    requires j < |actions|
  {
    match actions[j]
    case StartCall(created) =>
      if StopCalled(actions, j) then Error(Disposed)
      else if StartedBy(actions, j) then Error(Started)
      else if !created then Error(CreateFailed)
      else Fine
    case InterruptCall => if Interrupts(actions, j) then Error(Interrupted) else Fine
    case StopCall =>
      if Interrupts(actions, j) then Error(Interrupted)
      else if !StartedBy(actions, j) then Error(Terminated)
      else Fine
    case _ => Fine
  }

  ghost predicate FirstError(actions: seq<Action>, j: nat)
    requires j < |actions|
  {
    Records(actions, j).Error? && forall m | 0 <= m < j :: Records(actions, m).Fine?
  }

  /** The handler's error if there is one, else the first error that a call recorded, else success. */
  ghost predicate Reports(e: Err, actions: seq<Action>, i: nat)
    requires i <= |actions|
  {
    if EndedBy(actions, i, true) then e != Success && e.code == CycleError
    else if forall j | 0 <= j < i :: Records(actions, j).Fine? then e == Success
    else e != Success && exists j :: 0 <= j < i && FirstError(actions, j) && e.code == Records(actions, j).code
  }

  lemma NoReports(actions: seq<Action>)
    ensures Reports(INITIAL.trdErr, actions, 0)
  {
  }

  /** What each step does to the recorded error. */
  lemma ErrorStep(s: Co, a: Action)
    requires Inv(s) && Enabled(s, a)
    ensures var e := Do(s, a).trdErr;
            if a == WorkerEnds(true) then e != Success && e.code == CycleError
            else if s.trdErr != Success then e != Success && e.code == s.trdErr.code
            else match a
              case StartCall(created) =>
                if s.disposed then e != Success && e.code == Disposed
                else if s.started then e != Success && e.code == Started
                else if !created then e != Success && e.code == CreateFailed
                else e == Success
              case InterruptCall =>
                if s.started && !s.cycleDone then e != Success && e.code == Interrupted else e == Success
              case StopCall =>
                if s.started && !s.cycleDone then e != Success && e.code == Interrupted
                else if !s.started then e != Success && e.code == Terminated
                else e == Success
              case _ => e == Success
  {
    match a
    case StartCall(_) =>
    case InterruptCall =>
    case StopCall =>
    case StopperResumes =>
    case StopperInterrupted =>
    case WorkerEnds(_) =>
  }

  /**
   Over every run pull reports the handler's error once it has returned one, and otherwise
   the first error that a start, an interrupt or a stop recorded.
   */
  lemma {:induction false} PullReports(ss: seq<Co>, actions: seq<Action>, i: nat)
    requires IsRun(ss, actions) && i <= |actions|
    ensures Reports(ss[i].trdErr, actions, i)
  {
    hide *;
    RunShape(ss, actions);
    if i == 0 {
      NoReports(actions);
    } else {
      PullReports(ss, actions, i - 1);
      FlagsAre(ss, actions, i - 1);
      RunStep(ss, actions, i - 1);
      RecordsStep(ss[i - 1], ss[i], actions, i - 1);
      ReportsMore(ss[i - 1].trdErr, ss[i].trdErr, actions, i - 1);
    }
  }

  lemma RecordsStep(s: Co, s': Co, actions: seq<Action>, i: nat)
    requires i < |actions| && Inv(s) && Enabled(s, actions[i]) && s' == Do(s, actions[i]) && FlagsSay(s, actions, i)
    ensures if actions[i] == WorkerEnds(true) then s'.trdErr != Success && s'.trdErr.code == CycleError
            else if s.trdErr != Success then s'.trdErr != Success && s'.trdErr.code == s.trdErr.code
            else if Records(actions, i).Fine? then s'.trdErr == Success
            else s'.trdErr != Success && s'.trdErr.code == Records(actions, i).code
  {
    hide Inv, Do, Enabled, StopCalled, StartedBy, EndedBy, InterruptedBy;
    ErrorStep(s, actions[i]);
  }

  lemma ReportsMore(e: Err, e': Err, actions: seq<Action>, i: nat)
    requires i < |actions| && Reports(e, actions, i)
    requires if actions[i] == WorkerEnds(true) then e' != Success && e'.code == CycleError
             else if e != Success then e' != Success && e'.code == e.code
             else if Records(actions, i).Fine? then e' == Success
             else e' != Success && e'.code == Records(actions, i).code
    ensures Reports(e', actions, i + 1)
  {
    hide Records, EndedBy;
    EndedMore(actions, i, true);
  }

  /**
   The step at which the assertion that the join succeeds fails: the stopper, finding the
   worker unfinished, has an interrupt of its own pending before its wait, or has one at its end.
   */
  ghost predicate JoinInterrupted(s: Co, a: Action) {
    s.stopperPending && match a
      case StopCall => !s.disposed && s.trd && !s.worker.Ended?
      case StopperResumes => true
      case _ => false
  }

  lemma CrashIff(ss: seq<Co>, actions: seq<Action>, i: nat)
    requires IsRun(ss, actions) && i < |actions|
    ensures ss[i + 1].stopper == Crashed(JoinSucceeds) <==> JoinInterrupted(ss[i], actions[i])
  {
    RunInv(ss, actions, i);
    RunInv(ss, actions, i + 1);
  }

  /** A run in which it does fail: the stopper was interrupted, then stops a running worker. */
  lemma CrashHappens() returns (ss: seq<Co>, actions: seq<Action>)
    ensures IsRun(ss, actions) && ss[|actions|].stopper == Crashed(JoinSucceeds)
  {
    actions := [StartCall(true), StopperInterrupted, StopCall];
    var s1 := Do(INITIAL, actions[0]);
    var s2 := Do(s1, actions[1]);
    ss := [INITIAL, s1, s2, Do(s2, actions[2])];
  }

  // ---------- a whole stop ----------

  /** A first stop, called at step `i`, that has come to its end in state `k`. */
  ghost predicate WholeStop(ss: seq<Co>, actions: seq<Action>, i: nat, k: nat) {
    && IsRun(ss, actions) && i < k <= |actions| && actions[i] == StopCall && !ss[i].disposed
    && (forall j | i < j < k :: ss[j].stopper.Waiting?) && !ss[k].stopper.Waiting?
  }

  ghost predicate InterruptedWithin(actions: seq<Action>, i: nat, k: nat) {
    exists j :: i < j < k && j < |actions| && actions[j] == StopperInterrupted
  }

  /** While the stopper waits, an interrupt of it is pending iff one came since the wait began. */
  lemma {:induction false} PendingSince(ss: seq<Co>, actions: seq<Action>, i: nat, j: nat)
    requires IsRun(ss, actions) && i < j <= |actions| && actions[i] == StopCall && !ss[i].disposed
    requires forall m | i < m <= j :: ss[m].stopper.Waiting?
    ensures ss[j].stopperPending <==> InterruptedWithin(actions, i, j)
    decreases j
  {
    hide *;
    RunStep(ss, actions, j - 1);
    if j > i + 1 {
      PendingSince(ss, actions, i, j - 1);
      PendingStep(ss[j - 1], actions[j - 1]);
      WithinMore(actions, i, j - 1);
    } else {
      StopStarts(ss[i]);
      NothingWithin(actions, i);
    }
  }

  lemma RunStep(ss: seq<Co>, actions: seq<Action>, j: nat)
    requires IsRun(ss, actions) && j < |actions|
    ensures |ss| == |actions| + 1 && Inv(ss[j]) && Enabled(ss[j], actions[j]) && ss[j + 1] == Do(ss[j], actions[j])
  {
    RunInv(ss, actions, j);
  }

  lemma NothingWithin(actions: seq<Action>, i: nat)
    ensures !InterruptedWithin(actions, i, i + 1)
  {
  }

  lemma WithinMore(actions: seq<Action>, i: nat, j: nat)
    requires i < j < |actions|
    ensures InterruptedWithin(actions, i, j + 1) <==>
            InterruptedWithin(actions, i, j) || actions[j] == StopperInterrupted
  {
  }

  /** How the first call of stop leaves the stopper. */
  lemma StopStarts(s: Co)
    requires Inv(s) && Enabled(s, StopCall) && !s.disposed
    ensures var s' := Do(s, StopCall);
            if s'.stopper.Waiting? then !s'.stopperPending && !(s.stopperPending && s.worker.Running?)
            else s'.stopper == if s.stopperPending && s.worker.Running? then Crashed(JoinSucceeds) else Stopped
  {
  }

  lemma PendingStep(s: Co, a: Action)
    requires Enabled(s, a) && s.stopper.Waiting? && Do(s, a).stopper.Waiting?
    ensures Do(s, a).stopperPending <==> s.stopperPending || a == StopperInterrupted
  {
    match a
    case StartCall(_) =>
    case InterruptCall =>
    case StopperInterrupted =>
    case WorkerEnds(_) =>
    case _ =>
  }

  /**
   How a stop ends.  The program stops at its first assertion iff stop is called again while
   it waits; at the second iff the stopper had an interrupt pending when it found the worker
   unfinished, or was interrupted during its wait; otherwise the stop completes.
   */
  lemma StopOutcome(ss: seq<Co>, actions: seq<Action>, i: nat, k: nat)
    requires WholeStop(ss, actions, i, k)
    ensures var again := i + 1 < k && actions[k - 1] == StopCall;
            var interrupted := (ss[i].stopperPending && ss[i].worker.Running?) || InterruptedWithin(actions, i, k);
            && (ss[k].stopper == Crashed(StopsOnce) <==> again)
            && (ss[k].stopper == Crashed(JoinSucceeds) <==> !again && interrupted)
            && (ss[k].stopper == Stopped <==> !again && !interrupted)
  {
    hide IsRun, Inv, Enabled, Do, InterruptedWithin;
    RunStep(ss, actions, i);
    StopStarts(ss[i]);
    if i + 1 == k {
      NothingWithin(actions, i);
    } else {
      RunStep(ss, actions, k - 1);
      PendingSince(ss, actions, i, k - 1);
      WaitEnds(ss[k - 1], actions[k - 1]);
      WithinMore(actions, i, k - 1);
    }
  }

  /** What can end the stopper's wait, and how. */
  lemma WaitEnds(s: Co, a: Action)
    requires Inv(s) && Enabled(s, a) && s.stopper.Waiting? && !Do(s, a).stopper.Waiting?
    ensures a == StopCall || a == StopperResumes
    ensures Do(s, a).stopper ==
            if a == StopCall then Crashed(StopsOnce) else if s.stopperPending then Crashed(JoinSucceeds) else Stopped
  {
  }

  /** The join that stop calls begins as the thread library's does. */
  lemma JoinStarts(v: M.Vp, worker: T.Thread, c: T.Cond)
    requires v.current != null && v.current in v.threads && worker in v.threads && worker != v.current
    requires v.threads[worker].term == c && c in v.conds && v.conds[c] == []
    ensures var out := M.Join(v, worker).1;
            match StartJoin(v.threads[worker].state.Zombie?, v.threads[v.current].interrupt)
            case Joins => out == M.Returned(M.Ok(v.threads[worker].retval))
            case Fails => out == M.Returned(M.Err(M.EINTR))
            case Waits => out == M.Parked
  {
  }

  /** And a join that waited ends, over every run of the scheduler, as `StopResume` has it: by the pending interrupt. */
  lemma JoinEnds(states: seq<M.Vp>, ops: seq<I.Op>, i: nat, k: nat,
                 stopper: T.Thread, worker: T.Thread, c: T.Cond)
    requires C.WokenAndResumed(states, ops, i, k, stopper)
    requires states[i].threads[stopper].at == T.InJoin(worker, c)
    ensures I.Sane(states[k]) && I.Enabled(states[k], ops[k])
    ensures var out := C.Result(states, ops, k);
            if C.Pending(states[k], stopper) then out == M.Returned(M.Err(M.EINTR))
            else ops[i].DoExit? && states[i].current == worker && out == M.Returned(M.Ok(ops[i].retval))
  {
    C.JoinOutcome(states, ops, i, k, stopper, worker, c);
  }

  /** A waiting stopper without a pending interrupt completes its stop once the worker has ended. */
  lemma StopEndsWithWorker(ss: seq<Co>, actions: seq<Action>, i: nat)
    requires IsRun(ss, actions) && i <= |actions| && ss[i].stopper.Waiting? && ss[i].worker.Ended?
    requires !ss[i].stopperPending
    ensures Enabled(ss[i], StopperResumes) && Do(ss[i], StopperResumes).stopper == Stopped
    ensures Do(ss[i], StopperResumes).trdErr == (if ss[i].worker.res != Success then ss[i].worker.res else ss[i].trdErr)
  {
    RunInv(ss, actions, i);
  }
}

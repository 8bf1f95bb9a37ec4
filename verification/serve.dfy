/** The app's long-running process: supervised, restarted once, stopped and drained, while any thread may
    end the pod.  One action is one section under a lock, or one call outside it. */
module Serving {
  import opened Options

  datatype Process = Alive | Exited(rc: int)

  /** How the pod ended: the process finished, failed after its restart or could not be restarted, or
      someone else said so. */
  datatype Ending = ServeDone | ServeFailed(rc: int) | NoRestart | Elsewhere(rc: int)

  /** Where a call of `finish` stands; between the two it has won. */
  datatype Fin = Asking(ending: Ending) | Sending | Stopping | Killing(target: Option<nat>) | Setting | Over

  /** A supervising thread; in the middle two it holds the lock. */
  datatype Waiter = Waiting | Ending(fin: Fin) | Restarting | Gone

  /** A call of `drain`, or from Asked on a call of `stop` alone, as the handler of SIGTERM makes it. */
  datatype Drainer = Checking | Marking | Asked | Quitting(target: Option<nat>) | Drained

  /** The first start, which takes no lock: not yet, the process made, `proc` set, or failed. */
  datatype Boot = NotYet | Made | Up | NeverUp

  datatype Serve = Serve(
    procs: seq<Process>, proc: Option<nat>, restarts: nat, stopping: bool, drained: bool, owner: Option<nat>)

  datatype Who = Supervisor(i: nat) | Caller(j: nat)

  /** `finish`: the first ending, who gave it, and what was sent. */
  datatype Outcome = Outcome(result: Option<Ending>, winner: Option<Who>, sent: seq<Ending>, finished: bool)

  datatype State = State(
    sv: Serve, out: Outcome, boot: Boot, waiters: seq<Waiter>, callers: seq<Fin>, drainers: seq<Drainer>)

  const Initial := State(Serve([], None, 0, false, false, None), Outcome(None, None, [], false), NotYet, [], [], [])

  datatype Action =
    | Exit(i: nat, rc: int)
    | BootStep(works: bool)
    | Wake(i: nat, draining: bool)
    | Supervise(i: nat, works: bool)
    | Finish(ending: Ending)
    | Call(j: nat)
    | Drain
    | Stop
    | DrainStep(k: nat)

  // -- steps ------------------------------------------------------------------------------------------

  /** `stop` under the lock: what is to be killed afterwards. */
  function TakeStop(s: State): State {
    s.(sv := s.sv.(stopping := true))
  }

  /** SIGTERM, the grace, then SIGKILL: the target is gone afterwards. */
  function Kill(s: State, target: Option<nat>): State {
    var procs := s.sv.procs;
    s.(sv := s.sv.(procs := if target.Some? && target.value < |procs| && procs[target.value].Alive?
                            then procs[target.value := Exited(-9)] else procs))
  }

  /** One step of `finish`, for whoever runs it. */
  function FinStep(s: State, who: Who, f: Fin): (State, Fin)
    requires f.Sending? ==> s.out.result.Some?
  {
    match f
    case Asking(e) =>
      if s.out.result.Some? then (s, Over)
      else (s.(out := s.out.(result := Some(e), winner := Some(who))), Sending)
    case Sending => (s.(out := s.out.(sent := s.out.sent + [s.out.result.value])), Stopping)
    case Stopping => (TakeStop(s), Killing(s.sv.proc))
    case Killing(target) => (Kill(s, target), Setting)
    case Setting => (s.(out := s.out.(finished := true)), Over)
    case Over => (s, Over)
  }

  /** The lock is free, or held by this thread. */
  predicate CanLock(s: State, who: Who) { s.sv.owner.None? || who == Supervisor(s.sv.owner.value) }

  predicate FinReady(s: State, who: Who, f: Fin) {
    && !f.Over?
    && (f.Stopping? ==> CanLock(s, who))
    && (f.Sending? ==> s.out.result.Some?)
  }

  /** The supervisor has the lock and its process has exited. */
  function Decide(s: State, i: nat, rc: int, draining: bool): State
    requires i < |s.waiters|
  {
    if s.sv.stopping || s.out.finished || s.sv.proc != Some(i) then s.(waiters := s.waiters[i := Gone])
    else if rc == 0 && draining then s.(sv := s.sv.(drained := true), waiters := s.waiters[i := Gone])
    else if rc == 0 then s.(sv := s.sv.(owner := Some(i)), waiters := s.waiters[i := Waiter.Ending(Asking(ServeDone))])
    else if s.sv.restarts >= 1 then
      s.(sv := s.sv.(owner := Some(i)), waiters := s.waiters[i := Waiter.Ending(Asking(ServeFailed(rc)))])
    else s.(sv := s.sv.(owner := Some(i), restarts := s.sv.restarts + 1), waiters := s.waiters[i := Restarting])
  }

  predicate Enabled(s: State, a: Action) {
    match a
    case Exit(i, _) => i < |s.sv.procs| && s.sv.procs[i].Alive?
    case BootStep(_) => s.boot.NotYet? || s.boot.Made?
    case Wake(i, _) =>
      && i < |s.waiters| && s.waiters[i].Waiting? && s.sv.owner.None?
      && i < |s.sv.procs| && s.sv.procs[i].Exited?
    case Supervise(i, _) =>
      i < |s.waiters| && (s.waiters[i].Restarting? || (s.waiters[i].Ending? && FinReady(s, Supervisor(i), s.waiters[i].fin)))
    case Finish(ending) => ending.Elsewhere?
    case Call(j) => j < |s.callers| && FinReady(s, Caller(j), s.callers[j])
    case Drain => true
    case Stop => true
    case DrainStep(k) => k < |s.drainers| && !s.drainers[k].Drained? && (s.drainers[k].Asked? ==> s.sv.owner.None?)
  }

  function BootNext(s: State, works: bool): State {
    if s.boot.NotYet? then
      if works then s.(sv := s.sv.(procs := s.sv.procs + [Alive]), boot := Made)
      else s.(boot := NeverUp, callers := s.callers + [Asking(Elsewhere(1))])
    else s.(sv := s.sv.(proc := Some(0)), boot := Up, waiters := s.waiters + [Waiting])
  }

  function SuperviseNext(s: State, i: nat, works: bool): State
    requires i < |s.waiters| && (s.waiters[i].Restarting? || (s.waiters[i].Ending? && FinReady(s, Supervisor(i), s.waiters[i].fin)))
  {
    match s.waiters[i]
    case Restarting =>
      if works then
        s.(sv := s.sv.(procs := s.sv.procs + [Alive], proc := Some(|s.sv.procs|), owner := None),
           waiters := s.waiters[i := Gone] + [Waiting])
      else s.(waiters := s.waiters[i := Waiter.Ending(Asking(NoRestart))])
    case Ending(f) =>
      var r := FinStep(s, Supervisor(i), f);
      if r.1.Over? then r.0.(sv := r.0.sv.(owner := None), waiters := s.waiters[i := Gone])
      else r.0.(waiters := s.waiters[i := Waiter.Ending(r.1)])
  }

  function DrainNext(s: State, k: nat): State
    requires k < |s.drainers|
  {
    match s.drainers[k]
    case Checking => s.(drainers := s.drainers[k := if s.sv.drained || s.sv.stopping then Drained else Marking])
    case Marking => s.(sv := s.sv.(drained := true), drainers := s.drainers[k := Asked])
    case Asked => TakeStop(s).(drainers := s.drainers[k := Quitting(s.sv.proc)])
    case Quitting(target) => Kill(s, target).(drainers := s.drainers[k := Drained])
    case Drained => s
  }

  function Next(s: State, a: Action): State
    requires Enabled(s, a)
  {
    match a
    case Exit(i, rc) => s.(sv := s.sv.(procs := s.sv.procs[i := Exited(rc)]))
    case BootStep(works) => BootNext(s, works)
    case Wake(i, draining) => Decide(s, i, s.sv.procs[i].rc, draining)
    case Supervise(i, works) => SuperviseNext(s, i, works)
    case Finish(ending) => s.(callers := s.callers + [Asking(ending)])
    case Call(j) =>
      var r := FinStep(s, Caller(j), s.callers[j]);
      r.0.(callers := s.callers[j := r.1])
    case Drain => s.(drainers := s.drainers + [Checking])
    case Stop => s.(drainers := s.drainers + [Asked])
    case DrainStep(k) => DrainNext(s, k)
  }

  predicate Runs(t: seq<State>, acts: seq<Action>) {
    && |t| == |acts| + 1 && t[0] == Initial
    && forall n :: 0 <= n < |acts| ==> Enabled(t[n], acts[n]) && t[n + 1] == Next(t[n], acts[n])
  }

  // -- what every step keeps --------------------------------------------------------------------------

  predicate Holds(w: Waiter) { w.Ending? || w.Restarting? }

  /** The lock is held by the one supervisor in the middle of something. */
  predicate LockFits(s: State) { forall i :: 0 <= i < |s.waiters| ==> (Holds(s.waiters[i]) <==> s.sv.owner == Some(i)) }

  predicate OwnerFits(s: State) { s.sv.owner.Some? ==> s.sv.owner.value < |s.waiters| }

  predicate IsUp(s: State) { s.boot.Up? }

  /** Processes: one at first, a second after a restart; only the current one can be alive. */
  predicate ProcsFit(s: State) {
    && s.sv.restarts <= 1
    && |s.sv.procs| <= 1 + s.sv.restarts
    && (!IsUp(s) ==> s.sv.restarts == 0)
    && (s.boot.NotYet? || s.boot.NeverUp? ==> s.sv.procs == [] && s.sv.proc.None?)
    && (s.boot.Made? ==> |s.sv.procs| == 1 && s.sv.proc.None?)
    && (IsUp(s) ==> s.sv.procs != [] && s.sv.proc == Some(|s.sv.procs| - 1))
    && |s.waiters| == (if IsUp(s) then |s.sv.procs| else 0)
    && (IsUp(s) ==> forall i :: 0 <= i < |s.sv.procs| - 1 ==> s.sv.procs[i].Exited?)
    && (forall i :: 0 <= i < |s.waiters| && Holds(s.waiters[i]) ==> s.sv.proc == Some(i) && s.sv.procs[i].Exited?)
    && (forall i :: 0 <= i < |s.waiters| && s.waiters[i].Restarting? ==>
          !s.sv.stopping && s.sv.restarts == 1 && |s.sv.procs| == 1)
  }

  /** The result has been sent, and nothing else. */
  predicate Told(s: State) { s.out.result.Some? && s.out.sent == [s.out.result.value] }

  /** Only the winner is past asking. */
  predicate Won(s: State, who: Who, f: Fin) {
    && (f.Sending? || f.Stopping? || f.Killing? || f.Setting? ==> s.out.winner == Some(who) && s.out.result.Some?)
    && (f.Sending? ==> s.out.sent == [])
    && (f.Stopping? || f.Killing? || f.Setting? ==> Told(s))
    && (f.Killing? || f.Setting? ==> s.sv.stopping)
  }

  predicate FinsFit(s: State) {
    && (s.out.result.Some? <==> s.out.winner.Some?)
    && (s.out.sent == [] || Told(s)) && (s.out.finished ==> Told(s) && s.sv.stopping)
    && (forall i :: 0 <= i < |s.waiters| && s.waiters[i].Ending? ==> Won(s, Supervisor(i), s.waiters[i].fin))
    && (forall j :: 0 <= j < |s.callers| ==> Won(s, Caller(j), s.callers[j]))
  }

  predicate Good(s: State) {
    LockFits(s) && OwnerFits(s) && ProcsFit(s) && FinsFit(s)
  }
}

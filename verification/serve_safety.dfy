/** What holds of every run of the supervised process. */
module ServeSafety {
  import opened Options
  import opened Serving

  lemma StepIsGood(s: State, a: Action)
    requires Good(s) && Enabled(s, a)
    ensures Good(Next(s, a))
  {
    hide Good, Next, Enabled;
    match a
    case Exit(i, rc) => ExitIsGood(s, i, rc);
    case BootStep(works) => BootIsGood(s, works);
    case Wake(i, draining) => WakeIsGood(s, i, draining);
    case Supervise(i, works) => SuperviseIsGood(s, i, works);
    case Finish(ending) => FinishIsGood(s, ending);
    case Call(j) => CallIsGood(s, j);
    case Drain => DrainerIsGood(s);
    case Stop => DrainerIsGood(s);
    case DrainStep(k) => DrainIsGood(s, k);
  }

  lemma FinishIsGood(s: State, ending: Ending)
    requires Good(s) && Enabled(s, Finish(ending))
    ensures Good(Next(s, Finish(ending)))
  {
  }

  lemma AskIsGood(s: State, d: Drainer)
    requires Good(s)
    ensures Good(s.(drainers := s.drainers + [d]))
  {
  }

  lemma DrainerIsGood(s: State)
    requires Good(s)
    ensures Good(Next(s, Drain)) && Good(Next(s, Stop))
  {
    hide Good;
    AskIsGood(s, Checking);
    AskIsGood(s, Asked);
  }

  lemma ExitIsGood(s: State, i: nat, rc: int)
    requires Good(s) && Enabled(s, Exit(i, rc))
    ensures Good(Next(s, Exit(i, rc)))
  {
  }

  lemma BootIsGood(s: State, works: bool)
    requires Good(s) && Enabled(s, BootStep(works))
    ensures Good(Next(s, BootStep(works)))
  {
  }

  lemma WakeIsGood(s: State, i: nat, draining: bool)
    requires Good(s) && Enabled(s, Wake(i, draining))
    ensures Good(Next(s, Wake(i, draining)))
  {
    var s' := Next(s, Wake(i, draining));
    WakeLock(s, s', i, draining);
    WakeProcs(s, s', i, draining);
    WakeFins(s, s', i, draining);
  }

  lemma WakeLock(s: State, s': State, i: nat, draining: bool)
    requires LockFits(s) && Enabled(s, Wake(i, draining)) && s' == Next(s, Wake(i, draining))
    ensures LockFits(s') && OwnerFits(s')
  {
  }

  lemma WakeProcs(s: State, s': State, i: nat, draining: bool)
    requires LockFits(s) && ProcsFit(s) && Enabled(s, Wake(i, draining)) && s' == Next(s, Wake(i, draining))
    ensures ProcsFit(s')
  {
    DecideProcs(s, i, s.sv.procs[i].rc, draining);
  }

  lemma DecideProcs(s: State, i: nat, rc: int, draining: bool)
    requires LockFits(s) && ProcsFit(s) && i < |s.waiters| && s.sv.owner.None? && i < |s.sv.procs| && s.sv.procs[i].Exited?
    ensures ProcsFit(Decide(s, i, rc, draining))
  {
    assert forall k :: 0 <= k < |s.waiters| ==> !Holds(s.waiters[k]);
  }

  lemma WakeFins(s: State, s': State, i: nat, draining: bool)
    requires FinsFit(s) && Enabled(s, Wake(i, draining)) && s' == Next(s, Wake(i, draining))
    ensures FinsFit(s')
  {
  }

  // -- one step of `finish`, whoever takes it ------------------------------------------------------

  /** What the step leaves alone, and what it may do to the rest. */
  lemma FinProcs(s: State, s': State, who: Who, f: Fin)
    requires ProcsFit(s) && FinReady(s, who, f) && s' == FinStep(s, who, f).0
    requires f.Stopping? ==> forall i :: 0 <= i < |s.waiters| ==> !s.waiters[i].Restarting?
    ensures ProcsFit(s')
  {
  }

  lemma FinFins(s: State, s': State, who: Who, f: Fin)
    requires FinsFit(s) && FinReady(s, who, f) && Won(s, who, f) && s' == FinStep(s, who, f).0
    ensures FinsFit'(s, s', who) && Won(s', who, FinStep(s, who, f).1)
  {
  }

  /** Everyone else still stands where the winner lets them. */
  predicate FinsFit'(s: State, s': State, who: Who) {
    && (s'.out.result.Some? <==> s'.out.winner.Some?)
    && (s'.out.sent == [] || Told(s')) && (s'.out.finished ==> Told(s') && s'.sv.stopping)
    && (forall i :: 0 <= i < |s.waiters| && s.waiters[i].Ending? && who != Supervisor(i) ==> Won(s', Supervisor(i), s.waiters[i].fin))
    && (forall j :: 0 <= j < |s.callers| && who != Caller(j) ==> Won(s', Caller(j), s.callers[j]))
  }

  /** All of it, for a step by `who` from `s` to `m`, before `who` writes down where it stands. */
  predicate Midway(s: State, m: State, who: Who, f: Fin) {
    && (m.waiters, m.callers, m.drainers, m.sv.owner) == (s.waiters, s.callers, s.drainers, s.sv.owner)
    && LockFits(s) && OwnerFits(s) && ProcsFit(m)
    && FinsFit'(s, m, who) && Won(m, who, f)
  }

  lemma FinIsMidway(s: State, who: Who, f: Fin)
    requires Good(s) && FinReady(s, who, f) && Won(s, who, f)
    requires f.Stopping? ==> forall i :: 0 <= i < |s.waiters| ==> !s.waiters[i].Restarting?
    ensures Midway(s, FinStep(s, who, f).0, who, FinStep(s, who, f).1)
  {
    var m := FinStep(s, who, f).0;
    FinProcs(s, m, who, f);
    FinFins(s, m, who, f);
  }

  lemma CallIsGood(s: State, j: nat)
    requires Good(s) && Enabled(s, Call(j))
    ensures Good(Next(s, Call(j)))
  {
    var r := FinStep(s, Caller(j), s.callers[j]);
    FinIsMidway(s, Caller(j), s.callers[j]);
    CallerWrites(s, r.0, j, r.1);
  }

  lemma CallerWrites(s: State, m: State, j: nat, f: Fin)
    requires j < |s.callers| && Midway(s, m, Caller(j), f)
    ensures Good(m.(callers := s.callers[j := f]))
  {
  }

  lemma SuperviseIsGood(s: State, i: nat, works: bool)
    requires Good(s) && Enabled(s, Supervise(i, works))
    ensures Good(Next(s, Supervise(i, works)))
  {
    if s.waiters[i].Restarting? {
      RestartIsGood(s, i, works);
    } else {
      var r := FinStep(s, Supervisor(i), s.waiters[i].fin);
      assert s.sv.owner == Some(i);
      FinIsMidway(s, Supervisor(i), s.waiters[i].fin);
      if r.1.Over? {
        SupervisorLeaves(s, r.0, i, r.1);
      } else {
        SupervisorWrites(s, r.0, i, r.1);
      }
    }
  }

  lemma SupervisorWrites(s: State, m: State, i: nat, f: Fin)
    requires i < |s.waiters| && s.waiters[i].Ending? && Midway(s, m, Supervisor(i), f)
    ensures Good(m.(waiters := s.waiters[i := Waiter.Ending(f)]))
  {
  }

  lemma SupervisorLeaves(s: State, m: State, i: nat, f: Fin)
    requires i < |s.waiters| && s.waiters[i].Ending? && Midway(s, m, Supervisor(i), f)
    ensures Good(m.(sv := m.sv.(owner := None), waiters := s.waiters[i := Gone]))
  {
  }

  lemma RestartIsGood(s: State, i: nat, works: bool)
    requires Good(s) && i < |s.waiters| && s.waiters[i].Restarting?
    ensures Good(SuperviseNext(s, i, works))
  {
  }

  // -- one step of a drain ---------------------------------------------------------------------------

  lemma DrainIsGood(s: State, k: nat)
    requires Good(s) && Enabled(s, DrainStep(k))
    ensures Good(Next(s, DrainStep(k)))
  {
    var s' := DrainNext(s, k);
    DrainProcs(s, s', k);
    DrainFins(s, s', k);
  }

  lemma DrainProcs(s: State, s': State, k: nat)
    requires LockFits(s) && OwnerFits(s) && ProcsFit(s) && Enabled(s, DrainStep(k)) && s' == DrainNext(s, k)
    ensures LockFits(s') && OwnerFits(s') && ProcsFit(s')
  {
    DrainLock(s, s', k);
    match s.drainers[k]
    case Asked =>
      assert forall i :: 0 <= i < |s.waiters| ==> !Holds(s.waiters[i]);
      StopProcs(s, s');
    case Quitting(target) => KillProcs(s, s', target);
    case _ =>
  }

  lemma StopProcs(s: State, s': State)
    requires ProcsFit(s) && (forall i :: 0 <= i < |s.waiters| ==> !Holds(s.waiters[i]))
    requires s'.sv == s.sv.(stopping := true) && s'.boot == s.boot && s'.waiters == s.waiters
    ensures ProcsFit(s')
  {
  }

  lemma KillProcs(s: State, s': State, target: Option<nat>)
    requires ProcsFit(s) && s'.sv == Kill(s, target).sv && s'.boot == s.boot && s'.waiters == s.waiters
    ensures ProcsFit(s')
  {
  }

  lemma DrainLock(s: State, s': State, k: nat)
    requires LockFits(s) && OwnerFits(s) && Enabled(s, DrainStep(k)) && s' == DrainNext(s, k)
    ensures LockFits(s') && OwnerFits(s')
  {
  }

  lemma DrainFins(s: State, s': State, k: nat)
    requires FinsFit(s) && Enabled(s, DrainStep(k)) && s' == DrainNext(s, k)
    ensures FinsFit(s')
  {
  }

  // -- endings -----------------------------------------------------------------------------------------

  /** What an ending given by a supervisor says of the processes. */
  predicate Deserved(s: State, e: Ending) {
    match e
    case ServeDone => s.sv.procs != [] && s.sv.procs[|s.sv.procs| - 1] == Exited(0)
    case ServeFailed(rc) =>
      && |s.sv.procs| == 2 && rc != 0 && s.sv.procs[1] == Exited(rc)
      && s.sv.procs[0].Exited? && s.sv.procs[0].rc != 0
    case NoRestart => |s.sv.procs| == 1 && s.sv.procs[0].Exited? && s.sv.procs[0].rc != 0
    case Elsewhere(_) => true
  }

  predicate EndingsFit(s: State) {
    && (s.out.result.Some? ==> Deserved(s, s.out.result.value))
    && (s.out.result.Some? && !s.out.result.value.Elsewhere? ==>
          s.waiters != [] && !s.waiters[|s.waiters| - 1].Waiting? && !s.waiters[|s.waiters| - 1].Restarting?)
    && (forall j :: 0 <= j < |s.callers| && s.callers[j].Asking? ==> s.callers[j].ending.Elsewhere?)
    && (forall i :: 0 <= i < |s.waiters| && s.waiters[i].Ending? ==>
          && !s.waiters[i].fin.Over?
          && (s.waiters[i].fin.Asking? ==>
                Deserved(s, s.waiters[i].fin.ending) && (s.sv.stopping ==> s.out.result.Some?)))
    && (s.sv.restarts == 1 ==> s.sv.procs != [] && s.sv.procs[0].Exited? && s.sv.procs[0].rc != 0)
    && (s.sv.restarts == 1 && |s.sv.procs| == 1 && |s.waiters| == 1 ==> !s.waiters[0].Waiting?)
  }

  lemma StepKeepsEndings(s: State, a: Action)
    requires Good(s) && EndingsFit(s) && Enabled(s, a)
    ensures EndingsFit(Next(s, a))
  {
    hide Good, EndingsFit;
    match a
    case Exit(i, rc) => ExitKeepsEndings(s, i, rc);
    case BootStep(works) => BootKeepsEndings(s, works);
    case Wake(i, draining) => WakeKeepsEndings(s, i, draining);
    case Supervise(i, works) => SuperviseKeepsEndings(s, i, works);
    case Call(j) => CallKeepsEndings(s, j);
    case DrainStep(k) => DrainKeepsEndings(s, k);
    case _ => NewcomerKeepsEndings(s, a);
  }

  lemma ExitKeepsEndings(s: State, i: nat, rc: int)
    requires EndingsFit(s) && Enabled(s, Exit(i, rc))
    ensures EndingsFit(Next(s, Exit(i, rc)))
  {
  }

  lemma BootKeepsEndings(s: State, works: bool)
    requires Good(s) && EndingsFit(s) && Enabled(s, BootStep(works))
    ensures EndingsFit(Next(s, BootStep(works)))
  {
  }

  lemma NewcomerKeepsEndings(s: State, a: Action)
    requires EndingsFit(s) && Enabled(s, a) && (a.Finish? || a.Drain? || a.Stop?)
    ensures EndingsFit(Next(s, a))
  {
  }

  lemma WakeKeepsEndings(s: State, i: nat, draining: bool)
    requires Good(s) && EndingsFit(s) && Enabled(s, Wake(i, draining))
    ensures EndingsFit(Next(s, Wake(i, draining)))
  {
    hide FinsFit;
    DecideEndings(s, i, s.sv.procs[i].rc, draining);
  }

  lemma DecideEndings(s: State, i: nat, rc: int, draining: bool)
    requires LockFits(s) && ProcsFit(s) && EndingsFit(s)
    requires i < |s.waiters| && s.waiters[i].Waiting? && s.sv.owner.None? && i < |s.sv.procs| && s.sv.procs[i] == Exited(rc)
    ensures EndingsFit(Decide(s, i, rc, draining))
  {
  }

  /** Nothing starts, and what has exited stays as it exited. */
  predicate Quiet(s: State, m: State) {
    && |m.sv.procs| == |s.sv.procs| && m.sv.restarts == s.sv.restarts
    && forall i :: 0 <= i < |s.sv.procs| && s.sv.procs[i].Exited? ==> m.sv.procs[i] == s.sv.procs[i]
  }

  lemma FinIsQuiet(s: State, m: State, who: Who, f: Fin)
    requires FinReady(s, who, f) && Won(s, who, f) && m == FinStep(s, who, f).0
    ensures Quiet(s, m) && m.waiters == s.waiters && m.callers == s.callers
    ensures m.out.result == if f.Asking? && s.out.result.None? then Some(f.ending) else s.out.result
    ensures m.sv.stopping ==> s.sv.stopping || m.out.result.Some?
    ensures s.out.result.Some? ==> m.out.result.Some?
    ensures !FinStep(s, who, f).1.Asking?
  {
  }

  lemma CallKeepsEndings(s: State, j: nat)
    requires Good(s) && EndingsFit(s) && Enabled(s, Call(j))
    ensures EndingsFit(Next(s, Call(j)))
  {
    var r := FinStep(s, Caller(j), s.callers[j]);
    FinIsQuiet(s, r.0, Caller(j), s.callers[j]);
    CallerKeeps(s, r.0, j, r.1);
  }

  lemma CallerKeeps(s: State, m: State, j: nat, f: Fin)
    requires EndingsFit(s) && j < |s.callers| && Quiet(s, m) && m.waiters == s.waiters && !f.Asking?
    requires m.out.result == if s.callers[j].Asking? && s.out.result.None? then Some(s.callers[j].ending) else s.out.result
    requires m.sv.stopping ==> s.sv.stopping || m.out.result.Some?
    ensures EndingsFit(m.(callers := s.callers[j := f]))
  {
  }

  lemma SuperviseKeepsEndings(s: State, i: nat, works: bool)
    requires Good(s) && EndingsFit(s) && Enabled(s, Supervise(i, works))
    ensures EndingsFit(SuperviseNext(s, i, works))
  {
    if s.waiters[i].Restarting? {
      RestartKeepsEndings(s, i, works);
    } else {
      var r := FinStep(s, Supervisor(i), s.waiters[i].fin);
      FinIsQuiet(s, r.0, Supervisor(i), s.waiters[i].fin);
      SupervisorKeeps(s, r.0, i, if r.1.Over? then Gone else Waiter.Ending(r.1), if r.1.Over? then None else r.0.sv.owner);
    }
  }

  lemma RestartKeepsEndings(s: State, i: nat, works: bool)
    requires LockFits(s) && ProcsFit(s) && EndingsFit(s) && i < |s.waiters| && s.waiters[i].Restarting?
    ensures EndingsFit(SuperviseNext(s, i, works))
  {
  }

  lemma SupervisorKeeps(s: State, m: State, i: nat, w: Waiter, owner: Option<nat>)
    requires EndingsFit(s) && LockFits(s) && ProcsFit(s)
    requires i < |s.waiters| && s.waiters[i].Ending? && Quiet(s, m) && m.waiters == s.waiters && m.callers == s.callers
    requires w.Gone? || (w.Ending? && !w.fin.Asking? && !w.fin.Over?)
    requires m.out.result == if s.waiters[i].fin.Asking? && s.out.result.None? then Some(s.waiters[i].fin.ending) else s.out.result
    requires m.sv.stopping ==> s.sv.stopping || m.out.result.Some?
    ensures EndingsFit(m.(sv := m.sv.(owner := owner), waiters := s.waiters[i := w]))
  {
  }

  lemma DrainKeepsEndings(s: State, k: nat)
    requires Good(s) && EndingsFit(s) && Enabled(s, DrainStep(k))
    ensures EndingsFit(DrainNext(s, k))
  {
    DrainIsQuiet(s, DrainNext(s, k), k);
    DrainerKeeps(s, DrainNext(s, k));
  }

  lemma DrainIsQuiet(s: State, s': State, k: nat)
    requires Enabled(s, DrainStep(k)) && s' == DrainNext(s, k)
    ensures Quiet(s, s') && (s'.waiters, s'.callers, s'.out.result) == (s.waiters, s.callers, s.out.result)
    ensures s'.sv.stopping ==> s.sv.stopping || s.sv.owner.None?
  {
  }

  lemma DrainerKeeps(s: State, s': State)
    requires EndingsFit(s) && LockFits(s) && Quiet(s, s')
    requires (s'.waiters, s'.callers, s'.out.result) == (s.waiters, s.callers, s.out.result)
    requires s'.sv.stopping ==> s.sv.stopping || s.sv.owner.None?
    ensures EndingsFit(s')
  {
  }

  lemma {:induction false} RunIsGood(t: seq<State>, acts: seq<Action>, n: nat)
    requires Runs(t, acts) && n < |t|
    ensures Good(t[n]) && EndingsFit(t[n])
    decreases n
  {
    hide Enabled, Next;
    if n > 0 {
      RunIsGood(t, acts, n - 1);
      StepIsGood(t[n - 1], acts[n - 1]);
      StepKeepsEndings(t[n - 1], acts[n - 1]);
    }
  }

  // -- the theorems ----------------------------------------------------------------------------------

  /** At most two processes are ever started, and the app is said to have failed only after both exited
      non-zero, to be done only after one exited zero. */
  lemma RestartedOnce(t: seq<State>, acts: seq<Action>, n: nat)
    requires Runs(t, acts) && n < |t|
    ensures |t[n].sv.procs| <= 2
    ensures t[n].out.result.Some? ==> Deserved(t[n], t[n].out.result.value)
  {
    RunIsGood(t, acts, n);
  }

  /** The first start is over, or has failed. */
  predicate FirstStartOver(s: State) { s.boot.Up? || s.boot.NeverUp? }

  lemma StoppingStays(s: State, a: Action)
    requires Good(s) && Enabled(s, a)
    ensures s.sv.stopping ==> Next(s, a).sv.stopping
    ensures s.sv.stopping && FirstStartOver(s) ==>
              |Next(s, a).sv.procs| == |s.sv.procs| && Next(s, a).boot == s.boot && Next(s, a).sv.proc == s.sv.proc
    ensures s.sv.stopping && !FirstStartOver(s) && a.BootStep? ==>
              |Next(s, a).sv.procs| == |s.sv.procs| + if s.boot.NotYet? && a.works then 1 else 0
    ensures s.sv.stopping && !FirstStartOver(s) && !a.BootStep? ==>
              |Next(s, a).sv.procs| == |s.sv.procs| && Next(s, a).boot == s.boot
  {
    hide FinsFit, Won, Deserved;
  }

  /** The section of a stop that holds the lock. */
  predicate Takes(s: State, a: Action) {
    match a
    case Supervise(i, _) => i < |s.waiters| && s.waiters[i].Ending? && s.waiters[i].fin.Stopping?
    case Call(j) => j < |s.callers| && s.callers[j].Stopping?
    case DrainStep(k) => k < |s.drainers| && s.drainers[k].Asked?
    case _ => false
  }

  /** The last thing a stop does. */
  predicate Kills(s: State, a: Action) {
    match a
    case Supervise(i, _) => i < |s.waiters| && s.waiters[i].Ending? && s.waiters[i].fin.Killing?
    case Call(j) => j < |s.callers| && s.callers[j].Killing?
    case DrainStep(k) => k < |s.drainers| && s.drainers[k].Quitting?
    case _ => false
  }

  /** What it kills. */
  function Target(s: State, a: Action): Option<nat>
    requires Kills(s, a)
  {
    match a
    case Supervise(i, _) => s.waiters[i].fin.target
    case Call(j) => s.callers[j].target
    case DrainStep(k) => s.drainers[k].target
  }

  lemma TakesStops(s: State, a: Action)
    requires Enabled(s, a) && Takes(s, a)
    ensures var s' := Next(s, a); s'.sv.stopping && (s'.boot, s'.sv.procs, s'.sv.proc) == (s.boot, s.sv.procs, s.sv.proc)
  {
  }

  /** What is left to happen once a stop has had the lock in s0: the first start, if not begun by then. */
  predicate SinceStop(s0: State, s: State) {
    && s.sv.stopping && |s.sv.procs| >= |s0.sv.procs|
    && (|s.sv.procs| > |s0.sv.procs| <==> s0.boot.NotYet? && (s.boot.Made? || s.boot.Up?))
    && (FirstStartOver(s0) ==> s.boot == s0.boot && s.sv.proc == s0.sv.proc)
    && (s0.boot.Made? ==> s.boot.Made? || s.boot.Up?)
  }

  lemma SinceStopStays(s0: State, s: State, a: Action)
    requires Good(s) && Enabled(s, a) && SinceStop(s0, s)
    ensures SinceStop(s0, Next(s, a))
  {
    hide Good, Next;
    StoppingStays(s, a);
    StartsOnce(s, a);
  }

  /** How the first start goes on. */
  lemma StartsOnce(s: State, a: Action)
    requires Enabled(s, a)
    ensures !a.BootStep? ==> Next(s, a).boot == s.boot
    ensures a.BootStep? ==> !FirstStartOver(s) && Next(s, a).boot == if s.boot.Made? then Up else if a.works then Made else NeverUp
  {
  }

  lemma {:induction false} HadTheLock(t: seq<State>, acts: seq<Action>, n: nat, m: nat)
    requires Runs(t, acts) && n < m < |t| && Takes(t[n], acts[n])
    ensures SinceStop(t[n], t[m])
    decreases m
  {
    hide Good, Next;
    RunIsGood(t, acts, m - 1);
    if m > n + 1 {
      HadTheLock(t, acts, n, m - 1);
      SinceStopStays(t[n], t[m - 1], acts[m - 1]);
    } else {
      TakesStops(t[n], acts[n]);
    }
  }

  /** A process is started after a stop has had the lock if and only if the first start was not begun by then
      and succeeds later. */
  lemma StartsAfterAStop(t: seq<State>, acts: seq<Action>, n: nat, m: nat)
    requires Runs(t, acts) && n < m < |t| && Takes(t[n], acts[n])
    ensures |t[m].sv.procs| >= |t[n].sv.procs|
    ensures |t[m].sv.procs| > |t[n].sv.procs| <==> t[n].boot.NotYet? && (t[m].boot.Made? || t[m].boot.Up?)
  {
    HadTheLock(t, acts, n, m);
  }

  /** Once a stop has had the lock, the first start being over, no process is started any more. */
  lemma {:induction false} NothingStartsAfterAStop(t: seq<State>, acts: seq<Action>, n: nat, m: nat)
    requires Runs(t, acts) && n <= m < |t|
    requires t[n].sv.stopping && FirstStartOver(t[n])
    ensures t[m].sv.stopping && |t[m].sv.procs| == |t[n].sv.procs| && t[m].boot == t[n].boot
    decreases m
  {
    hide Good, Next;
    if m > n {
      NothingStartsAfterAStop(t, acts, n, m - 1);
      RunIsGood(t, acts, m - 1);
      StoppingStays(t[m - 1], acts[m - 1]);
    }
  }

  /** The two steps are of one thread. */
  predicate SameThread(a: Action, b: Action) {
    (a.Supervise? && b.Supervise? && a.i == b.i) || (a.Call? && a == b) || (a.DrainStep? && a == b)
  }

  predicate AllExited(s: State) { forall p <- s.sv.procs :: p.Exited? }

  /** The stop that had the lock is about to kill the process there is, or it has. */
  predicate Aimed(s: State, a: Action) { (Kills(s, a) && Target(s, a) == s.sv.proc) || AllExited(s) }

  lemma ExitedStay(s: State, a: Action)
    requires Good(s) && Enabled(s, a) && s.sv.stopping && FirstStartOver(s) && AllExited(s)
    ensures AllExited(Next(s, a))
  {
    hide FinsFit;
  }

  lemma AimStays(s: State, a: Action, b: Action)
    requires Good(s) && Enabled(s, a) && s.sv.stopping && FirstStartOver(s) && Aimed(s, b)
    ensures Aimed(Next(s, a), b)
    ensures Kills(s, a) && SameThread(a, b) ==> AllExited(Next(s, a))
  {
    hide Good, Next, Kills, FirstStartOver;
    if AllExited(s) {
      ExitedStay(s, a);
    } else if SameThread(a, b) {
      SameThreadKills(s, a, b);
      KillLands(s, a);
    } else {
      StoppingStays(s, a);
      OthersAim(s, a, b);
    }
  }

  lemma SameThreadKills(s: State, a: Action, b: Action)
    requires SameThread(a, b) && Kills(s, b)
    ensures Kills(s, a) && Target(s, a) == Target(s, b)
  {
  }

  lemma KillLands(s: State, a: Action)
    requires Good(s) && Enabled(s, a) && FirstStartOver(s) && Kills(s, a) && Target(s, a) == s.sv.proc
    ensures AllExited(Next(s, a))
  {
    hide FinsFit, LockFits;
  }

  lemma OthersAim(s: State, a: Action, b: Action)
    requires Enabled(s, a) && Kills(s, b) && !SameThread(a, b)
    ensures Kills(Next(s, a), b) && Target(Next(s, a), b) == Target(s, b)
  {
  }

  lemma TakesAim(s: State, a: Action)
    requires Enabled(s, a) && Takes(s, a)
    ensures Aimed(Next(s, a), a)
  {
  }

  lemma {:induction false} AimedUntil(t: seq<State>, acts: seq<Action>, k: nat, n: nat)
    requires Runs(t, acts) && k < n < |t| && Takes(t[k], acts[k]) && FirstStartOver(t[k])
    ensures Aimed(t[n], acts[k]) && t[n].sv.stopping && FirstStartOver(t[n])
    decreases n
  {
    if n > k + 1 {
      hide Aimed, Next;
      AimedUntil(t, acts, k, n - 1);
      RunIsGood(t, acts, n - 1);
      AimStays(t[n - 1], acts[n - 1], acts[k]);
      StoppingStays(t[n - 1], acts[n - 1]);
    } else {
      TakesAim(t[k], acts[k]);
      TakesStops(t[k], acts[k]);
    }
  }

  /** When a stop that had the lock after the first start has killed, and for ever after, nothing is alive:
      whatever was asked before it. */
  lemma {:induction false} NothingOutlivesAStop(t: seq<State>, acts: seq<Action>, k: nat, n: nat, m: nat)
    requires Runs(t, acts) && k < n < m < |t| && Takes(t[k], acts[k]) && FirstStartOver(t[k])
    requires Kills(t[n], acts[n]) && SameThread(acts[n], acts[k])
    ensures AllExited(t[m])
    decreases m
  {
    hide AllExited, Aimed, Next;
    AimedUntil(t, acts, k, m - 1);
    RunIsGood(t, acts, m - 1);
    AimStays(t[m - 1], acts[m - 1], acts[k]);
    if m > n + 1 {
      NothingOutlivesAStop(t, acts, k, n, m - 1);
      ExitedStay(t[m - 1], acts[m - 1]);
    }
  }

  // -- what is left of a stop that came too early ---------------------------------------------------

  /** Before the process is up a stop finds nothing to kill. */
  predicate TargetsFit(s: State) {
    s.boot.Up?
    || ((forall j :: 0 <= j < |s.callers| && s.callers[j].Killing? ==> s.callers[j].target.None?)
        && forall k :: 0 <= k < |s.drainers| && s.drainers[k].Quitting? ==> s.drainers[k].target.None?)
  }

  lemma StepKeepsTargets(s: State, a: Action)
    requires Good(s) && Enabled(s, a) && TargetsFit(s)
    ensures TargetsFit(Next(s, a))
  {
    hide FinsFit, LockFits;
  }

  lemma {:induction false} TargetsInRun(t: seq<State>, acts: seq<Action>, n: nat)
    requires Runs(t, acts) && n < |t|
    ensures TargetsFit(t[n])
    decreases n
  {
    hide Enabled, Next;
    if n > 0 {
      TargetsInRun(t, acts, n - 1);
      RunIsGood(t, acts, n - 1);
      StepKeepsTargets(t[n - 1], acts[n - 1]);
    }
  }

  /** The k-th call was past the look of `drain` at `drained` and `stopping` by the n-th state, or is a plain stop
      made since. */
  predicate Presses(t: seq<State>, acts: seq<Action>, n: nat, m: nat, k: nat)
    requires n <= m < |t| && |t| == |acts| + 1
  {
    || (k < |t[n].drainers| && (t[n].drainers[k].Marking? || t[n].drainers[k].Asked?))
    || exists l :: n <= l < m && acts[l] == Stop && |t[l].drainers| == k
  }

  /** The call has something to kill, or may come to. */
  predicate MayKill(d: Drainer) { d.Marking? || d.Asked? || (d.Quitting? && d.target.Some?) }

  predicate TurnedAway(t: seq<State>, acts: seq<Action>, n: nat, m: nat)
    requires n <= m < |t| && |t| == |acts| + 1
  {
    && t[m].sv.stopping
    && (forall i :: 0 <= i < |t[m].waiters| ==> !Holds(t[m].waiters[i]))
    && forall k :: 0 <= k < |t[m].drainers| && MayKill(t[m].drainers[k]) ==> Presses(t, acts, n, m, k)
  }

  /** Once stopping, with no supervisor in the middle of something, none is any more and no drain goes ahead. */
  lemma StoppedStep(s: State, a: Action)
    requires Enabled(s, a) && s.sv.stopping && forall i :: 0 <= i < |s.waiters| ==> !Holds(s.waiters[i])
    ensures var s' := Next(s, a);
            && s'.sv.stopping
            && (forall i :: 0 <= i < |s'.waiters| ==> !Holds(s'.waiters[i]))
            && |s'.drainers| == |s.drainers| + (if a.Drain? || a.Stop? then 1 else 0)
            && (forall k :: 0 <= k < |s.drainers| && MayKill(s'.drainers[k]) ==> MayKill(s.drainers[k]))
            && (a.Drain? ==> s'.drainers[|s.drainers|].Checking?)
  {
  }

  lemma TurnedAwayStep(t: seq<State>, acts: seq<Action>, n: nat, m: nat)
    requires Runs(t, acts) && n <= m < |acts| && TurnedAway(t, acts, n, m)
    ensures TurnedAway(t, acts, n, m + 1)
  {
    hide Next, Enabled, MayKill;
    StoppedStep(t[m], acts[m]);
    var next, after := t[m + 1], m + 1;
    forall k | 0 <= k < |next.drainers| && MayKill(next.drainers[k]) ensures Presses(t, acts, n, after, k) {
      if k < |t[m].drainers| {
        assert Presses(t, acts, n, m, k);
      } else {
        NotChecking(next.drainers[k]);
        assert acts[m] == Stop;
      }
    }
  }

  lemma NotChecking(d: Drainer)
    requires MayKill(d)
    ensures !d.Checking?
  {
  }

  lemma {:induction false} TurnedAwaySince(t: seq<State>, acts: seq<Action>, n: nat, m: nat)
    requires Runs(t, acts) && n < m < |t| && Takes(t[n], acts[n]) && !FirstStartOver(t[n])
    ensures TurnedAway(t, acts, n + 1, m)
    decreases m
  {
    hide Next, TurnedAway;
    if m > n + 1 {
      TurnedAwaySince(t, acts, n, m - 1);
      TurnedAwayStep(t, acts, n + 1, m - 1);
    } else {
      RunIsGood(t, acts, n + 1);
      TargetsInRun(t, acts, n + 1);
      TakesStops(t[n], acts[n]);
      TurnedAwayAtOnce(t, acts, m);
    }
  }

  lemma TurnedAwayAtOnce(t: seq<State>, acts: seq<Action>, n: nat)
    requires |t| == |acts| + 1 && n < |t| && Good(t[n]) && TargetsFit(t[n]) && t[n].sv.stopping && !FirstStartOver(t[n])
    ensures TurnedAway(t, acts, n, n)
  {
  }

  predicate Lives(s: State, i: nat) { i < |s.sv.procs| && s.sv.procs[i].Alive? }

  /** After a stop that came before the process was up, and returned with nothing to kill, what is started ends
      only by itself, by a `finish`, or by a call that was past its look before: no later drain ends it. */
  lemma OnlyAnEndingKills(t: seq<State>, acts: seq<Action>, n: nat, m: nat, i: nat)
    requires Runs(t, acts) && n < m < |acts| && Takes(t[n], acts[n]) && !FirstStartOver(t[n])
    requires Lives(t[m], i) && !Lives(t[m + 1], i)
    ensures || (acts[m].Exit? && acts[m].i == i)
            || (acts[m].Call? && Kills(t[m], acts[m]))
            || (acts[m].DrainStep? && Kills(t[m], acts[m]) && Presses(t, acts, n + 1, m, acts[m].k))
  {
    TurnedAwaySince(t, acts, n, m);
    WhatEnds(t[m], acts[m], i);
  }

  lemma WhatEnds(s: State, a: Action, i: nat)
    requires Enabled(s, a) && Lives(s, i)
    ensures !Lives(Next(s, a), i) ==>
              (a.Exit? && a.i == i) || (Kills(s, a) && (a.DrainStep? ==> s.drainers[a.k].target.Some?))
  {
  }

  lemma EndingStays(s: State, a: Action)
    requires Good(s) && Enabled(s, a) && s.out.result.Some?
    ensures Next(s, a).out.result == s.out.result && s.out.sent <= Next(s, a).out.sent
  {
    hide LockFits, ProcsFit, Deserved;
  }

  /** The first ending stays, whatever ends, stops, drains or is posted later, and it is what is sent,
      once at most. */
  lemma {:induction false} FirstEndingWins(t: seq<State>, acts: seq<Action>, n: nat, m: nat)
    requires Runs(t, acts) && n <= m < |t| && t[n].out.result.Some?
    ensures t[m].out.result == t[n].out.result
    ensures t[m].out.sent == [] || t[m].out.sent == [t[n].out.result.value]
    decreases m
  {
    hide Enabled, Next;
    RunIsGood(t, acts, m);
    if m > n {
      FirstEndingWins(t, acts, n, m - 1);
      RunIsGood(t, acts, m - 1);
      EndingStays(t[m - 1], acts[m - 1]);
    }
  }

  /** Where a thread stands in `finish`. */
  function FinOf(s: State, who: Who): Option<Fin> {
    match who
    case Supervisor(i) => if i < |s.waiters| && s.waiters[i].Ending? then Some(s.waiters[i].fin) else None
    case Caller(j) => if j < |s.callers| then Some(s.callers[j]) else None
  }

  predicate By(a: Action, who: Who) {
    match who case Supervisor(i) => a.Supervise? && a.i == i case Caller(j) => a == Call(j)
  }

  /** The first ending is sent before the process is stopped, and has been when a `finish` is through. */
  lemma SentBeforeStopping(t: seq<State>, acts: seq<Action>, n: nat, who: Who)
    requires Runs(t, acts) && n < |t|
    requires t[n].out.finished
             || FinOf(t[n], who) == Some(Stopping) || FinOf(t[n], who) == Some(Setting)
             || (FinOf(t[n], who).Some? && FinOf(t[n], who).value.Killing?)
    ensures t[n].out.result.Some? && t[n].out.sent == [t[n].out.result.value]
  {
    hide Enabled, Next;
    RunIsGood(t, acts, n);
  }

  lemma FinMoves(s: State, a: Action, who: Who)
    requires Enabled(s, a) && FinOf(Next(s, a), who).Some?
    requires FinOf(Next(s, a), who).value.Killing? || FinOf(Next(s, a), who).value.Setting?
    ensures FinOf(Next(s, a), who) == FinOf(s, who)
            || (By(a, who) && if FinOf(Next(s, a), who).value.Killing? then Takes(s, a) else Kills(s, a))
    ensures FinOf(Next(s, a), who) != FinOf(s, who) && FinOf(Next(s, a), who).value.Setting? ==>
              FinOf(s, who).Some? && FinOf(s, who).value.Killing?
  {
  }

  /** The stop it came through. */
  lemma {:induction false} TookBefore(t: seq<State>, acts: seq<Action>, n: nat, who: Who) returns (k: nat)
    requires Runs(t, acts) && n < |t| && FinOf(t[n], who).Some? && FinOf(t[n], who).value.Killing?
    ensures k < n && Takes(t[k], acts[k]) && By(acts[k], who)
    decreases n
  {
    hide Enabled, Next, FinOf;
    assert FinOf(t[0], who).None? by { NobodyAtFirst(who); }
    FinMoves(t[n - 1], acts[n - 1], who);
    if FinOf(t[n - 1], who) == FinOf(t[n], who) { k := TookBefore(t, acts, n - 1, who); } else { k := n - 1; }
  }

  lemma NobodyAtFirst(who: Who)
    ensures FinOf(Initial, who).None?
  {
  }

  lemma {:induction false} KilledBefore(t: seq<State>, acts: seq<Action>, n: nat, who: Who) returns (k: nat, m: nat)
    requires Runs(t, acts) && n < |t| && FinOf(t[n], who) == Some(Setting)
    ensures k < m < n && Takes(t[k], acts[k]) && Kills(t[m], acts[m]) && By(acts[k], who) && By(acts[m], who)
    decreases n
  {
    hide Enabled, Next, FinOf;
    assert FinOf(t[0], who).None? by { NobodyAtFirst(who); }
    FinMoves(t[n - 1], acts[n - 1], who);
    if FinOf(t[n - 1], who) == FinOf(t[n], who) {
      k, m := KilledBefore(t, acts, n - 1, who);
    } else {
      m := n - 1;
      k := TookBefore(t, acts, m, who);
    }
  }

  lemma FinishSets(s: State, a: Action) returns (who: Who)
    requires Enabled(s, a) && Next(s, a).out.finished && !s.out.finished
    ensures FinOf(s, who) == Some(Setting)
  {
    if a.Call? { who := Caller(a.j); } else { who := Supervisor(a.i); }
  }

  /** A `finish` that is through has had the lock for its stop and has killed. */
  lemma {:induction false} FinishStopped(t: seq<State>, acts: seq<Action>, n: nat) returns (k: nat, m: nat)
    requires Runs(t, acts) && n < |t| && t[n].out.finished
    ensures k < m < n && Takes(t[k], acts[k]) && Kills(t[m], acts[m]) && SameThread(acts[m], acts[k])
    decreases n
  {
    hide Enabled, Next;
    if t[n - 1].out.finished {
      k, m := FinishStopped(t, acts, n - 1);
    } else {
      var who := FinishSets(t[n - 1], acts[n - 1]);
      k, m := KilledBefore(t, acts, n - 1, who);
    }
  }

  /** So once the pod is finished no process is alive, unless the stop came before the first start was over. */
  lemma FinishedIsQuiet(t: seq<State>, acts: seq<Action>, n: nat) returns (k: nat)
    requires Runs(t, acts) && n < |t| && t[n].out.finished
    ensures k < n && Takes(t[k], acts[k]) && (FirstStartOver(t[k]) ==> AllExited(t[n]))
  {
    var m;
    k, m := FinishStopped(t, acts, n);
    if FirstStartOver(t[k]) { NothingOutlivesAStop(t, acts, k, m, n); }
  }

  // -- a finish goes through ---------------------------------------------------------------------------

  /** Whoever has won goes on until the pod is finished, and whoever is through finds a result. */
  predicate GoesThrough(s: State) {
    && (s.out.winner.Some? && !s.out.finished ==>
          FinOf(s, s.out.winner.value).Some?
          && var f := FinOf(s, s.out.winner.value).value; f.Sending? || f.Stopping? || f.Killing? || f.Setting?)
    && (forall j :: 0 <= j < |s.callers| && s.callers[j].Over? ==> s.out.result.Some?)
    && (s.boot.NeverUp? ==> s.callers != [])
  }

  lemma StepGoesThrough(s: State, a: Action)
    requires Good(s) && Enabled(s, a) && GoesThrough(s)
    ensures GoesThrough(Next(s, a))
  {
    hide Good, GoesThrough;
    match a
    case Supervise(i, works) => SuperviseGoesThrough(s, i, works);
    case Call(j) => CallGoesThrough(s, j);
    case Wake(i, draining) => WakeGoesThrough(s, i, draining);
    case _ => OthersGoThrough(s, a);
  }

  lemma SuperviseGoesThrough(s: State, i: nat, works: bool)
    requires Good(s) && Enabled(s, Supervise(i, works)) && GoesThrough(s)
    ensures GoesThrough(Next(s, Supervise(i, works)))
  {
    hide LockFits, ProcsFit, Kill, TakeStop;
    KeepsEndings(s);
  }

  /** Stopping and killing leave the ending and the calls alone. */
  lemma KeepsEndings(s: State)
    ensures var m := TakeStop(s); (m.out, m.boot, m.waiters, m.callers) == (s.out, s.boot, s.waiters, s.callers)
    ensures forall target :: var m := Kill(s, target); (m.out, m.boot, m.waiters, m.callers) == (s.out, s.boot, s.waiters, s.callers)
  {
  }

  lemma CallGoesThrough(s: State, j: nat)
    requires Good(s) && Enabled(s, Call(j)) && GoesThrough(s)
    ensures GoesThrough(Next(s, Call(j)))
  {
    hide LockFits, ProcsFit;
  }

  lemma WakeGoesThrough(s: State, i: nat, draining: bool)
    requires Good(s) && Enabled(s, Wake(i, draining)) && GoesThrough(s)
    ensures GoesThrough(Next(s, Wake(i, draining)))
  {
    hide LockFits, ProcsFit;
    assert s.waiters[i].Waiting?;
  }

  lemma OthersGoThrough(s: State, a: Action)
    requires Good(s) && Enabled(s, a) && GoesThrough(s) && !a.Supervise? && !a.Call? && !a.Wake?
    ensures GoesThrough(Next(s, a))
  {
    hide LockFits, ProcsFit, FinsFit, FinStep;
  }

  lemma {:induction false} GoesThroughAllAlong(t: seq<State>, acts: seq<Action>, n: nat)
    requires Runs(t, acts) && n < |t|
    ensures GoesThrough(t[n])
    decreases n
  {
    hide Enabled, Next;
    if n > 0 {
      GoesThroughAllAlong(t, acts, n - 1);
      RunIsGood(t, acts, n - 1);
      StepGoesThrough(t[n - 1], acts[n - 1]);
    }
  }

  /** In every run: until the pod is finished the one that ends it stands between winning and setting it finished;
      any other `finish` that is through has found it ended; and a first start that failed ends the pod. */
  lemma EndingsGoThrough(t: seq<State>, acts: seq<Action>, n: nat)
    requires Runs(t, acts) && n < |t|
    ensures t[n].out.result.Some? && !t[n].out.finished ==>
              t[n].out.winner.Some? && FinOf(t[n], t[n].out.winner.value).Some?
              && var f := FinOf(t[n], t[n].out.winner.value).value; f.Sending? || f.Stopping? || f.Killing? || f.Setting?
    ensures forall j :: 0 <= j < |t[n].callers| && t[n].callers[j].Over? ==> t[n].out.result.Some?
    ensures t[n].boot.NeverUp? && (forall j :: 0 <= j < |t[n].callers| ==> t[n].callers[j].Over?) ==> t[n].out.result.Some?
  {
    hide Enabled, Next;
    RunIsGood(t, acts, n);
    GoesThroughAllAlong(t, acts, n);
    if t[n].callers != [] { assert t[n].callers[0].Over? ==> t[n].out.result.Some?; }
  }

  // -- every exit is answered --------------------------------------------------------------------------

  /** A supervisor that is gone has left a process behind it or the pod's result, unless the pod was stopping;
      an exit with zero may also have been the drain's. */
  predicate Answered(s: State, i: nat)
    requires i < |s.waiters|
  {
    s.waiters[i].Gone? ==>
      || s.sv.stopping || s.out.result.Some? || i + 1 < |s.sv.procs|
      || (s.sv.drained && i < |s.sv.procs| && s.sv.procs[i] == Exited(0))
  }

  predicate AllAnswered(s: State) { forall i :: 0 <= i < |s.waiters| ==> Answered(s, i) }

  lemma StepKeepsAnswered(s: State, a: Action)
    requires Good(s) && Enabled(s, a) && AllAnswered(s)
    ensures AllAnswered(Next(s, a))
  {
    hide Good;
    match a
    case Wake(i, draining) => WakeAnswers(s, i, draining);
    case Supervise(i, works) => SupervisorAnswers(s, i, works);
    case BootStep(works) => BootAnswers(s, works);
    case _ => OthersAnswer(s, a);
  }

  lemma WakeAnswers(s: State, i: nat, draining: bool)
    requires Good(s) && Enabled(s, Wake(i, draining)) && AllAnswered(s)
    ensures AllAnswered(Next(s, Wake(i, draining)))
  {
    hide LockFits;
    var s' := Next(s, Wake(i, draining));
    forall j | 0 <= j < |s'.waiters| ensures Answered(s', j) { assert Answered(s, j); }
  }

  lemma BootAnswers(s: State, works: bool)
    requires Good(s) && Enabled(s, BootStep(works)) && AllAnswered(s)
    ensures AllAnswered(Next(s, BootStep(works)))
  {
    hide LockFits, FinsFit;
  }

  lemma SupervisorAnswers(s: State, i: nat, works: bool)
    requires Good(s) && Enabled(s, Supervise(i, works)) && AllAnswered(s)
    ensures AllAnswered(Next(s, Supervise(i, works)))
  {
    hide LockFits;
  }

  lemma OthersAnswer(s: State, a: Action)
    requires Good(s) && Enabled(s, a) && AllAnswered(s) && !a.Wake? && !a.Supervise? && !a.BootStep?
    ensures AllAnswered(Next(s, a))
  {
    hide LockFits, FinsFit;
    var s' := Next(s, a);
    forall j | 0 <= j < |s'.waiters| ensures Answered(s', j) { assert Answered(s, j); }
  }

  /** In every run: a process that exits non-zero is restarted or ends the pod, one that exits zero ends it or
      was drained, unless a stop came first. */
  lemma {:induction false} ExitsAreAnswered(t: seq<State>, acts: seq<Action>, n: nat, i: nat)
    requires Runs(t, acts) && n < |t| && i < |t[n].waiters|
    ensures t[n].waiters[i].Gone? ==>
              || t[n].sv.stopping || t[n].out.result.Some? || i + 1 < |t[n].sv.procs|
              || (t[n].sv.drained && i < |t[n].sv.procs| && t[n].sv.procs[i] == Exited(0))
  {
    hide Enabled, Next;
    AnsweredAllAlong(t, acts, n);
    assert Answered(t[n], i);
  }

  lemma {:induction false} AnsweredAllAlong(t: seq<State>, acts: seq<Action>, n: nat)
    requires Runs(t, acts) && n < |t|
    ensures AllAnswered(t[n])
    decreases n
  {
    hide Enabled, Next;
    if n > 0 {
      AnsweredAllAlong(t, acts, n - 1);
      RunIsGood(t, acts, n - 1);
      StepKeepsAnswered(t[n - 1], acts[n - 1]);
    }
  }

  lemma NoEndingAfterStop(s: State, a: Action)
    requires Good(s) && EndingsFit(s) && Enabled(s, a) && s.sv.stopping && s.out.result.None?
    ensures Next(s, a).out.result.Some? ==> Next(s, a).out.result.value.Elsewhere?
  {
  }

  /** A drain is not an ending: once it has stopped the process, only someone else can end the pod. */
  lemma {:induction false} DrainEndsNothing(t: seq<State>, acts: seq<Action>, n: nat, m: nat)
    requires Runs(t, acts) && n <= m < |t| && t[n].sv.stopping && t[n].out.result.None?
    ensures t[m].sv.stopping
    ensures t[m].out.result.Some? ==> t[m].out.result.value.Elsewhere?
    decreases m
  {
    hide Enabled, Next;
    if m > n {
      DrainEndsNothing(t, acts, n, m - 1);
      RunIsGood(t, acts, m - 1);
      StoppingStays(t[m - 1], acts[m - 1]);
      if t[m - 1].out.result.None? {
        NoEndingAfterStop(t[m - 1], acts[m - 1]);
      } else {
        EndingStays(t[m - 1], acts[m - 1]);
      }
    }
  }

  /** A supervisor that ends the pod holds the lock while `finish` calls `stop`, and is never stuck. */
  lemma TheLockIsNeverStuck(t: seq<State>, acts: seq<Action>, n: nat)
    requires Runs(t, acts) && n < |t| && t[n].sv.owner.Some?
    ensures Enabled(t[n], Supervise(t[n].sv.owner.value, true))
  {
    RunIsGood(t, acts, n);
  }

  /** The first start takes no lock: a drain just before it returns, and the process starts and stays. */
  lemma EarlyDrainIsLost(t: seq<State>)
    requires Runs(t, [Drain, DrainStep(0), DrainStep(0), DrainStep(0), DrainStep(0), BootStep(true), BootStep(true)])
    ensures t[5].drainers == [Drained] && t[5].sv.stopping && t[5].sv.procs == []
    ensures t[7].sv.procs == [Alive] && t[7].sv.proc == Some(0) && t[7].waiters == [Waiting]
  {
    assert t[1] == Next(t[0], Drain);
    assert t[2] == Next(t[1], DrainStep(0));
    assert t[3] == Next(t[2], DrainStep(0));
    assert t[4] == Next(t[3], DrainStep(0));
    assert t[5] == Next(t[4], DrainStep(0));
    assert t[6] == Next(t[5], BootStep(true));
    assert t[7] == Next(t[6], BootStep(true));
  }

  lemma EarlyDrainHappens() returns (t: seq<State>)
    ensures Runs(t, [Drain, DrainStep(0), DrainStep(0), DrainStep(0), DrainStep(0), BootStep(true), BootStep(true)])
  {
    var a0 := Initial;
    var a1 := Next(a0, Drain);
    var a2 := Next(a1, DrainStep(0));
    var a3 := Next(a2, DrainStep(0));
    var a4 := Next(a3, DrainStep(0));
    var a5 := Next(a4, DrainStep(0));
    var a6 := Next(a5, BootStep(true));
    t := [a0, a1, a2, a3, a4, a5, a6, Next(a6, BootStep(true))];
  }
}

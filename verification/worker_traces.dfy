/** What is known of a claim from the steps that were taken: who had the last word on it once its lease was
    lost, and which tasks left `tasks` with their handler running. */
module WorkerTraces {
  import opened Options
  import opened WorkerLoop
  import opened WorkerSafety

  // -- after a lost lease ------------------------------------------------------------------------

  /** The endings sent for run i, and those a thread has won the right to send. */
  function Words(s: State, i: nat): nat
    requires Valid(s) && i < |s.runs|
  {
    var t := s.runs[i];
    Endings(t.sh, PrepEnd(t.prep), ExecEnd(t.exec), RoleEnd(RoleIn(s.main, i)))
  }

  /** When the lease was lost, a thread had already looked and found no stop or another one: it is to write its
      own reason over it, or is past the handler's stop. */
  predicate Overtaken(s: State, i: nat)
    requires Valid(s) && i < |s.runs|
  {
    || Late(s.runs[i])
    || (s.main.MWalk? && s.main.at.StopWriting? && s.main.held[s.main.k] == i)
  }

  /** The prepare thread refused the task, or the execute thread could not start it or has its outcome. */
  predicate ThreadSpeaks(t: Run, a: Action, overtaken: bool) {
    !t.sh.closed
    && match a
       case Prep(_, _) => t.prep == PEnd(TryRelease)
       case Exec(_, _) =>
         t.exec == XEnd(TryRelease)
         || (t.exec.XEnd? && t.exec.end.TryReport? && (t.exec.end.outcome.WasCancelled? ==> overtaken))
       case _ => false
  }

  /** The step decides that something is said of run i, which nothing was yet: its prepare thread gives it back;
      its start was not accepted; its handler returned or failed otherwise than by stopping (a stop is reported
      only when it overtook the loss); the stopping main loop gives it back; or the main loop gave up on it. */
  predicate Speaks(s: State, a: Action, i: nat, overtaken: bool)
    requires Valid(s) && i < |s.runs|
  {
    if a.Main? then
      !s.runs[i].sh.closed && var e := RoleEnd(RoleIn(s.main, i)); e.TryRelease? || e.TryReport?
    else a.i == i && ThreadSpeaks(s.runs[i], a, overtaken)
  }

  /** Some step of the schedule does. */
  predicate SpeaksIn(c: Config, s: State, schedule: seq<Action>, i: nat, overtaken: bool)
    requires Valid(s) && i < |s.runs|
    decreases |schedule|
  {
    schedule != [] && Step(c, s, schedule[0]).Some?
    && (Speaks(s, schedule[0], i, overtaken)
        || SpeaksIn(c, Step(c, s, schedule[0]).value, schedule[1..], i, overtaken))
  }

  lemma ThreadWords(t: Run, a: Action, r: Role, stopping: bool)
    requires !a.Main? && RunInv(t, r, stopping) && ThreadStep(t, a).Some?
    ensures var t' := ThreadStep(t, a).value.0;
            Endings(t'.sh, PrepEnd(t'.prep), ExecEnd(t'.exec), RoleEnd(r))
            == Endings(t.sh, PrepEnd(t.prep), ExecEnd(t.exec), RoleEnd(r)) + if ThreadSpeaks(t, a, true) then 1 else 0
  {
    hide BeatStep, PrepStep, ExecStep, Endings, PrepEnd, ExecEnd;
    match a {
      case Beat(_, reply) => BeatWords(t, reply);
      case Prep(_, e) => PrepWords(t, e, ExecEnd(t.exec), RoleEnd(r));
      case Exec(_, e) => ExecWords(t, e, PrepEnd(t.prep), RoleEnd(r));
      case Main(_) =>
    }
    EndingsBySent(t, a, r);
  }

  /** The beat thread sends nothing. */
  lemma BeatWords(t: Run, reply: BeatReply)
    requires BeatOk(t.sh, t.beat) && BeatStep(t.task, t.sh, t.beat, reply).Some?
    ensures BeatStep(t.task, t.sh, t.beat, reply).value.0.sent == t.sh.sent
  {
  }

  lemma EndingsBySent(t: Run, a: Action, r: Role)
    requires ThreadStep(t, a).Some? && (a.Beat? ==> ThreadStep(t, a).value.0.sh.sent == t.sh.sent)
    ensures a.Beat? ==> var t' := ThreadStep(t, a).value.0;
                        Endings(t'.sh, PrepEnd(t'.prep), ExecEnd(t'.exec), RoleEnd(r))
                        == Endings(t.sh, PrepEnd(t.prep), ExecEnd(t.exec), RoleEnd(r))
  {
    hide BeatStep, PrepStep, ExecStep;
  }

  lemma PrepWords(t: Run, e: PrepEvent, exec: End, main: End)
    requires PrepOk(t.sh, t.prep) && PrepStep(t.task, t.sh, t.prep, e).Some?
    ensures var (sh, pc) := PrepStep(t.task, t.sh, t.prep, e).value;
            Endings(sh, PrepEnd(pc), exec, main)
            == Endings(t.sh, PrepEnd(t.prep), exec, main) + if !t.sh.closed && t.prep == PEnd(TryRelease) then 1 else 0
  {
  }

  lemma ExecWords(t: Run, e: ExecEvent, prep: End, main: End)
    requires ExecStep(t.task, t.sh, t.exec, e).Some?
    ensures var (sh, pc) := ExecStep(t.task, t.sh, t.exec, e).value;
            Endings(sh, prep, ExecEnd(pc), main)
            == Endings(t.sh, prep, ExecEnd(t.exec), main)
               + if !t.sh.closed && t.exec.XEnd? && (t.exec.end.TryRelease? || t.exec.end.TryReport?) then 1 else 0
  {
    hide EndStep, Pledge;
    if t.exec.XEnd? { EndPledges(t.task, t.sh, t.exec.end); } else { BodyPledges(t, e); }
  }

  lemma EndPledges(o: Offer, sh: Shared, e: End)
    ensures var (sh', e') := EndStep(o, sh, e);
            |sh'.sent| + Pledge(e') == |sh.sent| + Pledge(e) + if !sh.closed && (e.TryRelease? || e.TryReport?) then 1 else 0
    ensures Pledge(Over) == 0
  {
  }

  lemma BodyPledges(t: Run, e: ExecEvent)
    requires ExecStep(t.task, t.sh, t.exec, e).Some? && !t.exec.XEnd?
    ensures var (sh, pc) := ExecStep(t.task, t.sh, t.exec, e).value;
            sh.sent == t.sh.sent && Pledge(ExecEnd(pc)) == 0 == Pledge(ExecEnd(t.exec))
  {
  }

  lemma EndWords(t: Run, r: Role, stopping: bool)
    requires RunInv(t, r, stopping) && !r.NoRole?
    ensures var (sh, e') := EndStep(t.task, t.sh, r.end);
            Endings(sh, PrepEnd(t.prep), ExecEnd(t.exec), RoleEnd(Next(r, e')))
            == Endings(t.sh, PrepEnd(t.prep), ExecEnd(t.exec), RoleEnd(r))
               + if !t.sh.closed && (r.end.TryRelease? || r.end.TryReport?) then 1 else 0
  {
  }

  /** Main loop steps outside the ending code. */
  predicate Mute(s: State, s': State)
    requires Valid(s) && Valid(s')
  {
    |s.runs| <= |s'.runs|
    && forall i :: 0 <= i < |s.runs| ==>
         && RoleIn(s.main, i).NoRole? && Pledge(RoleEnd(RoleIn(s'.main, i))) == 0
         && s'.runs[i].sh.sent == s.runs[i].sh.sent && s'.runs[i].prep == s.runs[i].prep
         && ExecEnd(s'.runs[i].exec) == ExecEnd(s.runs[i].exec)
  }

  lemma TopMute(c: Config, s: State, e: MainEvent)
    requires Valid(s) && !s.main.MWalk? && MainStep(c, s, e).Some?
    ensures Mute(s, MainStep(c, s, e).value)
  {
    hide StartedAmong, Alive;
  }

  lemma GiveBackMute(c: Config, s: State, e: MainEvent)
    requires Valid(s) && s.main.MWalk? && !s.main.at.Releasing? && GiveBackStep(c, s, e).Some?
    ensures Mute(s, GiveBackStep(c, s, e).value)
  {
  }

  lemma DispatchMute(c: Config, s: State, e: MainEvent)
    requires Valid(s) && RunsInv(s) && s.main.MWalk? && DispatchStep(c, s, e).Some?
    ensures Mute(s, DispatchStep(c, s, e).value)
  {
    hide BeatOk, PrepOk, RoleOk, EndedOnce, SaysRight, OnlyStopping, HeldInv;
    if s.main.at.Marking? {
      var i := s.main.held[s.main.k];
      assert RunInv(s.runs[i], RoleIn(s.main, i), Ceasing(s));
    }
  }

  lemma WatchMute(s: State, e: MainEvent)
    requires Valid(s) && s.main.MWalk? && !s.main.at.Killing?
    ensures WatchStep(s, e).Some? ==> Mute(s, WatchStep(s, e).value)
    ensures KillStep(s, e).Some? ==> Mute(s, KillStep(s, e).value)
  {
  }

  lemma NoteMute(s: State, e: MainEvent)
    requires Valid(s) && s.main.MWalk? && NoteStep(s, e).Some?
    ensures Mute(s, NoteStep(s, e).value)
  {
  }

  lemma MainMute(c: Config, s: State, e: MainEvent)
    requires Valid(s) && RunsInv(s) && MainStep(c, s, e).Some?
    requires !(s.main.MWalk? && (s.main.at.Releasing? || s.main.at.Killing?))
    ensures Mute(s, MainStep(c, s, e).value)
  {
    hide Mute, GiveBackStep, DispatchStep, WatchStep, NoteStep, KillStep;
    if !s.main.MWalk? {
      TopMute(c, s, e);
    } else if s.main.at.Deciding? || s.main.at.Giving? {
      GiveBackMute(c, s, e);
    } else if DispatchingNow(s.main) {
      DispatchMute(c, s, e);
    } else if s.main.at.StopWriting? || s.main.at.StopSeen? {
      NoteMute(s, e);
    } else {
      WatchMute(s, e);
    }
  }

  lemma EndedWords(s: State, s': State, i: nat)
    requires Valid(s) && RunsInv(s) && s.main.MWalk? && (s.main.at.Releasing? || s.main.at.Killing?) && Valid(s')
    requires i < |s.runs|
    requires var h := s.main.held[s.main.k];
             var (s1, e') := MainEnd(s, h, s.main.at.end);
             && s'.runs == s1.runs
             && forall j :: 0 <= j < |s.runs| ==> RoleIn(s'.main, j) == if j == h then Next(RoleIn(s.main, h), e') else NoRole
    ensures Words(s', i) == Words(s, i) + if Speaks(s, Main(Quiet), i, true) then 1 else 0
  {
    hide RunInv, Endings, EndStep, Popped;
    assert RunInv(s.runs[i], RoleIn(s.main, i), Ceasing(s));
    if i == s.main.held[s.main.k] { EndWords(s.runs[i], RoleIn(s.main, i), Ceasing(s)); }
  }

  lemma GiveBackWords(c: Config, s: State, e: MainEvent, i: nat)
    requires Valid(s) && RunsInv(s) && s.main.MWalk? && s.main.at.Releasing? && GiveBackStep(c, s, e).Some? && i < |s.runs|
    ensures Words(GiveBackStep(c, s, e).value, i) == Words(s, i) + if Speaks(s, Main(e), i, true) then 1 else 0
  {
    hide RunsInv, Words, Popped, EndStep;
    EndedWords(s, GiveBackStep(c, s, e).value, i);
  }

  lemma KillWords(s: State, e: MainEvent, i: nat)
    requires Valid(s) && RunsInv(s) && s.main.MWalk? && s.main.at.Killing? && KillStep(s, e).Some? && i < |s.runs|
    ensures Words(KillStep(s, e).value, i) == Words(s, i) + if Speaks(s, Main(e), i, true) then 1 else 0
  {
    hide RunsInv, Words, Popped, EndStep;
    EndedWords(s, KillStep(s, e).value, i);
  }

  lemma MainWords(c: Config, s: State, e: MainEvent, i: nat)
    requires Valid(s) && RunsInv(s) && MainStep(c, s, e).Some? && i < |s.runs|
    ensures Words(MainStep(c, s, e).value, i) == Words(s, i) + if Speaks(s, Main(e), i, true) then 1 else 0
  {
    if s.main.MWalk? && s.main.at.Releasing? {
      hide RunsInv, Words, GiveBackStep;
      GiveBackWords(c, s, e, i);
    } else if s.main.MWalk? && s.main.at.Killing? {
      hide RunsInv, Words, KillStep;
      KillWords(s, e, i);
    } else {
      hide MainStep;
      MainMute(c, s, e);
    }
  }

  lemma StepWords(c: Config, s: State, a: Action, i: nat)
    requires Valid(s) && RunsInv(s) && Step(c, s, a).Some? && i < |s.runs|
    ensures Words(Step(c, s, a).value, i) == Words(s, i) + if Speaks(s, a, i, true) then 1 else 0
  {
    hide RunInv, MainStep, ThreadStep;
    if a.Main? {
      MainWords(c, s, a.event, i);
    } else if a.i == i {
      assert RunInv(s.runs[i], RoleIn(s.main, i), Ceasing(s));
      ThreadWords(s.runs[i], a, RoleIn(s.main, i), Ceasing(s));
    }
  }

  predicate LeaseLost(s: State, i: nat)
    requires Valid(s) && i < |s.runs|
  {
    s.runs[i].sh.stop == Stopped(Lost)
  }

  /** A loss that overtook nothing stays the reason, and no stop of the handler is reported. */
  lemma LossStays(c: Config, s: State, a: Action, i: nat)
    requires Valid(s) && i < |s.runs| && Step(c, s, a).Some? && LeaseLost(s, i) && !Overtaken(s, i)
    ensures var s' := Step(c, s, a).value; LeaseLost(s', i) && !Overtaken(s', i)
  {
    if !a.Main? {
      hide Popped;
      if a.i == i { LossStaysInThread(s.runs[i], a); }
    } else {
      hide MainStep;
      MainLeavesLoss(c, s, a.event, i);
    }
  }

  /** Overtaken, of the run's own threads. */
  predicate Late(t: Run) {
    || (t.beat.BWrite? && !t.beat.r.Lost?)
    || (t.exec.XWrite? && !t.exec.r.Lost?)
    || t.exec.XCancelRead? || t.exec.XCancelWrite? || t.exec == XEnd(TryReport(WasCancelled))
  }

  lemma LossStaysInThread(t: Run, a: Action)
    requires ThreadStep(t, a).Some? && t.sh.stop == Stopped(Lost) && !Late(t)
    ensures var t' := ThreadStep(t, a).value.0; t'.sh.stop == Stopped(Lost) && !Late(t')
  {
    hide BeatStep, ExecStep, PrepStep;
    match a {
      case Beat(_, reply) => LossStaysInBeat(t, reply);
      case Prep(_, e) => LossStaysInPrep(t, e);
      case Exec(_, e) => LossStaysInExec(t, e);
      case Main(_) =>
    }
  }

  lemma EndLeavesStop(o: Offer, sh: Shared, e: End)
    ensures EndStep(o, sh, e).0.stop == sh.stop && !EndStep(o, sh, e).1.TryReport?
  {
  }

  lemma LossStaysInBeat(t: Run, reply: BeatReply)
    requires BeatStep(t.task, t.sh, t.beat, reply).Some? && t.sh.stop == Stopped(Lost) && !Late(t)
    ensures var (sh, pc) := BeatStep(t.task, t.sh, t.beat, reply).value; sh.stop == Stopped(Lost) && !Late(t.(sh := sh, beat := pc))
  {
    hide EndStep;
    if t.beat.BEnd? { EndLeavesStop(t.task, t.sh, t.beat.end); }
  }

  lemma LossStaysInPrep(t: Run, e: PrepEvent)
    requires PrepStep(t.task, t.sh, t.prep, e).Some? && t.sh.stop == Stopped(Lost) && !Late(t)
    ensures var (sh, pc) := PrepStep(t.task, t.sh, t.prep, e).value; sh.stop == Stopped(Lost) && !Late(t.(sh := sh, prep := pc))
  {
    hide EndStep;
    if t.prep.PEnd? { EndLeavesStop(t.task, t.sh, t.prep.end); }
  }

  lemma LossStaysInExec(t: Run, e: ExecEvent)
    requires ExecStep(t.task, t.sh, t.exec, e).Some? && t.sh.stop == Stopped(Lost) && !Late(t)
    ensures var (sh, pc) := ExecStep(t.task, t.sh, t.exec, e).value; sh.stop == Stopped(Lost) && !Late(t.(sh := sh, exec := pc))
  {
    hide EndStep;
    if t.exec.XEnd? { EndLeavesStop(t.task, t.sh, t.exec.end); }
  }

  lemma MainLeavesLoss(c: Config, s: State, e: MainEvent, i: nat)
    requires Valid(s) && i < |s.runs| && MainStep(c, s, e).Some? && LeaseLost(s, i) && !Overtaken(s, i)
    ensures var s' := MainStep(c, s, e).value; LeaseLost(s', i) && !Overtaken(s', i)
  {
    hide StartedAmong, Alive, Popped, GiveBackStep, DispatchStep, WatchStep, NoteStep, KillStep;
    if s.main.MWalk? {
      GiveBackLeavesLoss(c, s, e, i);
      DispatchLeavesLoss(c, s, e, i);
      WatchLeavesLoss(s, e, i);
      KillLeavesLoss(s, e, i);
    }
  }

  predicate LossKept(s: State, r: Option<State>, i: nat)
    requires Valid(s) && i < |s.runs|
  {
    r.Some? ==> Valid(r.value) && i < |r.value.runs| && LeaseLost(r.value, i) && !Overtaken(r.value, i)
  }

  lemma GiveBackLeavesLoss(c: Config, s: State, e: MainEvent, i: nat)
    requires Valid(s) && i < |s.runs| && s.main.MWalk? && LeaseLost(s, i) && !Overtaken(s, i)
    ensures LossKept(s, GiveBackStep(c, s, e), i)
  {
    hide Popped, EndStep;
    if s.main.at.Releasing? {
      var t := s.runs[s.main.held[s.main.k]];
      EndLeavesStop(t.task, t.sh, s.main.at.end);
    }
  }

  lemma DispatchLeavesLoss(c: Config, s: State, e: MainEvent, i: nat)
    requires Valid(s) && i < |s.runs| && s.main.MWalk? && LeaseLost(s, i) && !Overtaken(s, i)
    ensures LossKept(s, DispatchStep(c, s, e), i)
  {
  }

  lemma WatchLeavesLoss(s: State, e: MainEvent, i: nat)
    requires Valid(s) && i < |s.runs| && s.main.MWalk? && LeaseLost(s, i) && !Overtaken(s, i)
    ensures LossKept(s, WatchStep(s, e), i) && LossKept(s, NoteStep(s, e), i)
  {
  }

  lemma KillLeavesLoss(s: State, e: MainEvent, i: nat)
    requires Valid(s) && i < |s.runs| && s.main.MWalk? && LeaseLost(s, i) && !Overtaken(s, i)
    ensures LossKept(s, KillStep(s, e), i)
  {
    hide Popped, EndStep;
    if s.main.at.Killing? {
      var t := s.runs[s.main.held[s.main.k]];
      EndLeavesStop(t.task, t.sh, s.main.at.end);
    }
  }

  /** Exactly when something is said of a claim whose lease is lost: unless it was before, if and only if a
      thread still has an outcome to report or a task to give back, and comes first. */
  lemma {:induction false} LostFrom(c: Config, s: State, schedule: seq<Action>, i: nat, overtaken: bool)
    requires Valid(s) && RunsInv(s) && i < |s.runs| && Execute(c, s, schedule).Some?
    requires overtaken || (LeaseLost(s, i) && !Overtaken(s, i))
    ensures var s' := Execute(c, s, schedule).value;
            && i < |s'.runs|
            && (Words(s', i) >= 1 <==> Words(s, i) >= 1 || SpeaksIn(c, s, schedule, i, overtaken))
    decreases |schedule|
  {
    hide Step, RunsInv, Words, Overtaken;
    if schedule != [] {
      var s1 := Step(c, s, schedule[0]).value;
      StepKeepsRuns(c, s, schedule[0]);
      StepWords(c, s, schedule[0], i);
      if !overtaken {
        LossStays(c, s, schedule[0], i);
        NotCancelled(s, schedule[0], i);
      }
      LostFrom(c, s1, schedule[1..], i, overtaken);
    }
  }

  lemma NotCancelled(s: State, a: Action, i: nat)
    requires Valid(s) && i < |s.runs| && !Overtaken(s, i)
    ensures Speaks(s, a, i, false) <==> Speaks(s, a, i, true)
  {
  }

  lemma LostLease(c: Config, before: seq<Action>, s: State, after: seq<Action>, s': State, i: nat)
    requires Reaches(c, before, s) && i < |s.runs| && LeaseLost(s, i) && Execute(c, s, after) == Some(s')
    ensures i < |s'.runs| && Words(s', i) <= 1
    ensures Words(s', i) == 1 <==> Words(s, i) == 1 || SpeaksIn(c, s, after, i, Overtaken(s, i))
  {
    hide Words, RunsInv, SpeaksIn, Overtaken;
    ReachedInv(c, before, s);
    LostFrom(c, s, after, i, Overtaken(s, i));
    OneWord(c, s, i);
    ExecuteKeepsRuns(c, s, after);
    OneWord(c, s', i);
  }

  lemma OneWord(c: Config, s: State, i: nat)
    requires Valid(s) && RunsInv(s) && i < |s.runs|
    ensures Words(s, i) <= 1
  {
    assert RunInv(s.runs[i], RoleIn(s.main, i), Ceasing(s));
  }

  lemma {:induction false} ExecuteKeepsRuns(c: Config, s: State, schedule: seq<Action>)
    requires Valid(s) && RunsInv(s) && Execute(c, s, schedule).Some?
    ensures RunsInv(Execute(c, s, schedule).value)
    decreases |schedule|
  {
    hide Step, RunsInv;
    if schedule != [] {
      StepKeepsRuns(c, s, schedule[0]);
      ExecuteKeepsRuns(c, Step(c, s, schedule[0]).value, schedule[1..]);
    }
  }

  // -- what led to it --------------------------------------------------------------------------------

  /** No thread is ending run i with something to say. */
  predicate Undecided(s: State, i: nat)
    requires Valid(s) && i < |s.runs|
  {
    var t := s.runs[i];
    !t.prep.PEnd? && (t.exec.XEnd? ==> t.exec.end.Close? || t.exec.end.Pop?) && RoleIn(s.main, i).NoRole?
  }

  /** What can give a claim its ending: its handler finishes, or raises on being stopped; the task is refused or
      its start not accepted; the main loop gives up on it, or gives it back before it starts. */
  datatype Cause =
    | Finished(outcome: Outcome) | Raised | Refused | NotAccepted | GaveUp(cancelled: bool) | GivenBack

  /** The prepare thread's look finds something against the task. */
  predicate IsRefused(t: Run, e: PrepEvent) {
    e.Refuses? && (t.prep.PStart? || t.prep.PClosed? || (t.prep.PStopped? && t.sh.stop.Going?))
  }

  /** What the execute thread hears of the start and of the handler. */
  function Ended(t: Run, e: ExecEvent): Option<Cause> {
    if t.exec.XStart? && e.NotStarted? then Some(NotAccepted)
    else if t.exec.XBody? && e.Finishes? then Some(Finished(e.outcome))
    else if t.exec.XBody? && e.Raises? then Some(Raised)
    else None
  }

  function CauseOf(s: State, a: Action, i: nat): Option<Cause>
    requires Valid(s)
  {
    if i >= |s.runs| then None
    else
      var t := s.runs[i];
      match a
      case Main(e) =>
        if !s.main.MWalk? || s.main.k >= |s.main.held| || s.main.held[s.main.k] != i then None
        else if s.main.at.Overdue? && t.sh.stopAt && e.Happens? then
          Some(GaveUp(t.sh.stop == Stopped(Cancelled) || t.sh.stop == Stopped(Lost)))
        else if s.main.at.Giving? && !t.sh.started then Some(GivenBack)
        else None
      case Prep(j, e) => if j == i && IsRefused(t, e) then Some(Refused) else None
      case Exec(j, e) => if j == i then Ended(t, e) else None
      case Beat(_, _) => None
  }

  /** Any of them but a handler that stops. */
  predicate Causes(s: State, a: Action, i: nat)
    requires Valid(s)
  {
    var cause := CauseOf(s, a, i);
    cause.Some? && !cause.value.Raised?
  }

  predicate CausedIn(c: Config, s: State, schedule: seq<Action>, i: nat)
    requires Valid(s) && i < |s.runs|
    decreases |schedule|
  {
    schedule != [] && Step(c, s, schedule[0]).Some?
    && (Causes(s, schedule[0], i) || CausedIn(c, Step(c, s, schedule[0]).value, schedule[1..], i))
  }

  lemma ThreadDecides(c: Config, s: State, a: Action, i: nat)
    requires Valid(s) && i < |s.runs| && !a.Main? && Step(c, s, a).Some? && LeaseLost(s, i) && !Overtaken(s, i) && Undecided(s, i)
    ensures var s' := Step(c, s, a).value; Undecided(s', i) <==> !Causes(s, a, i)
  {
    hide Popped, BeatStep, PrepStep, ExecStep;
    if a.i == i {
      match a {
        case Beat(_, reply) =>
        case Prep(_, e) => PrepDecides(s.runs[i], e);
        case Exec(_, e) => ExecDecides(s.runs[i], e);
        case Main(_) =>
      }
    }
  }

  lemma PrepDecides(t: Run, e: PrepEvent)
    requires PrepStep(t.task, t.sh, t.prep, e).Some? && t.sh.stop == Stopped(Lost) && !t.prep.PEnd?
    ensures PrepStep(t.task, t.sh, t.prep, e).value.1.PEnd? <==> e.Refuses? && (t.prep.PStart? || t.prep.PClosed?)
  {
    hide EndStep;
  }

  lemma ExecDecides(t: Run, e: ExecEvent)
    requires ExecStep(t.task, t.sh, t.exec, e).Some? && t.sh.stop == Stopped(Lost) && !Late(t)
    requires t.exec.XEnd? ==> t.exec.end.Close? || t.exec.end.Pop?
    ensures var pc := ExecStep(t.task, t.sh, t.exec, e).value.1;
            (pc.XEnd? ==> pc.end.Close? || pc.end.Pop?)
            <==> !((t.exec.XStart? && e.NotStarted?) || (t.exec.XBody? && e.Finishes?))
  {
  }

  /** What a step of the main loop makes of run i when it is not ending it. */
  predicate MainDecides(s: State, s': State, e: MainEvent, i: nat)
    requires Valid(s) && Valid(s') && i < |s.runs| <= |s'.runs|
  {
    && s'.runs[i].prep == s.runs[i].prep && (s'.runs[i].exec == s.runs[i].exec || s'.runs[i].exec == XStart)
    && (RoleIn(s'.main, i).NoRole? <==> !Causes(s, Main(e), i))
  }

  lemma TopDecides(c: Config, s: State, e: MainEvent, i: nat)
    requires Valid(s) && i < |s.runs| && !s.main.MWalk? && MainStep(c, s, e).Some?
    ensures MainDecides(s, MainStep(c, s, e).value, e, i)
  {
    hide StartedAmong, Alive;
  }

  lemma GiveBackDecides(c: Config, s: State, e: MainEvent, i: nat)
    requires Valid(s) && i < |s.runs| && s.main.MWalk? && RoleIn(s.main, i).NoRole? && GiveBackStep(c, s, e).Some?
    ensures MainDecides(s, GiveBackStep(c, s, e).value, e, i)
  {
    hide Popped, EndStep;
  }

  lemma DispatchDecides(c: Config, s: State, e: MainEvent, i: nat)
    requires Valid(s) && i < |s.runs| && s.main.MWalk? && DispatchStep(c, s, e).Some?
    ensures MainDecides(s, DispatchStep(c, s, e).value, e, i)
  {
  }

  lemma WatchDecides(s: State, e: MainEvent, i: nat)
    requires Valid(s) && i < |s.runs| && s.main.MWalk?
    ensures WatchStep(s, e).Some? ==> MainDecides(s, WatchStep(s, e).value, e, i)
    ensures NoteStep(s, e).Some? ==> MainDecides(s, NoteStep(s, e).value, e, i)
  {
  }

  lemma KillDecides(s: State, e: MainEvent, i: nat)
    requires Valid(s) && i < |s.runs| && s.main.MWalk? && RoleIn(s.main, i).NoRole? && KillStep(s, e).Some?
    ensures MainDecides(s, KillStep(s, e).value, e, i)
  {
    hide Popped, EndStep;
  }

  lemma MainStepDecides(c: Config, s: State, e: MainEvent, i: nat)
    requires Valid(s) && i < |s.runs| && RoleIn(s.main, i).NoRole? && MainStep(c, s, e).Some?
    ensures MainDecides(s, MainStep(c, s, e).value, e, i)
  {
    hide MainDecides, GiveBackStep, DispatchStep, WatchStep, NoteStep, KillStep;
    if !s.main.MWalk? {
      TopDecides(c, s, e, i);
    } else if s.main.at.Deciding? || s.main.at.Giving? || s.main.at.Releasing? {
      GiveBackDecides(c, s, e, i);
    } else if DispatchingNow(s.main) {
      DispatchDecides(c, s, e, i);
    } else if s.main.at.Overdue? || s.main.at.Killing? {
      KillDecides(s, e, i);
    } else {
      WatchDecides(s, e, i);
    }
  }

  lemma StepDecides(c: Config, s: State, a: Action, i: nat)
    requires Valid(s) && RunsInv(s) && i < |s.runs| && Step(c, s, a).Some? && LeaseLost(s, i) && !Overtaken(s, i) && Undecided(s, i)
    ensures Undecided(Step(c, s, a).value, i) <==> !Causes(s, a, i)
  {
    hide MainStep, ThreadStep, RunsInv;
    if a.Main? { MainStepDecides(c, s, a.event, i); } else { ThreadDecides(c, s, a, i); }
  }

  lemma UndecidedIsSilent(s: State, a: Action, i: nat)
    requires Valid(s) && i < |s.runs| && Undecided(s, i)
    ensures !Speaks(s, a, i, true)
  {
  }

  lemma {:induction false} SilentUnlessCaused(c: Config, s: State, schedule: seq<Action>, i: nat)
    requires Valid(s) && RunsInv(s) && i < |s.runs| && Execute(c, s, schedule).Some?
    requires LeaseLost(s, i) && !Overtaken(s, i) && Undecided(s, i) && !CausedIn(c, s, schedule, i)
    ensures var s' := Execute(c, s, schedule).value; i < |s'.runs| && Words(s', i) == Words(s, i)
    decreases |schedule|
  {
    hide Step, RunsInv, Words, Overtaken, Undecided, Causes;
    if schedule != [] {
      StepKeepsRuns(c, s, schedule[0]);
      StepWords(c, s, schedule[0], i);
      UndecidedIsSilent(s, schedule[0], i);
      LossStays(c, s, schedule[0], i);
      StepDecides(c, s, schedule[0], i);
      SilentUnlessCaused(c, Step(c, s, schedule[0]).value, schedule[1..], i);
    }
  }

  /** Once its lease is lost nothing is said of a claim that no thread is ending yet, unless it is refused, its
      start is not accepted, its handler returns or fails, the loop gives up on it or gives it back. */
  lemma SaidOnlyWhenCaused(c: Config, before: seq<Action>, s: State, after: seq<Action>, s': State, i: nat)
    requires Reaches(c, before, s) && i < |s.runs| && LeaseLost(s, i) && Execute(c, s, after) == Some(s')
    requires !Overtaken(s, i) && Undecided(s, i)
    ensures i < |s'.runs| && (CausedIn(c, s, after, i) || Words(s', i) == Words(s, i))
  {
    hide Words, RunsInv, Overtaken, Undecided, CausedIn;
    ReachedInv(c, before, s);
    LostFrom(c, s, after, i, false);
    if !CausedIn(c, s, after, i) { SilentUnlessCaused(c, s, after, i); }
  }

  // -- a report after the loss ---------------------------------------------------------------------

  const Ran: Run := Prepared.(sh := Prepared.sh.(started := true), exec := XBody)

  lemma RunningOne() returns (p: seq<Action>, s: State)
    ensures Valid(s) && Reaches(One, p, s) && s == State([Ran], [0], MWatchSnap, false, false, 1)
  {
    hide Reaches, Execute;
    p, s := PreparedOne();
    assert StartedAmong(s.runs, s.tasks) == {};
    p, s := Then(One, p, s, Main(Quiet));
    p, s := Then(One, p, s, Main(Quiet));
    p, s := Then(One, p, s, Main(Quiet));
    p, s := MarkedAndLeft(p, s);
  }

  lemma MarkedAndLeft(p0: seq<Action>, s0: State) returns (p: seq<Action>, s: State)
    requires Valid(s0) && Reaches(One, p0, s0) && s0 == State([Prepared], [0], MWalk([0], 0, Marking(0)), false, false, 1)
    ensures Valid(s) && Reaches(One, p, s) && s == State([Ran], [0], MWatchSnap, false, false, 1)
  {
    hide Reaches, Execute;
    p, s := Then(One, p0, s0, Main(Quiet));
    p, s := Then(One, p, s, Main(Quiet));
    p, s := Then(One, p, s, Exec(0, Accepted));
  }

  const LostIt: Run := Ran.(sh := Ran.sh.(gone := true, stop := Stopped(Lost)), beat := BDecide)

  lemma LosesIt() returns (p: seq<Action>, s: State)
    ensures Valid(s) && Reaches(One, p, s) && s == State([LostIt], [0], MWatchSnap, false, false, 1)
  {
    hide Reaches, Execute;
    p, s := RunningOne();
    p, s := Then(One, p, s, Beat(0, StillOurs));
    p, s := Then(One, p, s, Beat(0, Says(Lost)));
    p, s := Then(One, p, s, Beat(0, StillOurs));
    p, s := Then(One, p, s, Beat(0, StillOurs));
  }

  /** A handler that returns after its last look is reported as done, its lease lost and nothing broken. */
  lemma LostButReported() returns (p: seq<Action>, s: State)
    ensures Valid(s) && Reaches(One, p, s) && !s.broken
    ensures |s.runs| == 1 && LeaseLost(s, 0) && s.runs[0].sh.sent == [Done(Succeeded)]
  {
    hide Reaches, Execute;
    p, s := LosesIt();
    p, s := Then(One, p, s, Exec(0, Finishes(Succeeded)));
    p, s := Then(One, p, s, Exec(0, Raises));
    p, s := Then(One, p, s, Exec(0, Raises));
  }

  // -- who leaves `tasks` with its handler running -------------------------------------------------

  /** The runs whose own beat thread took them out of `tasks`. */
  function DroppedIn(c: Config, s: State, schedule: seq<Action>): set<nat>
    requires Valid(s)
    decreases |schedule|
  {
    if schedule == [] || Step(c, s, schedule[0]).None? then {}
    else
      var a := schedule[0];
      (if a.Beat? && a.i < |s.runs| && s.runs[a.i].beat == BEnd(Pop) then {a.i} else {})
      + DroppedIn(c, Step(c, s, a).value, schedule[1..])
  }

  /** The run's handler has returned, can never start, or the worker is broken. */
  predicate Past(t: Run, ceasing: bool, broken: bool) {
    t.exec.XDone? || (t.prep.PDone? && !t.sh.ready) || (ceasing && !t.sh.started) || broken
  }

  predicate Accounted(s: State, dropped: set<nat>)
    requires Valid(s)
  {
    forall i :: 0 <= i < |s.runs| ==> i in s.tasks || i in dropped || Past(s.runs[i], Ceasing(s), s.broken)
  }

  lemma ThreadPast(t: Run, a: Action, ceasing: bool, broken: bool)
    requires ThreadStep(t, a).Some? && Past(t, ceasing, broken)
    ensures Past(ThreadStep(t, a).value.0, ceasing, broken)
  {
    hide BeatStep, PrepStep, ExecStep;
    match a {
      case Beat(_, reply) => BeatLeavesFlags(t, reply);
      case Prep(_, e) => PrepLeavesFlags(t, e);
      case Exec(_, e) => ExecLeavesFlags(t, e);
      case Main(_) =>
    }
  }

  predicate SameFlags(sh: Shared, sh': Shared) { sh'.started == sh.started && sh'.ready == sh.ready }

  lemma EndLeavesFlags(o: Offer, sh: Shared, e: End)
    ensures SameFlags(sh, EndStep(o, sh, e).0)
  {
  }

  lemma BeatLeavesFlags(t: Run, reply: BeatReply)
    requires BeatStep(t.task, t.sh, t.beat, reply).Some?
    ensures SameFlags(t.sh, BeatStep(t.task, t.sh, t.beat, reply).value.0)
  {
    hide EndStep;
    if t.beat.BEnd? { EndLeavesFlags(t.task, t.sh, t.beat.end); }
  }

  lemma PrepLeavesFlags(t: Run, e: PrepEvent)
    requires PrepStep(t.task, t.sh, t.prep, e).Some?
    ensures var (sh, pc) := PrepStep(t.task, t.sh, t.prep, e).value;
            sh.started == t.sh.started && !t.prep.PDone? && (!t.prep.PReady? ==> SameFlags(t.sh, sh))
  {
    hide EndStep;
    if t.prep.PEnd? { EndLeavesFlags(t.task, t.sh, t.prep.end); }
  }

  lemma ExecLeavesFlags(t: Run, e: ExecEvent)
    requires ExecStep(t.task, t.sh, t.exec, e).Some?
    ensures SameFlags(t.sh, ExecStep(t.task, t.sh, t.exec, e).value.0) && !t.exec.XDone?
  {
    hide EndStep;
    if t.exec.XEnd? { EndLeavesFlags(t.task, t.sh, t.exec.end); }
  }

  /** A thread of the run itself takes it out of `tasks`. */
  lemma PopPast(t: Run, a: Action, r: Role, stopping: bool, ceasing: bool, broken: bool)
    requires ThreadStep(t, a).Some? && ThreadStep(t, a).value.1 && RunInv(t, r, stopping)
    ensures (a.Beat? && t.beat == BEnd(Pop)) || Past(ThreadStep(t, a).value.0, ceasing, broken)
  {
    hide SaysRight;
  }

  lemma ThreadAccounts(c: Config, s: State, a: Action, dropped: set<nat>)
    requires Valid(s) && RunsInv(s) && !a.Main? && Step(c, s, a).Some? && DistinctIds(s) && Accounted(s, dropped)
    ensures Accounted(Step(c, s, a).value, dropped + if a.Beat? && s.runs[a.i].beat == BEnd(Pop) then {a.i} else {})
  {
    hide Past, ThreadStep, RunInv;
    var t := s.runs[a.i];
    var (t', pops) := ThreadStep(t, a).value;
    assert RunInv(t, RoleIn(s.main, a.i), Ceasing(s));
    if pops { PopPast(t, a, RoleIn(s.main, a.i), Ceasing(s), Ceasing(s), s.broken); }
    if Past(t, Ceasing(s), s.broken) { ThreadPast(t, a, Ceasing(s), s.broken); }
    ThreadTask(t, a);
  }

  lemma ThreadTask(t: Run, a: Action)
    requires ThreadStep(t, a).Some?
    ensures ThreadStep(t, a).value.0.task == t.task
  {
  }

  /** What a step of the main loop leaves of a run and of `tasks`. */
  predicate MainLeaves(s: State, s': State, i: nat)
    requires Valid(s) && Valid(s') && i < |s.runs| <= |s'.runs|
  {
    var t, t' := s.runs[i], s'.runs[i];
    && t'.prep == t.prep && t'.sh.ready == t.sh.ready
    && (t' == t.(sh := t'.sh) || (t.exec.XNone? && t'.exec == XStart))
    && (Ceasing(s) ==> t'.sh.started == t.sh.started && Ceasing(s'))
    && (s.broken ==> s'.broken)
    && (i in s.tasks && i !in s'.tasks ==> s'.broken || (Ceasing(s') && !t'.sh.started))
  }

  lemma EndLeaves(s: State, s': State, i: nat)
    requires Valid(s) && RunsInv(s) && DistinctIds(s) && s.main.MWalk? && (s.main.at.Releasing? || s.main.at.Killing?)
    requires Valid(s') && i < |s.runs| && s'.draining == s.draining && (s.broken ==> s'.broken)
    requires var s1 := MainEnd(s, s.main.held[s.main.k], s.main.at.end).0; s'.runs == s1.runs && s'.tasks == s1.tasks
    ensures MainLeaves(s, s', i)
  {
    hide RunInv, HeldInv, Popped;
    var h := s.main.held[s.main.k];
    assert RunInv(s.runs[h], RoleIn(s.main, h), Ceasing(s));
    assert HeldInv(s.runs[h], RoleIn(s.main, h), h in s.tasks, s.broken);
    if s.main.at.end.Pop? { EnderPops(s.runs[h], RoleIn(s.main, h), Ceasing(s), h in s.tasks, s.broken); }
  }

  lemma EnderPops(t: Run, r: Role, stopping: bool, held: bool, broken: bool)
    requires RunInv(t, r, stopping) && HeldInv(t, r, held, broken) && !r.NoRole? && r.end.Pop?
    ensures broken || (stopping && !t.sh.started)
  {
  }

  lemma GiveBackLeaves(c: Config, s: State, e: MainEvent, i: nat)
    requires Valid(s) && RunsInv(s) && DistinctIds(s) && s.main.MWalk? && GiveBackStep(c, s, e).Some? && i < |s.runs|
    ensures MainLeaves(s, GiveBackStep(c, s, e).value, i)
  {
    hide RunsInv, DistinctIds, Popped, EndStep;
    if s.main.at.Releasing? { EndLeaves(s, GiveBackStep(c, s, e).value, i); }
  }

  lemma DispatchLeaves(c: Config, s: State, e: MainEvent, i: nat)
    requires Valid(s) && RunsInv(s) && s.main.MWalk? && DispatchStep(c, s, e).Some? && i < |s.runs|
    ensures MainLeaves(s, DispatchStep(c, s, e).value, i)
  {
    hide BeatOk, PrepOk, RoleOk, EndedOnce, SaysRight, OnlyStopping, HeldInv;
    if s.main.at.Marking? {
      var h := s.main.held[s.main.k];
      assert RunInv(s.runs[h], RoleIn(s.main, h), Ceasing(s));
    }
  }

  lemma WatchLeaves(s: State, e: MainEvent, i: nat)
    requires Valid(s) && s.main.MWalk? && i < |s.runs|
    ensures WatchStep(s, e).Some? ==> MainLeaves(s, WatchStep(s, e).value, i)
    ensures NoteStep(s, e).Some? ==> MainLeaves(s, NoteStep(s, e).value, i)
  {
  }

  lemma KillLeaves(s: State, e: MainEvent, i: nat)
    requires Valid(s) && RunsInv(s) && DistinctIds(s) && s.main.MWalk? && KillStep(s, e).Some? && i < |s.runs|
    ensures MainLeaves(s, KillStep(s, e).value, i)
  {
    hide RunsInv, DistinctIds, Popped, EndStep;
    if s.main.at.Killing? { EndLeaves(s, KillStep(s, e).value, i); }
  }

  lemma TopLeaves(c: Config, s: State, e: MainEvent, i: nat)
    requires Valid(s) && !s.main.MWalk? && MainStep(c, s, e).Some? && i < |s.runs|
    ensures MainLeaves(s, MainStep(c, s, e).value, i)
  {
    hide StartedAmong, Alive;
  }

  lemma MainStepLeaves(c: Config, s: State, e: MainEvent, i: nat)
    requires Valid(s) && RunsInv(s) && DistinctIds(s) && MainStep(c, s, e).Some? && i < |s.runs|
    ensures MainLeaves(s, MainStep(c, s, e).value, i)
  {
    hide RunsInv, DistinctIds, MainLeaves, GiveBackStep, DispatchStep, WatchStep, NoteStep, KillStep;
    if !s.main.MWalk? {
      TopLeaves(c, s, e, i);
    } else if s.main.at.Deciding? || s.main.at.Giving? || s.main.at.Releasing? {
      GiveBackLeaves(c, s, e, i);
    } else if DispatchingNow(s.main) {
      DispatchLeaves(c, s, e, i);
    } else if s.main.at.Overdue? || s.main.at.Killing? {
      KillLeaves(s, e, i);
    } else {
      WatchLeaves(s, e, i);
    }
  }

  lemma MainAccounts(c: Config, s: State, e: MainEvent, dropped: set<nat>)
    requires Valid(s) && RunsInv(s) && DistinctIds(s) && MainStep(c, s, e).Some? && Accounted(s, dropped)
    ensures Accounted(MainStep(c, s, e).value, dropped)
  {
    hide RunsInv, DistinctIds, MainStep;
    var s' := MainStep(c, s, e).value;
    StepShape(c, s, Main(e));
    forall i | 0 <= i < |s'.runs| ensures i in s'.tasks || i in dropped || Past(s'.runs[i], Ceasing(s'), s'.broken) {
      if i < |s.runs| {
        MainStepLeaves(c, s, e, i);
      } else {
        NewIsHeld(c, s, e);
      }
    }
  }

  lemma NewIsHeld(c: Config, s: State, e: MainEvent)
    requires Valid(s) && MainStep(c, s, e).Some? && |MainStep(c, s, e).value.runs| > |s.runs|
    ensures var s' := MainStep(c, s, e).value; |s'.runs| == |s.runs| + 1 && |s.runs| in s'.tasks
  {
    hide StartedAmong, Alive, Popped, EndStep;
  }

  lemma {:induction false} DistinctBefore(c: Config, s: State, schedule: seq<Action>)
    requires Valid(s) && RunsInv(s) && Execute(c, s, schedule).Some? && DistinctIds(Execute(c, s, schedule).value)
    ensures DistinctIds(s)
    decreases |schedule|
  {
    hide RunsInv, Step;
    if schedule != [] {
      var s1 := Step(c, s, schedule[0]).value;
      StepKeepsRuns(c, s, schedule[0]);
      StepShape(c, s, schedule[0]);
      DistinctBefore(c, s1, schedule[1..]);
      assert forall i :: 0 <= i < |s.runs| ==> s.runs[i].task == s1.runs[i].task;
    }
  }

  lemma {:induction false} ExecuteAccounts(c: Config, s: State, schedule: seq<Action>, dropped: set<nat>)
    requires Valid(s) && RunsInv(s) && Execute(c, s, schedule).Some? && DistinctIds(Execute(c, s, schedule).value)
    requires Accounted(s, dropped)
    ensures Accounted(Execute(c, s, schedule).value, dropped + DroppedIn(c, s, schedule))
    decreases |schedule|
  {
    hide RunsInv, MainStep, ThreadStep, DistinctIds, Accounted;
    if schedule == [] {
      assert dropped + {} == dropped;
    } else {
      var a := schedule[0];
      var s1 := Step(c, s, a).value;
      DistinctBefore(c, s, schedule);
      StepKeepsRuns(c, s, a);
      var now := if a.Beat? && s.runs[a.i].beat == BEnd(Pop) then {a.i} else {};
      if a.Main? {
        MainAccounts(c, s, a.event, dropped);
        assert dropped + now == dropped;
      } else {
        ThreadAccounts(c, s, a, dropped);
      }
      ExecuteAccounts(c, s1, schedule[1..], dropped + now);
      assert dropped + now + DroppedIn(c, s1, schedule[1..]) == dropped + DroppedIn(c, s, schedule);
    }
  }

  /** What is out of `tasks` stays out. */
  lemma {:induction false} OutStaysOut(c: Config, s: State, schedule: seq<Action>, i: nat)
    requires Valid(s) && RunsInv(s) && Execute(c, s, schedule).Some? && i < |s.runs| && i !in s.tasks
    ensures i !in Execute(c, s, schedule).value.tasks
    decreases |schedule|
  {
    hide RunsInv, Step;
    if schedule != [] {
      StepKeepsRuns(c, s, schedule[0]);
      StepShape(c, s, schedule[0]);
      OutStaysOut(c, Step(c, s, schedule[0]).value, schedule[1..], i);
    }
  }

  lemma DropTakesOut(c: Config, s: State, a: Action)
    requires Valid(s) && a.Beat? && a.i < |s.runs| && s.runs[a.i].beat == BEnd(Pop) && Step(c, s, a).Some?
    ensures a.i !in Step(c, s, a).value.tasks && |Step(c, s, a).value.runs| == |s.runs|
  {
    ThreadTask(s.runs[a.i], a);
    hide Popped;
  }

  lemma {:induction false} DroppedIsOut(c: Config, s: State, schedule: seq<Action>, i: nat)
    requires Valid(s) && RunsInv(s) && Execute(c, s, schedule).Some? && i in DroppedIn(c, s, schedule)
    ensures i !in Execute(c, s, schedule).value.tasks
    decreases |schedule|
  {
    hide RunsInv, MainStep, ThreadStep;
    var a := schedule[0];
    StepKeepsRuns(c, s, a);
    if a.Beat? && a.i == i && s.runs[i].beat == BEnd(Pop) {
      DropTakesOut(c, s, a);
      OutStaysOut(c, Step(c, s, a).value, schedule[1..], i);
    } else {
      DroppedIsOut(c, Step(c, s, a).value, schedule[1..], i);
    }
  }

  /** With distinct ids and the worker not broken, an executing claim is no longer held exactly when its own
      beat thread dropped it. */
  lemma OutByItsOwnDrop(c: Config, schedule: seq<Action>, s: State, i: nat)
    requires Reaches(c, schedule, s) && DistinctIds(s) && !s.broken && i in ExecutingNow(s)
    ensures i !in s.tasks <==> i in DroppedIn(c, Init, schedule)
  {
    ReachedInv(c, schedule, s);
    ExecuteAccounts(c, Init, schedule, {});
    assert RunInv(s.runs[i], RoleIn(s.main, i), Ceasing(s));
    if i in DroppedIn(c, Init, schedule) { DroppedIsOut(c, Init, schedule, i); }
  }

  /** Unless a handler refused to stop, more than `capacity` execute only by those the drop of their own beat
      thread took out of `tasks`. */
  lemma CapacityButForDrops(c: Config, schedule: seq<Action>, s: State)
    requires Reaches(c, schedule, s) && DistinctIds(s) && !s.broken
    ensures |ExecutingNow(s) - DroppedIn(c, Init, schedule)| <= c.capacity
  {
    ReachedInv(c, schedule, s);
    var counted := ExecutingNow(s) - DroppedIn(c, Init, schedule);
    forall i | i in counted ensures i in StartedAmong(s.runs, s.tasks) {
      OutByItsOwnDrop(c, schedule, s, i);
      assert RunInv(s.runs[i], RoleIn(s.main, i), Ceasing(s));
    }
    SubsetSize(counted, StartedAmong(s.runs, s.tasks));
  }
}

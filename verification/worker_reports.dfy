/** What a claim's message says: which outcome is reported, and why one is given back. */
module WorkerReports {
  import opened Options
  import opened WorkerLoop
  import opened WorkerSafety
  import opened WorkerTraces

  /** What has been done to run i along a schedule that could give it an ending. */
  function CausesIn(c: Config, s: State, schedule: seq<Action>, i: nat): set<Cause>
    requires Valid(s)
    decreases |schedule|
  {
    if schedule == [] || Step(c, s, schedule[0]).None? then {}
    else Now(s, schedule[0], i) + CausesIn(c, Step(c, s, schedule[0]).value, schedule[1..], i)
  }

  function Now(s: State, a: Action, i: nat): set<Cause>
    requires Valid(s)
  {
    if CauseOf(s, a, i).Some? then {CauseOf(s, a, i).value} else {}
  }

  /** A success is the handler's; so is a failure, unless it is retryable and the loop gave up on it; a
      cancellation is a handler that stopped, or one given up after a cancel or a loss. */
  predicate OutcomeKnown(o: Outcome, known: set<Cause>) {
    match o
    case Succeeded => Finished(Succeeded) in known
    case Failed(r) => Finished(Failed(r)) in known || (r && GaveUp(false) in known)
    case WasCancelled => Raised in known || GaveUp(true) in known
  }

  predicate BackKnown(known: set<Cause>) { NotAccepted in known || Refused in known || GivenBack in known }

  /** Given back is what was not accepted, refused or not started, and a failure its app runs itself. */
  predicate MessageKnown(fallback: bool, m: Message, known: set<Cause>) {
    match m
    case Done(o) => OutcomeKnown(o, known) && !(fallback && o.Failed?)
    case Release =>
      BackKnown(known) || (fallback && (OutcomeKnown(Failed(true), known) || OutcomeKnown(Failed(false), known)))
  }

  predicate EndKnown(fallback: bool, e: End, known: set<Cause>) {
    match e
    case TryRelease => BackKnown(known)
    case TryReport(o) => OutcomeKnown(o, known)
    case Send(m) => MessageKnown(fallback, m, known)
    case _ => true
  }

  predicate SentKnown(fallback: bool, sent: seq<Message>, known: set<Cause>) {
    forall m <- sent :: MessageKnown(fallback, m, known)
  }

  /** The handler was told to stop and did. */
  predicate Stops(pc: ExecPc) { pc.XCancel? || pc.XCancelRead? || pc.XCancelWrite? }

  predicate RunKnown(t: Run, r: Role, known: set<Cause>) {
    && SentKnown(t.task.fallback, t.sh.sent, known)
    && EndKnown(t.task.fallback, PrepEnd(t.prep), known)
    && EndKnown(t.task.fallback, ExecEnd(t.exec), known)
    && EndKnown(t.task.fallback, RoleEnd(r), known)
    && (Stops(t.exec) ==> Raised in known)
  }

  lemma EndMore(fallback: bool, e: End, known: set<Cause>, more: set<Cause>)
    requires EndKnown(fallback, e, known) && known <= more
    ensures EndKnown(fallback, e, more)
  {
  }

  lemma SentMore(fallback: bool, sent: seq<Message>, known: set<Cause>, more: set<Cause>)
    requires SentKnown(fallback, sent, known) && known <= more
    ensures SentKnown(fallback, sent, more)
  {
    forall m | m in sent ensures MessageKnown(fallback, m, more) { assert MessageKnown(fallback, m, known); }
  }

  lemma RunMore(t: Run, r: Role, known: set<Cause>, more: set<Cause>)
    requires RunKnown(t, r, known) && known <= more
    ensures RunKnown(t, r, more)
  {
    hide EndKnown, SentKnown;
    SentMore(t.task.fallback, t.sh.sent, known, more);
    EndMore(t.task.fallback, PrepEnd(t.prep), known, more);
    EndMore(t.task.fallback, ExecEnd(t.exec), known, more);
    EndMore(t.task.fallback, RoleEnd(r), known, more);
  }

  /** A step of the ending code says what it is known to say. */
  lemma EndKnows(o: Offer, sh: Shared, e: End, known: set<Cause>)
    requires SentKnown(o.fallback, sh.sent, known) && EndKnown(o.fallback, e, known)
    ensures var (sh', e') := EndStep(o, sh, e);
            SentKnown(o.fallback, sh'.sent, known) && EndKnown(o.fallback, e', known)
  {
  }

  lemma BeatKnows(t: Run, reply: BeatReply, r: Role, known: set<Cause>)
    requires RunKnown(t, r, known) && BeatOk(t.sh, t.beat) && BeatStep(t.task, t.sh, t.beat, reply).Some?
    ensures var (sh, pc) := BeatStep(t.task, t.sh, t.beat, reply).value; RunKnown(t.(sh := sh, beat := pc), r, known)
  {
    BeatWords(t, reply);
    hide BeatStep, EndKnown, SentKnown;
  }

  lemma PrepKnows(t: Run, e: PrepEvent, r: Role, known: set<Cause>)
    requires RunKnown(t, r, known) && PrepStep(t.task, t.sh, t.prep, e).Some?
    requires IsRefused(t, e) ==> Refused in known
    ensures var (sh, pc) := PrepStep(t.task, t.sh, t.prep, e).value; RunKnown(t.(sh := sh, prep := pc), r, known)
  {
    hide EndStep, SentKnown, MessageKnown, OutcomeKnown;
    if t.prep.PEnd? { EndKnows(t.task, t.sh, t.prep.end, known); }
  }

  lemma ExecKnows(t: Run, e: ExecEvent, r: Role, known: set<Cause>)
    requires RunKnown(t, r, known) && ExecStep(t.task, t.sh, t.exec, e).Some?
    requires Ended(t, e).Some? ==> Ended(t, e).value in known
    ensures var (sh, pc) := ExecStep(t.task, t.sh, t.exec, e).value; RunKnown(t.(sh := sh, exec := pc), r, known)
  {
    hide EndStep, SentKnown, MessageKnown;
    if t.exec.XEnd? { EndKnows(t.task, t.sh, t.exec.end, known); }
  }

  lemma ThreadKnows(s: State, a: Action, i: nat, known: set<Cause>)
    requires Valid(s) && RunsInv(s) && !a.Main? && a.i == i < |s.runs| && ThreadStep(s.runs[i], a).Some?
    requires RunKnown(s.runs[i], RoleIn(s.main, i), known) && Now(s, a, i) <= known
    ensures RunKnown(ThreadStep(s.runs[i], a).value.0, RoleIn(s.main, i), known)
  {
    hide RunKnown, BeatStep, PrepStep, ExecStep;
    var t, r := s.runs[i], RoleIn(s.main, i);
    assert RunInv(t, r, Ceasing(s));
    match a {
      case Beat(_, reply) => BeatKnows(t, reply, r, known);
      case Prep(_, e) => PrepKnows(t, e, r, known);
      case Exec(_, e) => ExecKnows(t, e, r, known);
      case Main(_) =>
    }
  }

  /** What a step of the main loop outside the ending code makes of run i. */
  predicate MainLets(s: State, s': State, a: Action, i: nat)
    requires Valid(s) && Valid(s') && i < |s.runs| <= |s'.runs|
  {
    var t, t' := s.runs[i], s'.runs[i];
    && t'.task == t.task && t'.sh.sent == t.sh.sent && t'.prep == t.prep
    && (t'.exec == t.exec || t'.exec == XStart)
    && match RoleIn(s'.main, i)
       case NoRole => true
       case Releases(e) => e.TryRelease? && Now(s, a, i) == {GivenBack}
       case Kills(e) =>
         e.TryReport? && ((e.outcome == WasCancelled && Now(s, a, i) == {GaveUp(true)})
                          || (e.outcome == Failed(true) && Now(s, a, i) == {GaveUp(false)}))
  }

  lemma TopLets(c: Config, s: State, e: MainEvent, i: nat)
    requires Valid(s) && i < |s.runs| && !s.main.MWalk? && MainStep(c, s, e).Some?
    ensures MainLets(s, MainStep(c, s, e).value, Main(e), i)
  {
    hide StartedAmong, Alive;
  }

  lemma GiveBackLets(c: Config, s: State, e: MainEvent, i: nat)
    requires Valid(s) && i < |s.runs| && s.main.MWalk? && !s.main.at.Releasing? && GiveBackStep(c, s, e).Some?
    ensures MainLets(s, GiveBackStep(c, s, e).value, Main(e), i)
  {
  }

  lemma DispatchLets(c: Config, s: State, e: MainEvent, i: nat)
    requires Valid(s) && i < |s.runs| && s.main.MWalk? && DispatchStep(c, s, e).Some?
    ensures MainLets(s, DispatchStep(c, s, e).value, Main(e), i)
  {
  }

  lemma WatchLets(s: State, e: MainEvent, i: nat)
    requires Valid(s) && i < |s.runs| && s.main.MWalk?
    ensures WatchStep(s, e).Some? ==> MainLets(s, WatchStep(s, e).value, Main(e), i)
    ensures NoteStep(s, e).Some? ==> MainLets(s, NoteStep(s, e).value, Main(e), i)
  {
  }

  lemma KillLets(s: State, e: MainEvent, i: nat)
    requires Valid(s) && i < |s.runs| && s.main.MWalk? && s.main.at.Overdue? && KillStep(s, e).Some?
    ensures MainLets(s, KillStep(s, e).value, Main(e), i)
  {
  }

  lemma LetsKnows(s: State, s': State, a: Action, i: nat, known: set<Cause>)
    requires Valid(s) && Valid(s') && i < |s.runs| <= |s'.runs| && MainLets(s, s', a, i)
    requires RunKnown(s.runs[i], RoleIn(s.main, i), known) && Now(s, a, i) <= known
    ensures RunKnown(s'.runs[i], RoleIn(s'.main, i), known)
  {
    hide SentKnown, Now, MessageKnown;
  }

  /** A step of the main loop within the ending code. */
  lemma EndingKnows(s: State, s': State, i: nat, known: set<Cause>)
    requires Valid(s) && s.main.MWalk? && (s.main.at.Releasing? || s.main.at.Killing?) && Valid(s') && i < |s.runs|
    requires RunKnown(s.runs[i], RoleIn(s.main, i), known)
    requires var h := s.main.held[s.main.k];
             var (s1, e') := MainEnd(s, h, s.main.at.end);
             && s'.runs == s1.runs
             && forall j :: 0 <= j < |s.runs| ==> RoleIn(s'.main, j) == if j == h then Next(RoleIn(s.main, h), e') else NoRole
    ensures RunKnown(s'.runs[i], RoleIn(s'.main, i), known)
  {
    hide SentKnown, MessageKnown, OutcomeKnown, EndStep, Popped;
    if i == s.main.held[s.main.k] { EndKnows(s.runs[i].task, s.runs[i].sh, s.main.at.end, known); }
  }

  lemma GiveBackKnows(c: Config, s: State, e: MainEvent, i: nat, known: set<Cause>)
    requires Valid(s) && s.main.MWalk? && s.main.at.Releasing? && GiveBackStep(c, s, e).Some? && i < |s.runs|
    requires RunKnown(s.runs[i], RoleIn(s.main, i), known)
    ensures var s' := GiveBackStep(c, s, e).value; RunKnown(s'.runs[i], RoleIn(s'.main, i), known)
  {
    hide RunKnown, Popped, EndStep;
    EndingKnows(s, GiveBackStep(c, s, e).value, i, known);
  }

  lemma KillKnows(s: State, e: MainEvent, i: nat, known: set<Cause>)
    requires Valid(s) && s.main.MWalk? && s.main.at.Killing? && KillStep(s, e).Some? && i < |s.runs|
    requires RunKnown(s.runs[i], RoleIn(s.main, i), known)
    ensures var s' := KillStep(s, e).value; RunKnown(s'.runs[i], RoleIn(s'.main, i), known)
  {
    hide RunKnown, Popped, EndStep;
    EndingKnows(s, KillStep(s, e).value, i, known);
  }

  lemma MainKnows(c: Config, s: State, e: MainEvent, i: nat, known: set<Cause>)
    requires Valid(s) && i < |s.runs| && MainStep(c, s, e).Some?
    requires RunKnown(s.runs[i], RoleIn(s.main, i), known) && Now(s, Main(e), i) <= known
    ensures var s' := MainStep(c, s, e).value; RunKnown(s'.runs[i], RoleIn(s'.main, i), known)
  {
    hide RunKnown, MainLets, Now, GiveBackStep, DispatchStep, WatchStep, NoteStep, KillStep;
    var s' := MainStep(c, s, e).value;
    if s.main.MWalk? && s.main.at.Releasing? {
      GiveBackKnows(c, s, e, i, known);
    } else if s.main.MWalk? && s.main.at.Killing? {
      KillKnows(s, e, i, known);
    } else {
      if !s.main.MWalk? {
        TopLets(c, s, e, i);
      } else if s.main.at.Deciding? || s.main.at.Giving? {
        GiveBackLets(c, s, e, i);
      } else if DispatchingNow(s.main) {
        DispatchLets(c, s, e, i);
      } else if s.main.at.Overdue? {
        KillLets(s, e, i);
      } else {
        WatchLets(s, e, i);
      }
      LetsKnows(s, s', Main(e), i, known);
    }
  }

  /** Nothing is known of a claim before it is there. */
  predicate KnownAt(s: State, i: nat, known: set<Cause>)
    requires Valid(s)
  {
    if i < |s.runs| then RunKnown(s.runs[i], RoleIn(s.main, i), known) else known == {}
  }

  lemma StepKnows(c: Config, s: State, a: Action, i: nat, known: set<Cause>)
    requires Valid(s) && RunsInv(s) && Step(c, s, a).Some? && KnownAt(s, i, known)
    ensures KnownAt(Step(c, s, a).value, i, known + Now(s, a, i))
  {
    hide RunKnown, MainStep, ThreadStep, RunsInv;
    var s' := Step(c, s, a).value;
    if i < |s.runs| {
      RunMore(s.runs[i], RoleIn(s.main, i), known, known + Now(s, a, i));
      if a.Main? {
        MainKnows(c, s, a.event, i, known + Now(s, a, i));
      } else if a.i == i {
        ThreadKnows(s, a, i, known + Now(s, a, i));
      }
    } else {
      assert known + Now(s, a, i) == {};
      if i < |s'.runs| { NewIsKnown(c, s, a, i); }
    }
  }

  lemma NewIsKnown(c: Config, s: State, a: Action, i: nat)
    requires Valid(s) && RunsInv(s) && Step(c, s, a).Some? && |s.runs| <= i < |Step(c, s, a).value.runs|
    ensures var s' := Step(c, s, a).value; RunKnown(s'.runs[i], RoleIn(s'.main, i), {})
  {
    hide StartedAmong, Alive, Popped, EndStep, RunsInv, ThreadStep;
  }

  lemma {:induction false} ExecuteKnows(c: Config, s: State, schedule: seq<Action>, i: nat, known: set<Cause>)
    requires Valid(s) && RunsInv(s) && Execute(c, s, schedule).Some? && KnownAt(s, i, known)
    ensures KnownAt(Execute(c, s, schedule).value, i, known + CausesIn(c, s, schedule, i))
    decreases |schedule|
  {
    hide RunsInv, Step, KnownAt, Now;
    if schedule == [] {
      assert known + {} == known;
    } else {
      var s1 := Step(c, s, schedule[0]).value;
      var now := Now(s, schedule[0], i);
      StepKeepsRuns(c, s, schedule[0]);
      StepKnows(c, s, schedule[0], i, known);
      ExecuteKnows(c, s1, schedule[1..], i, known + now);
      assert known + now + CausesIn(c, s1, schedule[1..], i) == known + CausesIn(c, s, schedule, i);
    }
  }

  /** Whatever is sent of a claim says what happened to it: a success, a failure and its retryability are the
      handler's own, or a retryable failure given up on; a cancellation is a handler that stopped or was given up
      after a cancel or a loss; given back is what was refused, not accepted, not started, or failed and is
      its app's to run. */
  lemma ReportsAreTrue(c: Config, schedule: seq<Action>, s: State, i: nat, m: Message)
    requires Reaches(c, schedule, s) && i < |s.runs| && m in s.runs[i].sh.sent
    ensures var known := CausesIn(c, Init, schedule, i);
            && (m == Done(Succeeded) ==> Finished(Succeeded) in known)
            && (forall r :: m == Done(Failed(r)) ==>
                  Finished(Failed(r)) in known || (r && GaveUp(false) in known))
            && (m == Done(WasCancelled) ==> Raised in known || GaveUp(true) in known)
            && (m == Release ==>
                  || NotAccepted in known || Refused in known || GivenBack in known
                  || (s.runs[i].task.fallback
                      && (Finished(Failed(true)) in known || Finished(Failed(false)) in known || GaveUp(false) in known)))
  {
    ReachedInv(c, schedule, s);
    ExecuteKnows(c, Init, schedule, i, {});
    assert {} + CausesIn(c, Init, schedule, i) == CausesIn(c, Init, schedule, i);
    assert MessageKnown(s.runs[i].task.fallback, m, CausesIn(c, Init, schedule, i));
  }

  /** The causes that are the handler's are actions of the schedule. */
  lemma {:induction false} CausesAreActions(c: Config, s: State, schedule: seq<Action>, i: nat, cause: Cause)
    requires Valid(s) && cause in CausesIn(c, s, schedule, i)
    ensures match cause
            case Finished(o) => Exec(i, Finishes(o)) in schedule
            case Raised => Exec(i, Raises) in schedule
            case NotAccepted => Exec(i, NotStarted) in schedule
            case Refused => Prep(i, Refuses) in schedule
            case GaveUp(_) => Main(Happens) in schedule
            case GivenBack => exists e :: Main(e) in schedule
    decreases |schedule|
  {
    hide Step;
    var a := schedule[0];
    if cause !in Now(s, a, i) {
      CausesAreActions(c, Step(c, s, a).value, schedule[1..], i, cause);
    } else {
      assert a in schedule;
    }
  }
}

/** What stops a claim's handler: the reason is true, whoever was told of one has it stopped, and what a stopping
    worker no longer does. */
module WorkerStops {
  import opened Options
  import opened WorkerLoop
  import opened WorkerSafety
  import opened WorkerTraces

  /** What a claim can be stopped for: its beat or its handler hears so, its time runs out, or its handler
      withdraws with no stop to be read. */
  datatype Notice = FromBeat(reason: Reason) | FromRun(reason: Reason) | RanOut | Withdrew

  function BeatNotice(t: Run, reply: BeatReply): Option<Notice> {
    if t.beat.BCall? && reply.Says? && reply.reason != Timeout then Some(FromBeat(reply.reason)) else None
  }

  function ExecNotice(t: Run, e: ExecEvent): Option<Notice> {
    if t.exec.XStart? && e.NotOurs? then Some(FromRun(Lost))
    else if t.exec.XBody? && e.Hears? && e.reason != Timeout then Some(FromRun(e.reason))
    else if t.exec.XCancelRead? && t.sh.stop.Going? then Some(Withdrew)
    else None
  }

  function NoticeOf(s: State, a: Action, i: nat): Option<Notice>
    requires Valid(s)
  {
    if i >= |s.runs| then None
    else
      match a
      case Main(e) =>
        if VisitsAt(s.main, i) && s.main.at.Watching? && e.Happens? && s.runs[i].sh.stop.Going? then Some(RanOut) else None
      case Beat(j, reply) => if j == i then BeatNotice(s.runs[i], reply) else None
      case Exec(j, e) => if j == i then ExecNotice(s.runs[i], e) else None
      case Prep(_, _) => None
  }

  predicate VisitsAt(m: MainPc, i: nat) { m.MWalk? && m.k < |m.held| && m.held[m.k] == i }

  /** The main loop is about to write that the time ran out, unless there is a stop already. */
  predicate RunsOut(m: MainPc, i: nat) { VisitsAt(m, i) && (m.at.Stopping? || m.at.StopWriting?) }

  function Given(s: State, a: Action, i: nat): set<Notice>
    requires Valid(s)
  {
    if NoticeOf(s, a, i).Some? then {NoticeOf(s, a, i).value} else {}
  }

  function NoticesIn(c: Config, s: State, schedule: seq<Action>, i: nat): set<Notice>
    requires Valid(s)
    decreases |schedule|
  {
    if schedule == [] || Step(c, s, schedule[0]).None? then {}
    else Given(s, schedule[0], i) + NoticesIn(c, Step(c, s, schedule[0]).value, schedule[1..], i)
  }

  /** The reason is one that was given; a handler that withdraws unasked counts as cancelled. */
  predicate IsGiven(r: Reason, notices: set<Notice>) {
    match r
    case Cancelled => FromBeat(Cancelled) in notices || FromRun(Cancelled) in notices || Withdrew in notices
    case Lost => FromBeat(Lost) in notices || FromRun(Lost) in notices
    case Timeout => RanOut in notices
  }

  predicate FromBeatAny(notices: set<Notice>) { FromBeat(Cancelled) in notices || FromBeat(Lost) in notices }
  predicate FromRunAny(notices: set<Notice>) { FromRun(Cancelled) in notices || FromRun(Lost) in notices }

  predicate BeatNoted(sh: Shared, pc: BeatPc, notices: set<Notice>) {
    && (FromBeatAny(notices) ==> sh.stop.Stopped? || pc.BStop? || pc.BWrite?)
    && (pc.BStop? || pc.BWrite? ==> pc.r != Timeout && FromBeat(pc.r) in notices)
    && (FromBeatAny(notices) && (pc.BWait? || pc.BCall? || pc.BDone?) ==> sh.stopAt)
    && (FromBeatAny(notices) && (pc.BTail? || pc.BWait? || pc.BCall? || pc.BDone?) ==> sh.started || sh.closed)
    && (pc.BEnd? ==> sh.closed)
  }

  predicate ExecNoted(sh: Shared, pc: ExecPc, notices: set<Notice>) {
    && (FromRunAny(notices) ==> sh.stop.Stopped? || pc.XStop? || pc.XWrite?)
    && (pc.XStop? || pc.XWrite? ==> pc.r != Timeout && FromRun(pc.r) in notices)
    && (pc.XCancelWrite? ==> pc.s.Stopped? && IsGiven(pc.s.reason, notices))
  }

  predicate MainNoted(sh: Shared, runsOut: bool, notices: set<Notice>) {
    && (RanOut in notices ==> sh.stop.Stopped? || runsOut)
    && (runsOut ==> RanOut in notices)
  }

  predicate Noted(t: Run, runsOut: bool, notices: set<Notice>) {
    && (t.sh.stop.Stopped? ==> IsGiven(t.sh.stop.reason, notices))
    && (t.sh.stopAt ==> t.sh.stop.Stopped?) && (t.sh.sent != [] ==> t.sh.beatStop)
    && BeatNoted(t.sh, t.beat, notices) && ExecNoted(t.sh, t.exec, notices) && MainNoted(t.sh, runsOut, notices)
  }

  lemma EndLeavesStops(o: Offer, sh: Shared, e: End)
    ensures var sh' := EndStep(o, sh, e).0;
            && sh'.stop == sh.stop && sh'.stopAt == sh.stopAt && sh'.started == sh.started && (sh.closed ==> sh'.closed)
            && ((sh.sent != [] ==> sh.beatStop) ==> (sh'.sent != [] ==> sh'.beatStop))
  {
  }

  function More(n: Option<Notice>): set<Notice> { if n.Some? then {n.value} else {} }

  lemma BeatNotes(t: Run, reply: BeatReply, runsOut: bool, notices: set<Notice>)
    requires Noted(t, runsOut, notices) && BeatStep(t.task, t.sh, t.beat, reply).Some?
    ensures var (sh, pc) := BeatStep(t.task, t.sh, t.beat, reply).value;
            Noted(t.(sh := sh, beat := pc), runsOut, notices + More(BeatNotice(t, reply)))
  {
    hide Noted, BeatStep;
    if t.beat.BCall? {
      BeatHears(t, reply, runsOut, notices);
    } else {
      assert notices + {} == notices;
      BeatOnNotes(t, reply, runsOut, notices);
    }
  }

  lemma BeatHears(t: Run, reply: BeatReply, runsOut: bool, notices: set<Notice>)
    requires Noted(t, runsOut, notices) && BeatStep(t.task, t.sh, t.beat, reply).Some? && t.beat.BCall?
    ensures var (sh, pc) := BeatStep(t.task, t.sh, t.beat, reply).value;
            Noted(t.(sh := sh, beat := pc), runsOut, notices + More(BeatNotice(t, reply)))
  {
  }

  lemma BeatOnNotes(t: Run, reply: BeatReply, runsOut: bool, notices: set<Notice>)
    requires Noted(t, runsOut, notices) && BeatStep(t.task, t.sh, t.beat, reply).Some? && !t.beat.BCall?
    ensures var (sh, pc) := BeatStep(t.task, t.sh, t.beat, reply).value; Noted(t.(sh := sh, beat := pc), runsOut, notices)
  {
    hide Noted, BeatStep;
    if t.beat.BEnd? {
      BeatEndNotes(t, reply, runsOut, notices);
    } else if t.beat.BStop? || t.beat.BWrite? {
      BeatStopNotes(t, reply, runsOut, notices);
    } else {
      BeatTailNotes(t, reply, runsOut, notices);
    }
  }

  lemma BeatEndNotes(t: Run, reply: BeatReply, runsOut: bool, notices: set<Notice>)
    requires Noted(t, runsOut, notices) && BeatStep(t.task, t.sh, t.beat, reply).Some? && t.beat.BEnd?
    ensures var (sh, pc) := BeatStep(t.task, t.sh, t.beat, reply).value; Noted(t.(sh := sh, beat := pc), runsOut, notices)
  {
    hide EndStep, IsGiven;
    EndLeavesStops(t.task, t.sh, t.beat.end);
  }

  lemma BeatStopNotes(t: Run, reply: BeatReply, runsOut: bool, notices: set<Notice>)
    requires Noted(t, runsOut, notices) && BeatStep(t.task, t.sh, t.beat, reply).Some? && (t.beat.BStop? || t.beat.BWrite?)
    ensures var (sh, pc) := BeatStep(t.task, t.sh, t.beat, reply).value; Noted(t.(sh := sh, beat := pc), runsOut, notices)
  {
    hide EndStep;
  }

  lemma BeatTailNotes(t: Run, reply: BeatReply, runsOut: bool, notices: set<Notice>)
    requires Noted(t, runsOut, notices) && BeatStep(t.task, t.sh, t.beat, reply).Some?
    requires t.beat.BWait? || t.beat.BDecide? || t.beat.BDrop? || t.beat.BTail? || t.beat.BDone?
    ensures var (sh, pc) := BeatStep(t.task, t.sh, t.beat, reply).value; Noted(t.(sh := sh, beat := pc), runsOut, notices)
  {
    hide EndStep, IsGiven;
  }

  lemma PrepNotes(t: Run, e: PrepEvent, runsOut: bool, notices: set<Notice>)
    requires Noted(t, runsOut, notices) && PrepStep(t.task, t.sh, t.prep, e).Some?
    ensures var (sh, pc) := PrepStep(t.task, t.sh, t.prep, e).value; Noted(t.(sh := sh, prep := pc), runsOut, notices)
  {
    hide EndStep;
    if t.prep.PEnd? { EndLeavesStops(t.task, t.sh, t.prep.end); }
  }

  lemma ExecNotes(t: Run, e: ExecEvent, runsOut: bool, notices: set<Notice>)
    requires Noted(t, runsOut, notices) && ExecStep(t.task, t.sh, t.exec, e).Some?
    ensures var (sh, pc) := ExecStep(t.task, t.sh, t.exec, e).value;
            Noted(t.(sh := sh, exec := pc), runsOut, notices + More(ExecNotice(t, e)))
  {
    hide Noted, ExecStep;
    if t.exec.XBody? || t.exec.XStart? || t.exec.XCancelRead? {
      ExecHears(t, e, runsOut, notices);
    } else {
      assert notices + {} == notices;
      ExecOnNotes(t, e, runsOut, notices);
    }
  }

  lemma ExecHears(t: Run, e: ExecEvent, runsOut: bool, notices: set<Notice>)
    requires Noted(t, runsOut, notices) && ExecStep(t.task, t.sh, t.exec, e).Some?
    requires t.exec.XBody? || t.exec.XStart? || t.exec.XCancelRead?
    ensures var (sh, pc) := ExecStep(t.task, t.sh, t.exec, e).value;
            Noted(t.(sh := sh, exec := pc), runsOut, notices + More(ExecNotice(t, e)))
  {
  }

  lemma ExecOnNotes(t: Run, e: ExecEvent, runsOut: bool, notices: set<Notice>)
    requires Noted(t, runsOut, notices) && ExecStep(t.task, t.sh, t.exec, e).Some?
    requires !t.exec.XBody? && !t.exec.XStart? && !t.exec.XCancelRead?
    ensures var (sh, pc) := ExecStep(t.task, t.sh, t.exec, e).value; Noted(t.(sh := sh, exec := pc), runsOut, notices)
  {
    hide EndStep;
    if t.exec.XEnd? { EndLeavesStops(t.task, t.sh, t.exec.end); }
  }

  lemma ThreadNotes(t: Run, a: Action, runsOut: bool, notices: set<Notice>, given: set<Notice>)
    requires Noted(t, runsOut, notices) && ThreadStep(t, a).Some?
    requires given == match a
                      case Beat(_, reply) => More(BeatNotice(t, reply))
                      case Exec(_, e) => More(ExecNotice(t, e))
                      case _ => {}
    ensures Noted(ThreadStep(t, a).value.0, runsOut, notices + given)
  {
    hide Noted, BeatStep, PrepStep, ExecStep;
    match a {
      case Beat(_, reply) => BeatNotes(t, reply, runsOut, notices);
      case Prep(_, e) =>
        PrepNotes(t, e, runsOut, notices);
        assert notices + {} == notices;
      case Exec(_, e) => ExecNotes(t, e, runsOut, notices);
      case Main(_) =>
    }
  }

  /** What a step of the main loop makes of run i's stop. */
  predicate MainStops(s: State, s': State, a: Action, i: nat)
    requires Valid(s) && Valid(s') && i < |s.runs| <= |s'.runs|
  {
    var t, t' := s.runs[i], s'.runs[i];
    && t'.beat == t.beat && (t.sh.started ==> t'.sh.started) && (t.sh.closed ==> t'.sh.closed)
    && ((t.sh.sent != [] ==> t.sh.beatStop) ==> (t'.sh.sent != [] ==> t'.sh.beatStop))
    && (t'.exec == t.exec || t'.exec == XStart) && (t'.exec == XStart ==> t.exec == XStart || t.exec.XNone?)
    && (t'.sh.stopAt == t.sh.stopAt || (t'.sh.stopAt && t.sh.stop.Stopped?))
    && (t.sh.stopAt ==> t'.sh.stopAt)
    && (t'.sh.stop == t.sh.stop || (t'.sh.stop == Stopped(Timeout) && RunsOut(s.main, i)))
    && (RunsOut(s'.main, i) ==> Given(s, a, i) == {RanOut} || RunsOut(s.main, i))
    && (Given(s, a, i) == {} || Given(s, a, i) == {RanOut})
    && (Given(s, a, i) == {RanOut} || RunsOut(s.main, i) ==> RunsOut(s'.main, i) || t'.sh.stop.Stopped?)
  }

  lemma TopStops(c: Config, s: State, e: MainEvent, i: nat)
    requires Valid(s) && i < |s.runs| && !s.main.MWalk? && MainStep(c, s, e).Some?
    ensures MainStops(s, MainStep(c, s, e).value, Main(e), i)
  {
    TopKeepsRun(c, s, e, i);
    hide MainStep, Given;
    NoneGiven(s, e, i);
  }

  lemma TopKeepsRun(c: Config, s: State, e: MainEvent, i: nat)
    requires Valid(s) && i < |s.runs| && !s.main.MWalk? && MainStep(c, s, e).Some?
    ensures var s' := MainStep(c, s, e).value;
            s'.runs[i] == s.runs[i] && (s'.main.MWalk? ==> s'.main.at.Deciding? || s'.main.at.Dispatching? || s'.main.at.Watching?)
  {
    hide StartedAmong, Alive;
  }

  lemma GiveBackStops(c: Config, s: State, e: MainEvent, i: nat)
    requires Valid(s) && i < |s.runs| && s.main.MWalk? && GiveBackStep(c, s, e).Some?
    ensures MainStops(s, GiveBackStep(c, s, e).value, Main(e), i)
  {
    GiveBackKeepsRun(c, s, e, i);
    hide Given, GiveBackStep;
    NoneGiven(s, e, i);
  }

  lemma GiveBackKeepsRun(c: Config, s: State, e: MainEvent, i: nat)
    requires Valid(s) && i < |s.runs| && s.main.MWalk? && GiveBackStep(c, s, e).Some?
    ensures var s' := GiveBackStep(c, s, e).value;
            var t, t' := s.runs[i], s'.runs[i];
            && t' == t.(sh := t'.sh) && t'.sh.stop == t.sh.stop && t'.sh.stopAt == t.sh.stopAt
            && t'.sh.started == t.sh.started && (t.sh.closed ==> t'.sh.closed)
            && ((t.sh.sent != [] ==> t.sh.beatStop) ==> (t'.sh.sent != [] ==> t'.sh.beatStop))
            && (s'.main.MWalk? ==> !s'.main.at.Stopping? && !s'.main.at.StopWriting?)
            && !s.main.at.Watching? && !s.main.at.Stopping? && !s.main.at.StopWriting?
  {
    hide Popped, EndStep;
    if s.main.at.Releasing? {
      var t := s.runs[s.main.held[s.main.k]];
      EndLeavesStops(t.task, t.sh, s.main.at.end);
    }
  }

  lemma DispatchStops(c: Config, s: State, e: MainEvent, i: nat)
    requires Valid(s) && RunsInv(s) && i < |s.runs| && s.main.MWalk? && DispatchStep(c, s, e).Some?
    ensures MainStops(s, DispatchStep(c, s, e).value, Main(e), i)
  {
    hide MainStops, DispatchStep, RunsInv;
    if s.main.at.Marking? { MarkStops(c, s, e, i); } else { GuardStops(c, s, e, i); }
  }

  lemma GuardStops(c: Config, s: State, e: MainEvent, i: nat)
    requires Valid(s) && i < |s.runs| && s.main.MWalk? && !s.main.at.Marking? && DispatchStep(c, s, e).Some?
    ensures MainStops(s, DispatchStep(c, s, e).value, Main(e), i)
  {
    hide Given;
    NoneGiven(s, e, i);
  }

  lemma MarkStops(c: Config, s: State, e: MainEvent, i: nat)
    requires Valid(s) && RunsInv(s) && i < |s.runs| && s.main.MWalk? && s.main.at.Marking? && DispatchStep(c, s, e).Some?
    ensures MainStops(s, DispatchStep(c, s, e).value, Main(e), i)
  {
    hide Given, BeatOk, PrepOk, RoleOk, EndedOnce, SaysRight, OnlyStopping, HeldInv, RoleIn;
    NoneGiven(s, e, i);
    var h := s.main.held[s.main.k];
    assert RunInv(s.runs[h], RoleIn(s.main, h), Ceasing(s));
    assert s.runs[h].exec.XNone?;
    hide RunInv, RunsInv;
  }

  lemma WatchStops(s: State, e: MainEvent, i: nat)
    requires Valid(s) && i < |s.runs| && s.main.MWalk? && WatchStep(s, e).Some?
    ensures MainStops(s, WatchStep(s, e).value, Main(e), i)
  {
    hide Given;
    GivenAtWatch(s, e, i);
  }

  lemma NoneGiven(s: State, e: MainEvent, i: nat)
    requires Valid(s) && !(s.main.MWalk? && s.main.at.Watching?)
    ensures Given(s, Main(e), i) == {}
  {
  }

  lemma GivenAtWatch(s: State, e: MainEvent, i: nat)
    requires Valid(s) && i < |s.runs|
    ensures Given(s, Main(e), i)
            == if VisitsAt(s.main, i) && s.main.at.Watching? && e.Happens? && s.runs[i].sh.stop.Going? then {RanOut} else {}
  {
  }

  lemma NoteStops(s: State, e: MainEvent, i: nat)
    requires Valid(s) && i < |s.runs| && s.main.MWalk? && NoteStep(s, e).Some?
    ensures MainStops(s, NoteStep(s, e).value, Main(e), i)
  {
    hide MainStops, NoteStep;
    if s.main.at.StopWriting? { WriteStops(s, e, i); } else if s.main.at.StopSeen? { SeeStops(s, e, i); } else { NoNoteStep(s, e); }
  }

  lemma NoNoteStep(s: State, e: MainEvent)
    requires Valid(s) && s.main.MWalk? && !s.main.at.StopWriting? && !s.main.at.StopSeen?
    ensures NoteStep(s, e).None?
  {
  }

  lemma WriteStops(s: State, e: MainEvent, i: nat)
    requires Valid(s) && i < |s.runs| && s.main.MWalk? && s.main.at.StopWriting? && NoteStep(s, e).Some?
    ensures MainStops(s, NoteStep(s, e).value, Main(e), i)
  {
    hide Given;
    NoneGiven(s, e, i);
  }

  lemma SeeStops(s: State, e: MainEvent, i: nat)
    requires Valid(s) && i < |s.runs| && s.main.MWalk? && s.main.at.StopSeen? && NoteStep(s, e).Some?
    ensures MainStops(s, NoteStep(s, e).value, Main(e), i)
  {
    hide Given;
    NoneGiven(s, e, i);
  }

  lemma KillStops(s: State, e: MainEvent, i: nat)
    requires Valid(s) && i < |s.runs| && s.main.MWalk? && (s.main.at.Overdue? || s.main.at.Killing?) && KillStep(s, e).Some?
    ensures MainStops(s, KillStep(s, e).value, Main(e), i)
  {
    hide Given;
    NoneGiven(s, e, i);
    hide Popped, EndStep;
    if s.main.at.Killing? {
      var t := s.runs[s.main.held[s.main.k]];
      EndLeavesStops(t.task, t.sh, s.main.at.end);
    }
  }

  lemma MainStepStops(c: Config, s: State, e: MainEvent, i: nat)
    requires Valid(s) && RunsInv(s) && i < |s.runs| && MainStep(c, s, e).Some?
    ensures MainStops(s, MainStep(c, s, e).value, Main(e), i)
  {
    hide RunsInv, MainStops, GiveBackStep, DispatchStep, WatchStep, NoteStep, KillStep;
    if !s.main.MWalk? {
      TopStops(c, s, e, i);
    } else if s.main.at.Deciding? || s.main.at.Giving? || s.main.at.Releasing? {
      GiveBackStops(c, s, e, i);
    } else if DispatchingNow(s.main) {
      DispatchStops(c, s, e, i);
    } else if s.main.at.StopWriting? || s.main.at.StopSeen? {
      NoteStops(s, e, i);
    } else if s.main.at.Overdue? || s.main.at.Killing? {
      KillStops(s, e, i);
    } else {
      WatchStops(s, e, i);
    }
  }

  lemma MainNotes(s: State, s': State, a: Action, i: nat, notices: set<Notice>)
    requires Valid(s) && Valid(s') && i < |s.runs| <= |s'.runs| && MainStops(s, s', a, i)
    requires Noted(s.runs[i], RunsOut(s.main, i), notices)
    ensures Noted(s'.runs[i], RunsOut(s'.main, i), notices + Given(s, a, i))
  {
    hide Given, RunsOut;
  }

  predicate NotedAt(s: State, i: nat, notices: set<Notice>)
    requires Valid(s)
  {
    if i < |s.runs| then Noted(s.runs[i], RunsOut(s.main, i), notices) else notices == {}
  }

  lemma StepNotes(c: Config, s: State, a: Action, i: nat, notices: set<Notice>)
    requires Valid(s) && RunsInv(s) && Step(c, s, a).Some? && NotedAt(s, i, notices)
    ensures NotedAt(Step(c, s, a).value, i, notices + Given(s, a, i))
  {
    hide Noted, MainStep, ThreadStep, RunsInv, MainStops;
    var s' := Step(c, s, a).value;
    if i < |s.runs| {
      if a.Main? {
        MainStepStops(c, s, a.event, i);
        MainNotes(s, s', a, i, notices);
      } else if a.i == i {
        ThreadNotes(s.runs[i], a, RunsOut(s.main, i), notices, Given(s, a, i));
      } else {
        assert notices + {} == notices;
      }
    } else {
      assert notices + Given(s, a, i) == {};
      if i < |s'.runs| { NewIsNoted(c, s, a, i); }
    }
  }

  lemma NewIsNoted(c: Config, s: State, a: Action, i: nat)
    requires Valid(s) && Step(c, s, a).Some? && |s.runs| <= i < |Step(c, s, a).value.runs|
    ensures var s' := Step(c, s, a).value; Noted(s'.runs[i], RunsOut(s'.main, i), {})
  {
    hide StartedAmong, Alive, Popped, EndStep, ThreadStep;
  }

  lemma {:induction false} ExecuteNotes(c: Config, s: State, schedule: seq<Action>, i: nat, notices: set<Notice>)
    requires Valid(s) && RunsInv(s) && Execute(c, s, schedule).Some? && NotedAt(s, i, notices)
    ensures NotedAt(Execute(c, s, schedule).value, i, notices + NoticesIn(c, s, schedule, i))
    decreases |schedule|
  {
    hide RunsInv, Step, NotedAt, Given;
    if schedule == [] {
      assert notices + {} == notices;
    } else {
      var s1 := Step(c, s, schedule[0]).value;
      var given := Given(s, schedule[0], i);
      StepKeepsRuns(c, s, schedule[0]);
      StepNotes(c, s, schedule[0], i, notices);
      ExecuteNotes(c, s1, schedule[1..], i, notices + given);
      assert notices + given + NoticesIn(c, s1, schedule[1..], i) == notices + NoticesIn(c, s, schedule, i);
    }
  }

  lemma ReachedNoted(c: Config, schedule: seq<Action>, s: State, i: nat)
    requires Reaches(c, schedule, s) && i < |s.runs|
    ensures Noted(s.runs[i], RunsOut(s.main, i), NoticesIn(c, Init, schedule, i))
  {
    ReachedInv(c, schedule, s);
    ExecuteNotes(c, Init, schedule, i, {});
    assert {} + NoticesIn(c, Init, schedule, i) == NoticesIn(c, Init, schedule, i);
  }

  /** The stop reason of a claim is one that was given: pod-control said it was cancelled or lost, its time ran
      out, or its handler withdrew unasked.  With an ending on its way out no beat follows. */
  lemma StopsAreTrue(c: Config, schedule: seq<Action>, s: State, i: nat)
    requires Reaches(c, schedule, s) && i < |s.runs|
    ensures var notices, stop := NoticesIn(c, Init, schedule, i), s.runs[i].sh.stop;
            && (stop == Stopped(Cancelled) ==>
                  FromBeat(Cancelled) in notices || FromRun(Cancelled) in notices || Withdrew in notices)
            && (stop == Stopped(Lost) ==> FromBeat(Lost) in notices || FromRun(Lost) in notices)
            && (stop == Stopped(Timeout) ==> RanOut in notices)
            && (s.runs[i].sh.stopAt ==> stop.Stopped?)
            && (s.runs[i].sh.sent != [] ==> s.runs[i].sh.beatStop)
  {
    ReachedNoted(c, schedule, s, i);
  }

  /** And whoever is given one stops the claim before doing anything else; before its next call the beat thread
      also notes when, and has dropped a claim that has not started. */
  lemma StopsAreHeard(c: Config, schedule: seq<Action>, s: State, i: nat)
    requires Reaches(c, schedule, s) && i < |s.runs|
    ensures var notices, t := NoticesIn(c, Init, schedule, i), s.runs[i];
            && (FromBeat(Cancelled) in notices || FromBeat(Lost) in notices ==>
                  && (t.sh.stop.Stopped? || t.beat.BStop? || t.beat.BWrite?)
                  && (t.beat.BWait? || t.beat.BCall? || t.beat.BDone? ==> t.sh.stopAt && (t.sh.started || t.sh.closed)))
            && (FromRun(Cancelled) in notices || FromRun(Lost) in notices ==>
                  t.sh.stop.Stopped? || t.exec.XStop? || t.exec.XWrite?)
            && (RanOut in notices ==> t.sh.stop.Stopped? || RunsOut(s.main, i))
  {
    ReachedNoted(c, schedule, s, i);
  }

  // -- what no longer happens ------------------------------------------------------------------------

  /** The beat thread has been told to end and is not in the middle of anything. */
  predicate BeatOver(t: Run) { t.sh.beatStop && (t.beat.BWait? || t.beat.BDone?) }

  /** The prepare thread may still end the task but not make it ready: it is closed or stopped before the look. */
  predicate NotToBeReady(t: Run) {
    !t.sh.ready && ((t.sh.closed && (t.prep.PClosed? || t.prep.PEnd? || t.prep.PDone?))
                    || (t.sh.stop.Stopped? && (t.prep.PClosed? || t.prep.PStopped? || t.prep.PEnd? || t.prep.PDone?)))
  }

  /** Closed before it started, and the dispatch is not past its look at that. */
  predicate NotToStart(s: State, i: nat)
    requires Valid(s) && i < |s.runs|
  {
    s.runs[i].sh.closed && !s.runs[i].sh.started
    && !(VisitsAt(s.main, i) && (s.main.at.Readying? || s.main.at.Marking?))
  }

  lemma EndLeavesRest(o: Offer, sh: Shared, e: End)
    ensures var sh' := EndStep(o, sh, e).0;
            && sh'.stop == sh.stop && sh'.ready == sh.ready && sh'.started == sh.started
            && (sh.closed ==> sh'.closed) && (sh.beatStop ==> sh'.beatStop)
  {
  }

  lemma BeatStaysOver(t: Run, reply: BeatReply)
    requires BeatStep(t.task, t.sh, t.beat, reply).Some?
    ensures var (sh, pc) := BeatStep(t.task, t.sh, t.beat, reply).value;
            var t' := t.(sh := sh, beat := pc);
            && (BeatOver(t) ==> BeatOver(t')) && (NotToBeReady(t) ==> NotToBeReady(t'))
            && (t.sh.closed ==> sh.closed) && sh.started == t.sh.started
  {
    hide EndStep;
    if t.beat.BEnd? { EndLeavesRest(t.task, t.sh, t.beat.end); }
  }

  lemma PrepStaysOver(t: Run, e: PrepEvent)
    requires PrepStep(t.task, t.sh, t.prep, e).Some?
    ensures var (sh, pc) := PrepStep(t.task, t.sh, t.prep, e).value;
            var t' := t.(sh := sh, prep := pc);
            && (BeatOver(t) ==> BeatOver(t')) && (NotToBeReady(t) ==> NotToBeReady(t'))
            && (t.sh.closed ==> sh.closed) && sh.started == t.sh.started
  {
    hide EndStep;
    if t.prep.PEnd? { EndLeavesRest(t.task, t.sh, t.prep.end); }
  }

  lemma ExecStaysOver(t: Run, e: ExecEvent)
    requires ExecStep(t.task, t.sh, t.exec, e).Some? && (t.exec.XCancelWrite? ==> t.exec.s.Stopped?)
    ensures var (sh, pc) := ExecStep(t.task, t.sh, t.exec, e).value;
            var t' := t.(sh := sh, exec := pc);
            && (BeatOver(t) ==> BeatOver(t')) && (NotToBeReady(t) ==> NotToBeReady(t'))
            && (t.sh.closed ==> sh.closed) && sh.started == t.sh.started
  {
    hide EndStep, BeatOver, NotToBeReady;
    ExecLeavesRest(t, e);
    var (sh, pc) := ExecStep(t.task, t.sh, t.exec, e).value;
    hide ExecStep;
    RestIsOver(t, t.(sh := sh, exec := pc));
  }

  predicate RestLeft(sh: Shared, sh': Shared) {
    && (sh.stop.Stopped? ==> sh'.stop.Stopped?) && sh'.ready == sh.ready && sh'.started == sh.started
    && (sh.closed ==> sh'.closed) && (sh.beatStop ==> sh'.beatStop)
  }

  lemma ExecLeavesRest(t: Run, e: ExecEvent)
    requires ExecStep(t.task, t.sh, t.exec, e).Some? && (t.exec.XCancelWrite? ==> t.exec.s.Stopped?)
    ensures RestLeft(t.sh, ExecStep(t.task, t.sh, t.exec, e).value.0)
  {
    if t.exec.XEnd? {
      hide EndStep;
      EndLeavesRest(t.task, t.sh, t.exec.end);
    } else {
      ExecSetsStop(t, e);
      hide ExecStep;
    }
  }

  /** Outside its ending the execute thread writes the stop and what pod-control said, and nothing else. */
  lemma ExecSetsStop(t: Run, e: ExecEvent)
    requires ExecStep(t.task, t.sh, t.exec, e).Some? && !t.exec.XEnd? && (t.exec.XCancelWrite? ==> t.exec.s.Stopped?)
    ensures SetsStop(t.sh, ExecStep(t.task, t.sh, t.exec, e).value.0)
  {
    hide SetsStop, ExecStep;
    if t.exec.XBody? || t.exec.XStart? { BodySetsStop(t, e); } else { CancelSetsStop(t, e); }
  }

  predicate SetsStop(sh: Shared, sh': Shared) {
    sh' == sh.(stop := sh'.stop, gone := sh'.gone) && (sh.stop.Stopped? ==> sh'.stop.Stopped?)
  }

  lemma BodySetsStop(t: Run, e: ExecEvent)
    requires ExecStep(t.task, t.sh, t.exec, e).Some? && (t.exec.XBody? || t.exec.XStart?)
    ensures SetsStop(t.sh, ExecStep(t.task, t.sh, t.exec, e).value.0)
  {
    hide EndStep;
  }

  lemma CancelSetsStop(t: Run, e: ExecEvent)
    requires ExecStep(t.task, t.sh, t.exec, e).Some? && !t.exec.XEnd? && !t.exec.XBody? && !t.exec.XStart?
    requires t.exec.XCancelWrite? ==> t.exec.s.Stopped?
    ensures SetsStop(t.sh, ExecStep(t.task, t.sh, t.exec, e).value.0)
  {
    hide EndStep;
  }

  lemma RestIsOver(t: Run, t': Run)
    requires RestLeft(t.sh, t'.sh) && t'.beat == t.beat && t'.prep == t.prep
    ensures (BeatOver(t) ==> BeatOver(t')) && (NotToBeReady(t) ==> NotToBeReady(t'))
  {
  }

  predicate StaysOver(t: Run, t': Run) {
    && (BeatOver(t) ==> BeatOver(t')) && (NotToBeReady(t) ==> NotToBeReady(t')) && (t.sh.closed ==> t'.sh.closed)
  }

  lemma ThreadStaysOver(t: Run, a: Action)
    requires ThreadStep(t, a).Some? && (t.exec.XCancelWrite? ==> t.exec.s.Stopped?)
    ensures StaysOver(t, ThreadStep(t, a).value.0) && ThreadStep(t, a).value.0.sh.started == t.sh.started
  {
    hide BeatStep, PrepStep, ExecStep;
    match a {
      case Beat(_, reply) => BeatStaysOver(t, reply);
      case Prep(_, e) => PrepStaysOver(t, e);
      case Exec(_, e) => ExecStaysOver(t, e);
      case Main(_) =>
    }
  }

  predicate MainStaysOver(s: State, s': State, i: nat)
    requires Valid(s) && Valid(s') && i < |s.runs| <= |s'.runs|
  {
    StaysOver(s.runs[i], s'.runs[i]) && (NotToStart(s, i) ==> NotToStart(s', i))
  }

  lemma TopStaysOver(c: Config, s: State, e: MainEvent, i: nat)
    requires Valid(s) && i < |s.runs| && !s.main.MWalk? && MainStep(c, s, e).Some?
    ensures MainStaysOver(s, MainStep(c, s, e).value, i)
  {
    TopKeepsRun(c, s, e, i);
    hide MainStep;
  }

  lemma GiveBackStaysOver(c: Config, s: State, e: MainEvent, i: nat)
    requires Valid(s) && i < |s.runs| && s.main.MWalk? && GiveBackStep(c, s, e).Some?
    ensures MainStaysOver(s, GiveBackStep(c, s, e).value, i)
  {
    hide Popped, EndStep;
    if s.main.at.Releasing? {
      var t := s.runs[s.main.held[s.main.k]];
      EndLeavesRest(t.task, t.sh, s.main.at.end);
    }
  }

  lemma DispatchStaysOver(c: Config, s: State, e: MainEvent, i: nat)
    requires Valid(s) && i < |s.runs| && s.main.MWalk? && DispatchStep(c, s, e).Some?
    ensures MainStaysOver(s, DispatchStep(c, s, e).value, i)
  {
  }

  lemma WatchStaysOver(s: State, e: MainEvent, i: nat)
    requires Valid(s) && i < |s.runs| && s.main.MWalk?
    ensures WatchStep(s, e).Some? ==> MainStaysOver(s, WatchStep(s, e).value, i)
  {
  }

  lemma NoteStaysOver(s: State, e: MainEvent, i: nat)
    requires Valid(s) && i < |s.runs| && s.main.MWalk? && NoteStep(s, e).Some?
    ensures MainStaysOver(s, NoteStep(s, e).value, i)
  {
    NoteLeavesRest(s, e, i);
    hide BeatOver, NotToBeReady, NoteStep;
    RestIsOver(s.runs[i], NoteStep(s, e).value.runs[i]);
  }

  lemma NoteLeavesRest(s: State, e: MainEvent, i: nat)
    requires Valid(s) && i < |s.runs| && s.main.MWalk? && NoteStep(s, e).Some?
    ensures var s' := NoteStep(s, e).value;
            && |s'.runs| == |s.runs| && s'.runs[i] == s.runs[i].(sh := s'.runs[i].sh) && RestLeft(s.runs[i].sh, s'.runs[i].sh)
            && s'.main.MWalk? && (s'.main.at.StopSeen? || s'.main.at.Overdue?)
  {
  }

  lemma KillStaysOver(s: State, e: MainEvent, i: nat)
    requires Valid(s) && i < |s.runs| && s.main.MWalk? && KillStep(s, e).Some?
    ensures MainStaysOver(s, KillStep(s, e).value, i)
  {
    hide Popped, EndStep;
    if s.main.at.Killing? {
      var t := s.runs[s.main.held[s.main.k]];
      EndLeavesRest(t.task, t.sh, s.main.at.end);
    }
  }

  lemma StepStaysOver(c: Config, s: State, a: Action, i: nat)
    requires Valid(s) && i < |s.runs| && Step(c, s, a).Some? && (s.runs[i].exec.XCancelWrite? ==> s.runs[i].exec.s.Stopped?)
    ensures MainStaysOver(s, Step(c, s, a).value, i)
  {
    hide ThreadStep, BeatOver, NotToBeReady, GiveBackStep, DispatchStep, WatchStep, NoteStep, KillStep;
    if !a.Main? {
      if a.i == i { ThreadStaysOver(s.runs[i], a); }
    } else if !s.main.MWalk? {
      TopStaysOver(c, s, a.event, i);
    } else {
      hide MainStaysOver;
      if s.main.at.Deciding? || s.main.at.Giving? || s.main.at.Releasing? {
        GiveBackStaysOver(c, s, a.event, i);
      } else if DispatchingNow(s.main) {
        DispatchStaysOver(c, s, a.event, i);
      } else if s.main.at.Overdue? || s.main.at.Killing? {
        KillStaysOver(s, a.event, i);
      } else {
        if NoteStep(s, a.event).Some? { NoteStaysOver(s, a.event, i); }
        WatchStaysOver(s, a.event, i);
      }
    }
  }

  /** From a state on: a beat thread that was told to end makes no call any more, a task closed or stopped before
      its prepare thread looks is never ready, and one closed before the dispatch looks is never started. */
  lemma {:induction false} WhatIsOverStaysOver(c: Config, s: State, after: seq<Action>, i: nat, notices: set<Notice>)
    requires Valid(s) && RunsInv(s) && i < |s.runs| && Execute(c, s, after).Some? && NotedAt(s, i, notices)
    ensures |s.runs| <= |Execute(c, s, after).value.runs| && MainStaysOver(s, Execute(c, s, after).value, i)
    decreases |after|
  {
    hide RunsInv, Step, NotToStart, BeatOver, NotToBeReady, Noted, Given;
    if after != [] {
      var s1 := Step(c, s, after[0]).value;
      StepKeepsRuns(c, s, after[0]);
      StepNotes(c, s, after[0], i, notices);
      NotedCancel(s.runs[i], RunsOut(s.main, i), notices);
      StepStaysOver(c, s, after[0], i);
      WhatIsOverStaysOver(c, s1, after[1..], i, notices + Given(s, after[0], i));
    }
  }

  lemma NotedCancel(t: Run, runsOut: bool, notices: set<Notice>)
    requires Noted(t, runsOut, notices)
    ensures t.exec.XCancelWrite? ==> t.exec.s.Stopped?
  {
  }

  lemma OverIsOver(c: Config, before: seq<Action>, s: State, after: seq<Action>, s': State, i: nat)
    requires Reaches(c, before, s) && i < |s.runs| && Execute(c, s, after) == Some(s')
    ensures i < |s'.runs|
    ensures s.runs[i].sh.beatStop && s.runs[i].beat.BWait? ==> s'.runs[i].beat.BWait? || s'.runs[i].beat.BDone?
    ensures s.runs[i].prep.PClosed? && (s.runs[i].sh.closed || s.runs[i].sh.stop.Stopped?) && !s.runs[i].sh.ready ==>
              !s'.runs[i].sh.ready
    ensures NotToStart(s, i) ==> !s'.runs[i].sh.started
  {
    ReachedInv(c, before, s);
    ReachedNoted(c, before, s, i);
    WhatIsOverStaysOver(c, s, after, i, NoticesIn(c, Init, before, i));
  }

  // -- drains, and what is asked for and held ----------------------------------------------------------

  predicate SaysDrain(m: MainPc, c: Config, a: Action) {
    a.Main? && ((m.MTop? && a.event.Happens?)
                || (m.MClaim? && a.event.Reply? && a.event.draining && !(c.polite && |a.event.offers| > m.want)))
  }

  predicate DrainSaidIn(c: Config, s: State, schedule: seq<Action>)
    requires Valid(s)
    decreases |schedule|
  {
    schedule != [] && Step(c, s, schedule[0]).Some?
    && (SaysDrain(s.main, c, schedule[0]) || DrainSaidIn(c, Step(c, s, schedule[0]).value, schedule[1..]))
  }

  lemma DrainStep(c: Config, s: State, a: Action)
    requires Valid(s) && Step(c, s, a).Some?
    ensures Step(c, s, a).value.draining <==> s.draining || SaysDrain(s.main, c, a)
  {
    hide StartedAmong, Alive, Popped, EndStep, ThreadStep;
    if a.Main? && s.main.MWalk? { WalkDrains(c, s, a.event); }
  }

  lemma WalkDrains(c: Config, s: State, e: MainEvent)
    requires Valid(s) && s.main.MWalk? && MainStep(c, s, e).Some?
    ensures MainStep(c, s, e).value.draining == s.draining
  {
    hide Popped, EndStep, Alive, StartedAmong;
  }

  lemma {:induction false} ExecuteDrains(c: Config, s: State, schedule: seq<Action>)
    requires Valid(s) && Execute(c, s, schedule).Some?
    ensures Execute(c, s, schedule).value.draining <==> s.draining || DrainSaidIn(c, s, schedule)
    decreases |schedule|
  {
    hide Step, SaysDrain;
    if schedule != [] {
      DrainStep(c, s, schedule[0]);
      ExecuteDrains(c, Step(c, s, schedule[0]).value, schedule[1..]);
    }
  }

  /** The worker drains exactly when the local state or the answer to a claim has said so. */
  lemma DrainsWhenTold(c: Config, schedule: seq<Action>, s: State)
    requires Reaches(c, schedule, s)
    ensures s.draining <==> DrainSaidIn(c, Init, schedule)
  {
    ExecuteDrains(c, Init, schedule);
  }

  /** What is asked for is all the slots there are: capacity and prefetch, or the one. */
  lemma AsksForAllSlots(c: Config, s: State, e: MainEvent)
    requires Valid(s) && s.main.MWalk? && s.main.at.Deciding? && MainStep(c, s, e).Some?
    requires MainStep(c, s, e).value.main.MClaim?
    ensures var want := MainStep(c, s, e).value.main.want;
            && want > 0 && !s.draining && !s.broken
            && (if c.once then want + s.claimed == 1 else want + |s.main.held| == c.capacity + c.prefetch)
  {
  }

  /** No two tasks held have one id. */
  predicate IdsDiffer(s: State)
    requires Valid(s)
  {
    forall a, b :: 0 <= a < b < |s.tasks| ==> s.runs[s.tasks[a]].task.id != s.runs[s.tasks[b]].task.id
  }

  predicate Differ(runs: seq<Run>, tasks: seq<nat>)
    requires Indices(tasks, |runs|)
  {
    forall a, b :: 0 <= a < b < |tasks| ==> runs[tasks[a]].task.id != runs[tasks[b]].task.id
  }

  lemma {:induction false} PoppedDiffer(runs: seq<Run>, tasks: seq<nat>, id: string)
    requires Indices(tasks, |runs|) && Differ(runs, tasks)
    ensures Differ(runs, Popped(runs, tasks, id))
    decreases |tasks|
  {
    if tasks != [] {
      var rest := Popped(runs, tasks[1..], id);
      PoppedDiffer(runs, tasks[1..], id);
      assert Popped(runs, tasks, id) == (if runs[tasks[0]].task.id == id then [] else [tasks[0]]) + rest;
      hide Popped;
      forall i | i in rest ensures runs[tasks[0]].task.id != runs[i].task.id {
        var k :| 0 <= k < |tasks[1..]| && tasks[1..][k] == i;
        assert i == tasks[k + 1];
      }
    }
  }

  lemma PopKeepsIds(s: State, s': State, id: string)
    requires Valid(s) && Valid(s') && IdsDiffer(s) && s'.tasks == Popped(s.runs, s.tasks, id)
    requires |s'.runs| == |s.runs| && forall i :: 0 <= i < |s.runs| ==> s'.runs[i].task == s.runs[i].task
    ensures IdsDiffer(s')
  {
    PoppedDiffer(s.runs, s.tasks, id);
  }

  /** How a step changes what is held. */
  lemma StepHolds(c: Config, s: State, a: Action)
    requires Valid(s) && Step(c, s, a).Some? && IdsDiffer(s)
    ensures IdsDiffer(Step(c, s, a).value)
  {
    hide IdsDiffer, ThreadStep, MainStep;
    var s' := Step(c, s, a).value;
    if a.Main? {
      MainHolds(c, s, a.event);
    } else {
      ThreadTask(s.runs[a.i], a);
      if ThreadStep(s.runs[a.i], a).value.1 {
        PopKeepsIds(s, s', s.runs[a.i].task.id);
      } else {
        SameHeld(s, s');
      }
    }
  }

  lemma SameHeld(s: State, s': State)
    requires Valid(s) && Valid(s') && IdsDiffer(s) && s'.tasks == s.tasks && |s'.runs| >= |s.runs|
    requires forall i :: 0 <= i < |s.runs| ==> s'.runs[i].task == s.runs[i].task
    ensures IdsDiffer(s')
  {
  }

  lemma MainHolds(c: Config, s: State, e: MainEvent)
    requires Valid(s) && MainStep(c, s, e).Some? && IdsDiffer(s)
    ensures IdsDiffer(MainStep(c, s, e).value)
  {
    hide IdsDiffer, EndStep, Popped, StartedAmong, Alive;
    var s' := MainStep(c, s, e).value;
    if s.main.MWalk? {
      WalkHolds(c, s, e);
    } else if s.main.MAdd? && |s'.runs| > |s.runs| {
      AddKeepsIds(s, s', s.main.offers[s.main.next]);
    } else {
      SameHeld(s, s');
    }
  }

  lemma WalkHolds(c: Config, s: State, e: MainEvent)
    requires Valid(s) && s.main.MWalk? && MainStep(c, s, e).Some? && IdsDiffer(s)
    ensures IdsDiffer(MainStep(c, s, e).value)
  {
    hide IdsDiffer;
    var s' := MainStep(c, s, e).value;
    WalkTasks(c, s, e);
    hide MainStep;
    if s'.tasks == s.tasks {
      SameHeld(s, s');
    } else {
      PopKeepsIds(s, s', s.runs[s.main.held[s.main.k]].task.id);
    }
  }

  /** A walk leaves the tasks as they are, or takes one out. */
  predicate TakesOut(s: State, s': State)
    requires Valid(s) && Valid(s') && s.main.MWalk?
  {
    && |s'.runs| == |s.runs| && (forall i :: 0 <= i < |s.runs| ==> s'.runs[i].task == s.runs[i].task)
    && (s'.tasks == s.tasks
        || (s.main.k < |s.main.held| && s'.tasks == Popped(s.runs, s.tasks, s.runs[s.main.held[s.main.k]].task.id)))
  }

  lemma WalkTasks(c: Config, s: State, e: MainEvent)
    requires Valid(s) && s.main.MWalk? && MainStep(c, s, e).Some?
    ensures TakesOut(s, MainStep(c, s, e).value)
  {
    hide TakesOut, GiveBackStep, DispatchStep, WatchStep, NoteStep, KillStep;
    GiveBackTasks(c, s, e);
    DispatchTasks(c, s, e);
    NoteTasks(s, e);
    KillTasks(s, e);
  }

  lemma GiveBackTasks(c: Config, s: State, e: MainEvent)
    requires Valid(s) && s.main.MWalk?
    ensures GiveBackStep(c, s, e).Some? ==> TakesOut(s, GiveBackStep(c, s, e).value)
  {
    hide EndStep, Popped;
  }

  lemma DispatchTasks(c: Config, s: State, e: MainEvent)
    requires Valid(s) && s.main.MWalk?
    ensures DispatchStep(c, s, e).Some? ==> TakesOut(s, DispatchStep(c, s, e).value)
    ensures WatchStep(s, e).Some? ==> TakesOut(s, WatchStep(s, e).value)
  {
  }

  lemma NoteTasks(s: State, e: MainEvent)
    requires Valid(s) && s.main.MWalk?
    ensures NoteStep(s, e).Some? ==> TakesOut(s, NoteStep(s, e).value)
  {
  }

  lemma KillTasks(s: State, e: MainEvent)
    requires Valid(s) && s.main.MWalk?
    ensures KillStep(s, e).Some? ==> TakesOut(s, KillStep(s, e).value)
  {
    hide EndStep, Popped;
  }

  lemma AddKeepsIds(s: State, s': State, o: Offer)
    requires Valid(s) && Valid(s') && IdsDiffer(s) && !Holds(s, o.id)
    requires s'.runs == s.runs + [Claimed(o)] && s'.tasks == s.tasks + [|s.runs|]
    ensures IdsDiffer(s')
  {
    forall a, b | 0 <= a < b < |s'.tasks| ensures s'.runs[s'.tasks[a]].task.id != s'.runs[s'.tasks[b]].task.id {
      assert s.tasks[a] in s.tasks;
    }
  }

  lemma {:induction false} ExecuteHolds(c: Config, s: State, schedule: seq<Action>)
    requires Valid(s) && Execute(c, s, schedule).Some? && IdsDiffer(s)
    ensures IdsDiffer(Execute(c, s, schedule).value)
    decreases |schedule|
  {
    hide Step, IdsDiffer;
    if schedule != [] {
      StepHolds(c, s, schedule[0]);
      ExecuteHolds(c, Step(c, s, schedule[0]).value, schedule[1..]);
    }
  }

  /** Whatever pod-control hands out, no two tasks held at once have one id. */
  lemma HeldIdsDiffer(c: Config, schedule: seq<Action>, s: State)
    requires Reaches(c, schedule, s)
    ensures forall a, b :: 0 <= a < b < |s.tasks| ==> s.runs[s.tasks[a]].task.id != s.runs[s.tasks[b]].task.id
  {
    ExecuteHolds(c, Init, schedule);
  }

  // -- one look of the watch, and leaving ----------------------------------------------------------------

  lemma {:induction false} AliveAre(runs: seq<Run>, tasks: seq<nat>)
    requires Indices(tasks, |runs|)
    ensures forall i :: i in Alive(runs, tasks) <==> i in tasks && runs[i].sh.started && !runs[i].sh.closed
    decreases |tasks|
  {
    if tasks != [] {
      AliveAre(runs, tasks[1..]);
      assert tasks == [tasks[0]] + tasks[1..];
    }
  }

  /** What is watched are the tasks held that have started and not ended, all of them. */
  lemma WatchesTheLiving(c: Config, s: State, e: MainEvent)
    requires Valid(s) && s.main.MWatchSnap? && MainStep(c, s, e).Some?
    ensures var m := MainStep(c, s, e).value.main;
            && m.MWalk? && m.k == 0 && m.at.Watching?
            && forall i :: i in m.held <==> i in s.tasks && s.runs[i].sh.started && !s.runs[i].sh.closed
  {
    AliveAre(s.runs, s.tasks);
  }

  /** The main loop's steps in one look at one task. */
  function Look(s: State, late: bool): seq<Action>
    requires Valid(s) && s.main.MWalk? && s.main.k < |s.main.held|
  {
    if late && s.runs[s.main.held[s.main.k]].sh.stop.Going? then
      [Main(Happens), Main(Quiet), Main(Quiet), Main(Quiet)]
    else [Main(if late then Happens else Quiet), Main(Quiet)]
  }

  /** A task past its time is stopped, a stop is noted, and then it is asked whether the handler is overdue. */
  lemma OneLook(c: Config, s: State, late: bool)
    requires Valid(s) && s.main.MWalk? && s.main.at.Watching? && s.main.k < |s.main.held|
    ensures var i := s.main.held[s.main.k];
            var sh := s.runs[i].sh;
            var stop := if late && sh.stop.Going? then Stopped(Timeout) else sh.stop;
            Execute(c, s, Look(s, late))
            == Some(s.(runs := s.runs[i := s.runs[i].(sh := sh.(stop := stop, stopAt := sh.stopAt || stop.Stopped?))],
                       main := s.main.(at := Overdue)))
  {
    var i := s.main.held[s.main.k];
    var quiet := [Main(Quiet)];
    if late && s.runs[i].sh.stop.Going? {
      var s1 := s.(main := s.main.(at := Stopping));
      var s2 := s.(main := s.main.(at := StopWriting));
      var t := s.runs[i].(sh := s.runs[i].sh.(stop := Stopped(Timeout)));
      var s3 := s.(runs := s.runs[i := t], main := s.main.(at := StopSeen));
      var s4 := s3.(runs := s.runs[i := t.(sh := t.sh.(stopAt := true))], main := s.main.(at := Overdue));
      LookStarts(c, s, Happens, s1);
      LookGoesOn(c, s1, s2);
      LookGoesOn(c, s2, s3);
      LookGoesOn(c, s3, s4);
      FourSteps(c, s, s1, s2, s3, s4);
    } else {
      var s1 := s.(main := s.main.(at := StopSeen));
      var sh := s.runs[i].sh;
      var s2 := s.(runs := s.runs[i := s.runs[i].(sh := sh.(stopAt := sh.stopAt || sh.stop.Stopped?))], main := s.main.(at := Overdue));
      LookStarts(c, s, if late then Happens else Quiet, s1);
      LookGoesOn(c, s1, s2);
      TwoSteps(c, s, if late then Happens else Quiet, s1, s2);
    }
  }

  lemma LookStarts(c: Config, s: State, e: MainEvent, s': State)
    requires Valid(s) && s.main.MWalk? && s.main.at.Watching? && s.main.k < |s.main.held|
    requires s' == s.(main := s.main.(at := if e.Happens? && s.runs[s.main.held[s.main.k]].sh.stop.Going? then Stopping else StopSeen))
    ensures Step(c, s, Main(e)) == Some(s')
  {
  }

  lemma LookGoesOn(c: Config, s: State, s': State)
    requires Valid(s) && s.main.MWalk? && s.main.k < |s.main.held|
    requires var i := s.main.held[s.main.k];
             var t := s.runs[i];
             || (s.main.at.Stopping? && t.sh.stop.Going? && s' == s.(main := s.main.(at := StopWriting)))
             || (s.main.at.StopWriting?
                 && s' == s.(runs := s.runs[i := t.(sh := t.sh.(stop := Stopped(Timeout)))], main := s.main.(at := StopSeen)))
             || (s.main.at.StopSeen?
                 && s' == s.(runs := s.runs[i := t.(sh := t.sh.(stopAt := t.sh.stopAt || t.sh.stop.Stopped?))],
                             main := s.main.(at := Overdue)))
    ensures Step(c, s, Main(Quiet)) == Some(s')
  {
  }

  lemma TwoSteps(c: Config, s: State, e: MainEvent, s1: State, s2: State)
    requires Valid(s) && Step(c, s, Main(e)) == Some(s1) && Step(c, s1, Main(Quiet)) == Some(s2)
    ensures Execute(c, s, [Main(e), Main(Quiet)]) == Some(s2)
  {
    hide Step;
    assert [Main(e), Main(Quiet)][1..] == [Main(Quiet)] && [Main(Quiet)][1..] == [];
    assert Execute(c, s2, []) == Some(s2);
    assert Execute(c, s1, [Main(Quiet)]) == Some(s2);
  }

  lemma FourSteps(c: Config, s: State, s1: State, s2: State, s3: State, s4: State)
    requires Valid(s) && Step(c, s, Main(Happens)) == Some(s1) && Step(c, s1, Main(Quiet)) == Some(s2)
    requires Step(c, s2, Main(Quiet)) == Some(s3) && Step(c, s3, Main(Quiet)) == Some(s4)
    ensures Execute(c, s, [Main(Happens), Main(Quiet), Main(Quiet), Main(Quiet)]) == Some(s4)
  {
    hide Step;
    TwoSteps(c, s2, Quiet, s3, s4);
    var four := [Main(Happens), Main(Quiet), Main(Quiet), Main(Quiet)];
    assert four[1..] == [Main(Quiet), Main(Quiet), Main(Quiet)] && four[1..][1..] == [Main(Quiet), Main(Quiet)];
    assert Execute(c, s1, four[1..]) == Some(s4);
  }

  /** With nothing held the loop leaves, once it drains, is broken or is done with its one. */
  lemma LeavesWhenDone(c: Config, s: State)
    requires Valid(s) && s.main.MSnap? && s.tasks == []
    requires Ceasing(s) || (c.once && s.claimed >= 1)
    ensures var steps := if Ceasing(s) then [Main(Quiet), Main(Quiet), Main(Quiet), Main(Quiet)] else [Main(Quiet), Main(Quiet), Main(Quiet)];
            Execute(c, s, steps) == Some(s.(main := MExit))
  {
    var s1, s2 := s.(main := MWalk([], 0, Deciding)), s.(main := MWalk([], 0, Giving));
    var s3, s4 := s.(main := MLeave), s.(main := MExit);
    LeavingSteps(c, s, s1, s2, s3, s4);
    hide Step;
    TwoSteps(c, if Ceasing(s) then s2 else s1, Quiet, s3, s4);
    var three := [Main(Quiet), Main(Quiet), Main(Quiet)];
    var four := [Main(Quiet), Main(Quiet), Main(Quiet), Main(Quiet)];
    assert three[1..] == [Main(Quiet), Main(Quiet)] && four[1..] == three;
    if Ceasing(s) { assert Execute(c, s1, three) == Some(s4); }
  }

  lemma LeavingSteps(c: Config, s: State, s1: State, s2: State, s3: State, s4: State)
    requires Valid(s) && s.main.MSnap? && s.tasks == [] && (Ceasing(s) || (c.once && s.claimed >= 1))
    requires s1 == s.(main := MWalk([], 0, Deciding)) && s2 == s.(main := MWalk([], 0, Giving))
    requires s3 == s.(main := MLeave) && s4 == s.(main := MExit)
    ensures Step(c, s, Main(Quiet)) == Some(s1) && Step(c, s3, Main(Quiet)) == Some(s4)
    ensures if Ceasing(s) then Step(c, s1, Main(Quiet)) == Some(s2) && Step(c, s2, Main(Quiet)) == Some(s3)
            else Step(c, s1, Main(Quiet)) == Some(s3)
  {
  }

  /** After fetching a task's models its prepare thread looks whether it is closed, and then whether it is stopped. */
  lemma LooksAfterFetching(c: Config, s: State, i: nat, e: PrepEvent)
    requires Valid(s) && i < |s.runs| && Step(c, s, Prep(i, e)).Some?
    ensures var t, t' := s.runs[i], Step(c, s, Prep(i, e)).value.runs[i];
            && (t.prep.PStart? && e.Fetches? ==> t'.prep.PClosed?)
            && (t.prep.PClosed? && e.Serves? ==> if t.sh.closed then t'.prep.PDone? else t'.prep.PStopped?)
            && (t.prep.PStopped? && e.Serves? ==> if t.sh.stop.Stopped? then t'.prep.PDone? else t'.prep.PReady?)
            && (t'.sh.ready != t.sh.ready ==> t.prep.PReady?)
  {
  }

  // -- giving up --------------------------------------------------------------------------------------

  /** Somebody was given up on, along a schedule. */
  predicate GaveUpIn(c: Config, s: State, schedule: seq<Action>)
    requires Valid(s)
    decreases |schedule|
  {
    schedule != [] && Step(c, s, schedule[0]).Some?
    && (GivesUp(s, schedule[0]) || GaveUpIn(c, Step(c, s, schedule[0]).value, schedule[1..]))
  }

  predicate GivesUp(s: State, a: Action)
    requires Valid(s)
  {
    && a == Main(Happens) && s.main.MWalk? && s.main.at.Overdue? && s.main.k < |s.main.held|
    && s.runs[s.main.held[s.main.k]].sh.stopAt
  }

  predicate InGivingUp(m: MainPc) { m.MWalk? && m.at.Killing? && (m.at.end.TryReport? || m.at.end.Send?) }

  predicate Breaks(s: State) { s.broken || InGivingUp(s.main) }

  lemma StepBreaks(c: Config, s: State, a: Action)
    requires Valid(s) && Step(c, s, a).Some? && (Breaks(s) || GivesUp(s, a))
    ensures Breaks(Step(c, s, a).value)
  {
    hide ThreadStep, Popped, StartedAmong, Alive;
    if a.Main? && s.main.MWalk? { WalkBreaks(c, s, a.event); }
  }

  lemma WalkBreaks(c: Config, s: State, e: MainEvent)
    requires Valid(s) && s.main.MWalk? && MainStep(c, s, e).Some? && (Breaks(s) || GivesUp(s, Main(e)))
    ensures Breaks(MainStep(c, s, e).value)
  {
    hide Popped, GiveBackStep, DispatchStep, WatchStep, NoteStep, KillStep;
    if s.main.at.Overdue? || s.main.at.Killing? { KillBreaks(s, e); } else { OthersStayBroken(c, s, e); }
  }

  lemma KillBreaks(s: State, e: MainEvent)
    requires Valid(s) && s.main.MWalk? && (s.main.at.Overdue? || s.main.at.Killing?) && KillStep(s, e).Some?
    requires Breaks(s) || GivesUp(s, Main(e))
    ensures Breaks(KillStep(s, e).value)
  {
    hide Popped;
  }

  lemma OthersStayBroken(c: Config, s: State, e: MainEvent)
    requires Valid(s) && s.main.MWalk?
    ensures GiveBackStep(c, s, e).Some? ==> GiveBackStep(c, s, e).value.broken == s.broken
    ensures DispatchStep(c, s, e).Some? ==> DispatchStep(c, s, e).value.broken == s.broken
    ensures WatchStep(s, e).Some? ==> WatchStep(s, e).value.broken == s.broken
    ensures NoteStep(s, e).Some? ==> NoteStep(s, e).value.broken == s.broken
  {
    hide Popped, EndStep;
  }

  lemma {:induction false} ExecuteBreaks(c: Config, s: State, schedule: seq<Action>)
    requires Valid(s) && Execute(c, s, schedule).Some? && (Breaks(s) || GaveUpIn(c, s, schedule))
    ensures Breaks(Execute(c, s, schedule).value)
    decreases |schedule|
  {
    hide Step, Breaks, GivesUp;
    if schedule != [] {
      if Breaks(s) || GivesUp(s, schedule[0]) { StepBreaks(c, s, schedule[0]); }
      ExecuteBreaks(c, Step(c, s, schedule[0]).value, schedule[1..]);
    }
  }

  /** A worker that gives up on a handler is broken from then on, whoever's report came first; until it is, it is
      doing nothing else. */
  lemma GivingUpBreaks(c: Config, schedule: seq<Action>, s: State)
    requires Reaches(c, schedule, s) && GaveUpIn(c, Init, schedule)
    ensures s.broken || InGivingUp(s.main)
  {
    ExecuteBreaks(c, Init, schedule);
  }
}

/** What the worker's protocol keeps, over every schedule of its threads and every behaviour of
    pod-control, the handlers and the clock. */
module WorkerSafety {
  import opened Options
  import opened WorkerLoop

  // -- what holds of one claim -----------------------------------------------------------------

  /** The main loop's part in ending a given run. */
  datatype Role = NoRole | Releases(end: End) | Kills(end: End)

  function RoleIn(m: MainPc, i: nat): Role
    requires m.MWalk? && AtOne(m.at) ==> m.k < |m.held|
  {
    if !m.MWalk? || !(m.at.Releasing? || m.at.Killing?) || m.held[m.k] != i then NoRole
    else if m.at.Releasing? then Releases(m.at.end) else Kills(m.at.end)
  }

  function RoleEnd(r: Role): End { if r.NoRole? then Over else r.end }
  function PrepEnd(pc: PrepPc): End { if pc.PEnd? then pc.end else Over }
  function ExecEnd(pc: ExecPc): End { if pc.XEnd? then pc.end else Over }

  function Pledge(e: End): nat { if e.Send? then 1 else 0 }

  /** Endings sent for the claim, and endings a thread has won the right to send. */
  function Endings(sh: Shared, prep: End, exec: End, main: End): nat {
    |sh.sent| + Pledge(prep) + Pledge(exec) + Pledge(main)
  }

  predicate EndOk(sh: Shared, e: End) {
    (e.Send? || e.Pop? ==> sh.closed) && (e.Close? ==> sh.closed || sh.gone) && (e.Pop? ==> sh.beatStop)
  }

  /** Only pod-control's word leads the beat thread past its reply. */
  predicate BeatOk(sh: Shared, pc: BeatPc) {
    && (pc.BStop? || pc.BWrite? || pc.BDecide? || pc.BDrop? || pc.BEnd? ==> sh.gone)
    && (pc.BEnd? ==> pc.end.Close? || (pc.end.Pop? && sh.closed && sh.beatStop))
  }

  predicate PrepOk(sh: Shared, pc: PrepPc) {
    && EndOk(sh, PrepEnd(pc))
    && (sh.ready ==> pc.PDone?)
    && (pc.PEnd? ==> !pc.end.TryReport?)
    && (PrepEnd(pc).Close? || PrepEnd(pc).Pop? ==> |sh.sent| == 1)
  }

  predicate ExecOk(sh: Shared, pc: ExecPc) {
    && EndOk(sh, ExecEnd(pc))
    && (pc.XStop? || pc.XWrite? || pc == XCancelWrite(Stopped(Lost)) ==> sh.gone)
    && (sh.started <==> !pc.XNone?)
  }

  predicate RoleOk(sh: Shared, r: Role, stopping: bool) {
    && EndOk(sh, RoleEnd(r))
    && (r.Releases? ==> stopping && !sh.started && !r.end.TryReport?)
    && (r.Kills? ==> sh.started && !r.end.TryRelease?)
    && (r.Releases? && (r.end.Close? || r.end.Pop?) ==> |sh.sent| == 1)
  }

  /** Nobody but pod-control and a stopping worker closes a task that has not started. */
  predicate OnlyStopping(sh: Shared, pc: PrepPc, stopping: bool) {
    !sh.started && sh.closed && !sh.gone && (sh.ready || !(pc.PEnd? || pc.PDone?)) ==> stopping
  }

  predicate RunInv(t: Run, r: Role, stopping: bool) {
    && BeatOk(t.sh, t.beat) && PrepOk(t.sh, t.prep) && ExecOk(t.sh, t.exec) && RoleOk(t.sh, r, stopping)
    && (t.sh.started ==> t.sh.ready)
    && (t.sh.stop == Stopped(Lost) ==> t.sh.gone)
    && EndedOnce(t.sh, Endings(t.sh, PrepEnd(t.prep), ExecEnd(t.exec), RoleEnd(r)))
    && OnlyStopping(t.sh, t.prep, stopping)
    && SaysRight(t, r)
  }

  /** Done is only said of a task that was started, and no failure of one its app runs itself. */
  predicate MaySay(t: Run, m: Message) {
    m.Done? ==> t.sh.started && !(t.task.fallback && m.outcome.Failed?)
  }

  predicate SaysRight(t: Run, r: Role) {
    && (forall m <- t.sh.sent :: MaySay(t, m))
    && (PrepEnd(t.prep).Send? ==> PrepEnd(t.prep).message == Release)
    && (ExecEnd(t.exec).Send? ==> MaySay(t, ExecEnd(t.exec).message))
    && (RoleEnd(r).Send? ==> MaySay(t, RoleEnd(r).message))
  }

  /** One ending at most, none before the run is closed, and one when it is unless it is gone. */
  predicate EndedOnce(sh: Shared, n: nat) {
    n <= 1 && (!sh.closed ==> n == 0) && (sh.closed && !sh.gone ==> n == 1)
  }

  /** The execute thread has been started and has not returned. */
  predicate Executing(t: Run) { !t.exec.XNone? && !t.exec.XDone? }

  predicate HeldInv(t: Run, r: Role, held: bool, broken: bool) {
    && (!held ==> t.sh.closed && t.sh.beatStop && (t.sh.gone || |t.sh.sent| == 1 || (broken && t.sh.started) || (r.Kills? && r.end.Send?)))
    && (!held && Executing(t) ==> t.sh.gone || broken)
    && (r.Kills? && (r.end.Close? || r.end.Pop?) ==> broken)
  }

  predicate Kept(t: Run, t': Run, r: Role, stopping: bool, held: bool, pops: bool, broken: bool) {
    && RunInv(t', r, stopping)
    && t'.task == t.task && t'.sh.started == t.sh.started && (t.sh.ready ==> t'.sh.ready)
    && (HeldInv(t, r, held, broken) ==> HeldInv(t', r, held && !pops, broken))
  }

  lemma BeatKeeps(t: Run, reply: BeatReply, r: Role, stopping: bool, held: bool, broken: bool)
    requires RunInv(t, r, stopping) && BeatStep(t.task, t.sh, t.beat, reply).Some?
    ensures var (sh, pc) := BeatStep(t.task, t.sh, t.beat, reply).value;
            Kept(t, t.(sh := sh, beat := pc), r, stopping, held, t.beat == BEnd(Pop), broken)
  {
    hide RunInv, Kept;
    if t.beat.BEnd? {
      BeatEndKeeps(t, reply, r, stopping, held, broken);
    } else {
      BeatOnKeeps(t, reply, r, stopping, held, broken);
    }
  }

  lemma BeatEndKeeps(t: Run, reply: BeatReply, r: Role, stopping: bool, held: bool, broken: bool)
    requires RunInv(t, r, stopping) && BeatStep(t.task, t.sh, t.beat, reply).Some? && t.beat.BEnd?
    ensures var (sh, pc) := BeatStep(t.task, t.sh, t.beat, reply).value;
            Kept(t, t.(sh := sh, beat := pc), r, stopping, held, t.beat == BEnd(Pop), broken)
  {
    hide SaysRight;
    BeatSays(t, reply, r);
  }

  lemma BeatOnKeeps(t: Run, reply: BeatReply, r: Role, stopping: bool, held: bool, broken: bool)
    requires RunInv(t, r, stopping) && BeatStep(t.task, t.sh, t.beat, reply).Some? && !t.beat.BEnd?
    ensures var (sh, pc) := BeatStep(t.task, t.sh, t.beat, reply).value;
            Kept(t, t.(sh := sh, beat := pc), r, stopping, held, t.beat == BEnd(Pop), broken)
  {
    hide Kept, BeatMoves, BeatStep;
    var (sh, pc) := BeatStep(t.task, t.sh, t.beat, reply).value;
    BeatOnMoves(t, reply);
    BeatMoveKeeps(t, t.(sh := sh, beat := pc), r, stopping, held, broken);
  }

  lemma BeatOnMoves(t: Run, reply: BeatReply)
    requires BeatOk(t.sh, t.beat) && BeatStep(t.task, t.sh, t.beat, reply).Some? && !t.beat.BEnd?
    ensures var (sh, pc) := BeatStep(t.task, t.sh, t.beat, reply).value;
            BeatMoves(t, t.(sh := sh, beat := pc)) && BeatOk(sh, pc)
  {
    hide EndStep;
  }

  /** What the beat thread may do to a run before it ends it. */
  predicate BeatMoves(t: Run, t': Run) {
    var sh, sh' := t.sh, t'.sh;
    && t' == t.(sh := sh', beat := t'.beat)
    && sh' == sh.(gone := sh'.gone, stop := sh'.stop, closed := sh'.closed, stopAt := sh'.stopAt)
    && (sh.gone ==> sh'.gone) && (sh'.closed ==> sh.closed || sh.gone) && (sh.closed ==> sh'.closed)
    && (sh'.stop == Stopped(Lost) ==> sh.stop == sh'.stop || sh.gone)
  }

  lemma BeatMoveKeeps(t: Run, t': Run, r: Role, stopping: bool, held: bool, broken: bool)
    requires RunInv(t, r, stopping) && BeatMoves(t, t') && BeatOk(t'.sh, t'.beat)
    ensures Kept(t, t', r, stopping, held, false, broken)
  {
  }

  lemma BeatSays(t: Run, reply: BeatReply, r: Role)
    requires SaysRight(t, r) && BeatOk(t.sh, t.beat) && BeatStep(t.task, t.sh, t.beat, reply).Some?
    ensures var (sh, pc) := BeatStep(t.task, t.sh, t.beat, reply).value; SaysRight(t.(sh := sh, beat := pc), r)
  {
    var (sh, pc) := BeatStep(t.task, t.sh, t.beat, reply).value;
    BeatSaysNothing(t, reply);
    hide BeatStep;
    assert forall m :: MaySay(t, m) <==> MaySay(t.(sh := sh, beat := pc), m);
  }

  lemma BeatSaysNothing(t: Run, reply: BeatReply)
    requires BeatOk(t.sh, t.beat) && BeatStep(t.task, t.sh, t.beat, reply).Some?
    ensures var sh := BeatStep(t.task, t.sh, t.beat, reply).value.0; sh.sent == t.sh.sent && sh.started == t.sh.started
  {
  }

  lemma PrepKeeps(t: Run, e: PrepEvent, r: Role, stopping: bool, held: bool, broken: bool)
    requires RunInv(t, r, stopping) && PrepStep(t.task, t.sh, t.prep, e).Some?
    ensures var (sh, pc) := PrepStep(t.task, t.sh, t.prep, e).value;
            Kept(t, t.(sh := sh, prep := pc), r, stopping, held, t.prep == PEnd(Pop), broken)
  {
  }

  lemma ExecKeeps(t: Run, e: ExecEvent, r: Role, stopping: bool, held: bool, broken: bool)
    requires RunInv(t, r, stopping) && ExecStep(t.task, t.sh, t.exec, e).Some?
    ensures var (sh, pc) := ExecStep(t.task, t.sh, t.exec, e).value;
            Kept(t, t.(sh := sh, exec := pc), r, stopping, held, t.exec == XEnd(Pop), broken)
  {
    hide RunInv, Kept, ExecStep;
    if t.exec.XEnd? { ExecEndKeeps(t, e, r, stopping, held, broken); } else { ExecOnKeeps(t, e, r, stopping, held, broken); }
  }

  lemma ExecOnKeeps(t: Run, e: ExecEvent, r: Role, stopping: bool, held: bool, broken: bool)
    requires RunInv(t, r, stopping) && ExecStep(t.task, t.sh, t.exec, e).Some? && !t.exec.XEnd?
    ensures var (sh, pc) := ExecStep(t.task, t.sh, t.exec, e).value;
            Kept(t, t.(sh := sh, exec := pc), r, stopping, held, false, broken)
  {
    hide Kept, ExecStep, ExecMoves;
    var (sh, pc) := ExecStep(t.task, t.sh, t.exec, e).value;
    ExecOnMoves(t, e);
    ExecMoveKeeps(t, t.(sh := sh, exec := pc), r, stopping, held, broken);
  }

  /** What the execute thread may do to a run before it ends it. */
  predicate ExecMoves(t: Run, t': Run) {
    var sh, sh' := t.sh, t'.sh;
    && t' == t.(sh := sh', exec := t'.exec)
    && sh' == sh.(gone := sh'.gone, stop := sh'.stop)
    && (sh.gone ==> sh'.gone) && (sh'.stop == Stopped(Lost) ==> sh.stop == sh'.stop || sh.gone)
    && Executing(t) && Executing(t') && Pledge(ExecEnd(t'.exec)) == 0
  }

  lemma ExecOnMoves(t: Run, e: ExecEvent)
    requires ExecOk(t.sh, t.exec) && (t.sh.stop == Stopped(Lost) ==> t.sh.gone)
    requires ExecStep(t.task, t.sh, t.exec, e).Some? && !t.exec.XEnd?
    ensures var (sh, pc) := ExecStep(t.task, t.sh, t.exec, e).value;
            ExecMoves(t, t.(sh := sh, exec := pc)) && ExecOk(sh, pc)
  {
    hide ExecStep, ExecMoves, ExecOk;
    if t.exec.XBody? || t.exec.XStart? { BodyMoves(t, e); } else { StopMoves(t, e); }
  }

  lemma BodyMoves(t: Run, e: ExecEvent)
    requires ExecOk(t.sh, t.exec) && (t.sh.stop == Stopped(Lost) ==> t.sh.gone)
    requires ExecStep(t.task, t.sh, t.exec, e).Some? && (t.exec.XBody? || t.exec.XStart?)
    ensures var (sh, pc) := ExecStep(t.task, t.sh, t.exec, e).value;
            ExecMoves(t, t.(sh := sh, exec := pc)) && ExecOk(sh, pc)
  {
    hide EndStep;
  }

  lemma StopMoves(t: Run, e: ExecEvent)
    requires ExecOk(t.sh, t.exec) && (t.sh.stop == Stopped(Lost) ==> t.sh.gone)
    requires ExecStep(t.task, t.sh, t.exec, e).Some? && !t.exec.XEnd? && !t.exec.XBody? && !t.exec.XStart?
    ensures var (sh, pc) := ExecStep(t.task, t.sh, t.exec, e).value;
            ExecMoves(t, t.(sh := sh, exec := pc)) && ExecOk(sh, pc)
  {
    hide EndStep;
  }

  lemma ExecMoveKeeps(t: Run, t': Run, r: Role, stopping: bool, held: bool, broken: bool)
    requires RunInv(t, r, stopping) && ExecMoves(t, t') && ExecOk(t'.sh, t'.exec) && !t.exec.XEnd?
    ensures Kept(t, t', r, stopping, held, false, broken)
  {
  }

  lemma ExecEndKeeps(t: Run, e: ExecEvent, r: Role, stopping: bool, held: bool, broken: bool)
    requires RunInv(t, r, stopping) && t.exec.XEnd?
    ensures var (sh, pc) := ExecStep(t.task, t.sh, t.exec, e).value;
            Kept(t, t.(sh := sh, exec := pc), r, stopping, held, t.exec == XEnd(Pop), broken)
  {
  }

  function Next(r: Role, e: End): Role {
    if e.Over? then NoRole else if r.Releases? then Releases(e) else Kills(e)
  }

  /** The main loop's own steps in ending a run; a killed one leaves the worker broken. */
  lemma EndingKeeps(t: Run, r: Role, stopping: bool, held: bool, broken: bool)
    requires RunInv(t, r, stopping) && !r.NoRole?
    ensures var (sh, e') := EndStep(t.task, t.sh, r.end);
            RunInv(t.(sh := sh), Next(r, e'), stopping) && sh.started == t.sh.started
    ensures var (sh, e') := EndStep(t.task, t.sh, r.end);
            HeldInv(t, r, held, broken) ==>
              HeldInv(t.(sh := sh), Next(r, e'), held && !r.end.Pop?, broken || (r.Kills? && e'.Close?))
  {
  }

  lemma MarkKeeps(t: Run, held: bool)
    requires RunInv(t, NoRole, false) && t.sh.ready && !t.sh.started
    ensures var t' := t.(sh := t.sh.(started := true), exec := XStart);
            RunInv(t', NoRole, false) && (HeldInv(t, NoRole, held, false) ==> HeldInv(t', NoRole, held, false))
  {
  }

  // -- what holds of the whole worker ------------------------------------------------------------

  /** No id is handed out twice. */
  predicate DistinctIds(s: State) {
    forall i, j :: 0 <= i < j < |s.runs| ==> s.runs[i].task.id != s.runs[j].task.id
  }

  predicate Ceasing(s: State) { s.draining || s.broken }

  predicate RunsInv(s: State)
    requires Valid(s)
  {
    RunsOk(s) && MainOk(s)
  }

  predicate DispatchingNow(m: MainPc) { m.MWalk? && (m.at.Dispatching? || m.at.Readying? || m.at.Marking?) }

  /** What the main loop has made sure of where it stands. */
  predicate MainOk(s: State)
    requires Valid(s)
  {
    && (s.main.MClaim? ==> !Ceasing(s))
    && (s.main.MWalk? ==>
          && (s.main.at.Giving? || s.main.at.Releasing? ==> Ceasing(s))
          && (s.main.at.Readying? || s.main.at.Marking? ==>
                !Ceasing(s) && var sh := s.runs[s.main.held[s.main.k]].sh; (s.main.at.Marking? ==> sh.ready) && !sh.started)
          && (!(s.main.at.Deciding? || s.main.at.Giving? || s.main.at.Releasing? || DispatchingNow(s.main)) ==>
                forall k :: 0 <= k < |s.main.held| ==> s.runs[s.main.held[k]].sh.started))
  }

  lemma ThreadKeeps(t: Run, a: Action, r: Role, stopping: bool, held: bool, broken: bool)
    requires !a.Main? && RunInv(t, r, stopping) && ThreadStep(t, a).Some?
    ensures var (t', pops) := ThreadStep(t, a).value; Kept(t, t', r, stopping, held, pops, broken)
  {
    match a {
      case Beat(_, reply) => BeatKeeps(t, reply, r, stopping, held, broken);
      case Prep(_, e) => PrepKeeps(t, e, r, stopping, held, broken);
      case Exec(_, e) => ExecKeeps(t, e, r, stopping, held, broken);
      case Main(_) =>
    }
  }

  /** Replacing run i, and removing it from `tasks` or not, keeps the invariant when it does for run i. */
  lemma OneRunKeeps(s: State, s': State, i: nat, r: Role, pops: bool)
    requires Valid(s) && Valid(s') && RunsInv(s) && i < |s.runs|
    requires |s'.runs| == |s.runs| && s'.runs == s.runs[i := s'.runs[i]] && s'.runs[i].task == s.runs[i].task
    requires s'.tasks == if pops then Popped(s.runs, s.tasks, s.runs[i].task.id) else s.tasks
    requires s'.draining == s.draining && (s.broken ==> s'.broken)
    requires RunInv(s'.runs[i], r, Ceasing(s'))
    requires DistinctIds(s) ==> HeldInv(s'.runs[i], r, i in s.tasks && !pops, s'.broken)
    requires forall j :: 0 <= j < |s.runs| ==> RoleIn(s'.main, j) == if j == i then r else RoleIn(s.main, j)
    ensures forall j :: 0 <= j < |s'.runs| ==> RunInv(s'.runs[j], RoleIn(s'.main, j), Ceasing(s'))
    ensures DistinctIds(s') ==>
              forall j :: 0 <= j < |s'.runs| ==> HeldInv(s'.runs[j], RoleIn(s'.main, j), j in s'.tasks, s'.broken)
  {
    hide BeatOk, PrepOk, ExecOk, EndedOnce, Endings, Popped;
    assert forall j :: 0 <= j < |s.runs| ==> s'.runs[j].task == s.runs[j].task;
    forall j | 0 <= j < |s'.runs| ensures RunInv(s'.runs[j], RoleIn(s'.main, j), Ceasing(s')) {
      assert RunInv(s.runs[j], RoleIn(s.main, j), Ceasing(s));
    }
    if DistinctIds(s') {
      assert DistinctIds(s);
      forall j | 0 <= j < |s'.runs| ensures HeldInv(s'.runs[j], RoleIn(s'.main, j), j in s'.tasks, s'.broken) {
        assert HeldInv(s.runs[j], RoleIn(s.main, j), j in s.tasks, s.broken);
        assert j in s'.tasks <==> j in s.tasks && !(pops && j == i);
      }
    }
  }

  lemma ThreadStepKeepsRuns(c: Config, s: State, a: Action)
    requires Valid(s) && RunsInv(s) && !a.Main? && Step(c, s, a).Some?
    ensures RunsInv(Step(c, s, a).value)
  {
    hide BeatStep, PrepStep, ExecStep, RunInv, HeldInv;
    var s' := Step(c, s, a).value;
    var r := RoleIn(s.main, a.i);
    var (t', pops) := ThreadStep(s.runs[a.i], a).value;
    ThreadKeeps(s.runs[a.i], a, r, Ceasing(s), a.i in s.tasks, s.broken);
    OneRunKeeps(s, s', a.i, r, pops);
  }

  /** What RunsInv says of the runs. */
  predicate RunsOk(s: State)
    requires Valid(s)
  {
    && (forall i :: 0 <= i < |s.runs| ==> RunInv(s.runs[i], RoleIn(s.main, i), Ceasing(s)))
    && (DistinctIds(s) ==>
          forall i :: 0 <= i < |s.runs| ==> HeldInv(s.runs[i], RoleIn(s.main, i), i in s.tasks, s.broken))
  }

  lemma EndedRunKeeps(s: State, s': State)
    requires Valid(s) && RunsInv(s) && s.main.MWalk? && (s.main.at.Releasing? || s.main.at.Killing?) && Valid(s')
    requires var i := s.main.held[s.main.k];
             var (s1, e') := MainEnd(s, i, s.main.at.end);
             && s'.runs == s1.runs && s'.tasks == s1.tasks && s'.draining == s.draining
             && s'.broken == (s.broken || (s.main.at.Killing? && e'.Close?))
             && forall j :: 0 <= j < |s.runs| ==>
                  RoleIn(s'.main, j) == if j == i then Next(RoleIn(s.main, i), e') else NoRole
    ensures RunsOk(s')
    ensures forall j :: 0 <= j < |s.runs| ==> s'.runs[j].sh.started == s.runs[j].sh.started
  {
    var i := s.main.held[s.main.k];
    var r := RoleIn(s.main, i);
    EndingKeeps(s.runs[i], r, Ceasing(s), i in s.tasks, s.broken);
    assert RunInv(s'.runs[i], Next(r, EndStep(s.runs[i].task, s.runs[i].sh, r.end).1), Ceasing(s'));
    OneRunKeeps(s, s', i, Next(r, EndStep(s.runs[i].task, s.runs[i].sh, r.end).1), r.end.Pop?);
  }

  /** Steps that leave the runs and `tasks` alone. */
  lemma QuietKeeps(s: State, s': State)
    requires Valid(s) && RunsInv(s) && Valid(s') && s'.runs == s.runs && s'.tasks == s.tasks
    requires s'.broken == s.broken && (s.draining ==> s'.draining)
    requires forall i :: 0 <= i < |s.runs| ==> RoleIn(s.main, i).NoRole? && Enters(s, RoleIn(s'.main, i), i)
    ensures RunsOk(s')
  {
    forall i | 0 <= i < |s'.runs| ensures RunInv(s'.runs[i], RoleIn(s'.main, i), Ceasing(s')) {
      assert RunInv(s.runs[i], RoleIn(s.main, i), Ceasing(s));
    }
    if DistinctIds(s') {
      forall i | 0 <= i < |s'.runs| ensures HeldInv(s'.runs[i], RoleIn(s'.main, i), i in s'.tasks, s'.broken) {
        assert HeldInv(s.runs[i], RoleIn(s.main, i), i in s.tasks, s.broken);
      }
    }
  }

  /** The main loop may stay out of run i's ending, or enter it at its first step. */
  predicate Enters(s: State, r: Role, i: nat)
    requires i < |s.runs|
  {
    || r.NoRole?
    || (r == Releases(TryRelease) && !s.runs[i].sh.started && Ceasing(s))
    || (r.Kills? && r.end.TryReport? && s.runs[i].sh.started)
  }

  lemma NoteOneKeeps(t: Run, stopping: bool, held: bool, broken: bool, at: bool)
    requires RunInv(t, NoRole, stopping)
    ensures RunInv(t.(sh := t.sh.(stop := Stopped(Timeout))), NoRole, stopping)
    ensures RunInv(t.(sh := t.sh.(stopAt := at)), NoRole, stopping)
    ensures HeldInv(t, NoRole, held, broken) ==>
              && HeldInv(t.(sh := t.sh.(stop := Stopped(Timeout))), NoRole, held, broken)
              && HeldInv(t.(sh := t.sh.(stopAt := at)), NoRole, held, broken)
  {
  }

  /** Changing the run at hand without ending it: marking it started, or noting that it must stop. */
  lemma ChangedRunKeeps(s: State, s': State, i: nat)
    requires Valid(s) && RunsInv(s) && Valid(s') && i < |s.runs| == |s'.runs| && s'.runs == s.runs[i := s'.runs[i]]
    requires s'.tasks == s.tasks && s'.draining == s.draining && s'.broken == s.broken
    requires forall j :: 0 <= j < |s.runs| ==> RoleIn(s.main, j).NoRole? && RoleIn(s'.main, j).NoRole?
    requires var t, t' := s.runs[i], s'.runs[i];
             || (t' == t.(sh := t.sh.(started := true), exec := XStart) && !Ceasing(s) && t.sh.ready && !t.sh.started)
             || t' == t.(sh := t.sh.(stop := Stopped(Timeout)))
             || t' == t.(sh := t.sh.(stopAt := t'.sh.stopAt))
    ensures RunsOk(s')
  {
    hide RunInv, HeldInv;
    assert RunInv(s.runs[i], NoRole, Ceasing(s));
    NoteOneKeeps(s.runs[i], Ceasing(s), i in s.tasks, s.broken, s'.runs[i].sh.stopAt);
    if !Ceasing(s) && s.runs[i].sh.ready && !s.runs[i].sh.started { MarkKeeps(s.runs[i], i in s.tasks); }
    OneRunKeeps(s, s', i, NoRole, false);
  }

  lemma TopKeeps(s: State, e: MainEvent)
    requires Valid(s) && RunsInv(s) && TopStep(s, e).Some?
    ensures RunsInv(TopStep(s, e).value)
  {
    hide RunsOk, Enters;
    var s' := TopStep(s, e).value;
    TopEnters(s, e);
    QuietKeeps(s, s');
    TopMain(s, e);
  }

  lemma TopEnters(s: State, e: MainEvent)
    requires Valid(s) && TopStep(s, e).Some?
    ensures forall i :: 0 <= i < |s.runs| ==> RoleIn(s.main, i).NoRole? && Enters(s, RoleIn(TopStep(s, e).value.main, i), i)
  {
  }

  lemma TopMain(s: State, e: MainEvent)
    requires Valid(s) && TopStep(s, e).Some?
    ensures MainOk(TopStep(s, e).value)
  {
  }

  lemma GiveBackKeeps(c: Config, s: State, e: MainEvent)
    requires Valid(s) && RunsInv(s) && s.main.MWalk? && GiveBackStep(c, s, e).Some?
    ensures RunsInv(GiveBackStep(c, s, e).value)
  {
    hide RunInv, HeldInv, RunsOk;
    var s' := GiveBackStep(c, s, e).value;
    if s.main.at.Releasing? {
      EndedRunKeeps(s, s');
    } else {
      QuietKeeps(s, s');
    }
  }

  lemma ClaimKeeps(c: Config, s: State, e: MainEvent)
    requires Valid(s) && RunsInv(s) && ClaimStep(c, s, e).Some?
    ensures RunsInv(ClaimStep(c, s, e).value)
  {
    hide RunInv, HeldInv;
    var s' := ClaimStep(c, s, e).value;
    if s'.runs == s.runs {
      QuietKeeps(s, s');
    } else {
      AddedRunKeeps(s, s', s.main.offers[s.main.next]);
    }
  }

  lemma AddedRunKeeps(s: State, s': State, o: Offer)
    requires Valid(s) && Valid(s') && RunsOk(s) && !s.main.MWalk? && !s'.main.MWalk?
    requires s'.runs == s.runs + [Claimed(o)] && s'.tasks == s.tasks + [|s.runs|]
    requires s'.broken == s.broken && s'.draining == s.draining
    ensures RunsOk(s')
  {
    forall i | 0 <= i < |s'.runs| ensures RunInv(s'.runs[i], NoRole, Ceasing(s')) {
      if i < |s.runs| { assert RunInv(s.runs[i], RoleIn(s.main, i), Ceasing(s)); }
    }
    if DistinctIds(s') {
      assert forall i :: 0 <= i < |s.runs| ==> s.runs[i] == s'.runs[i];
      forall i | 0 <= i < |s'.runs| ensures HeldInv(s'.runs[i], NoRole, i in s'.tasks, s'.broken) {
        if i < |s.runs| { assert HeldInv(s.runs[i], RoleIn(s.main, i), i in s.tasks, s.broken); }
      }
    }
  }

  lemma DispatchKeeps(c: Config, s: State, e: MainEvent)
    requires Valid(s) && RunsInv(s) && s.main.MWalk? && DispatchStep(c, s, e).Some?
    ensures RunsInv(DispatchStep(c, s, e).value)
  {
    hide RunInv, HeldInv, RunsOk;
    var s' := DispatchStep(c, s, e).value;
    if s.main.at.Marking? {
      ChangedRunKeeps(s, s', s.main.held[s.main.k]);
    } else {
      QuietKeeps(s, s');
    }
  }

  lemma WatchKeeps(s: State, e: MainEvent)
    requires Valid(s) && RunsInv(s) && s.main.MWalk? && WatchStep(s, e).Some?
    ensures RunsInv(WatchStep(s, e).value)
  {
    hide RunsOk;
    QuietKeeps(s, WatchStep(s, e).value);
  }

  lemma NoteKeeps(s: State, e: MainEvent)
    requires Valid(s) && RunsInv(s) && s.main.MWalk? && NoteStep(s, e).Some?
    ensures RunsInv(NoteStep(s, e).value)
  {
    hide RunsOk;
    ChangedRunKeeps(s, NoteStep(s, e).value, s.main.held[s.main.k]);
    NoteMain(s, e);
  }

  lemma NoteMain(s: State, e: MainEvent)
    requires Valid(s) && MainOk(s) && s.main.MWalk? && NoteStep(s, e).Some?
    ensures MainOk(NoteStep(s, e).value)
  {
  }

  lemma KillKeeps(s: State, e: MainEvent)
    requires Valid(s) && RunsInv(s) && s.main.MWalk? && KillStep(s, e).Some?
    ensures RunsInv(KillStep(s, e).value)
  {
    hide RunInv, HeldInv, RunsOk;
    var s' := KillStep(s, e).value;
    if s.main.at.Killing? {
      EndedRunKeeps(s, s');
    } else {
      QuietKeeps(s, s');
    }
  }

  lemma StepKeepsRuns(c: Config, s: State, a: Action)
    requires Valid(s) && RunsInv(s) && Step(c, s, a).Some?
    ensures RunsInv(Step(c, s, a).value)
  {
    if !a.Main? {
      ThreadStepKeepsRuns(c, s, a);
    } else if !s.main.MWalk? && !s.main.MClaim? && !s.main.MAdd? {
      TopKeeps(s, a.event);
    } else if !s.main.MWalk? {
      ClaimKeeps(c, s, a.event);
    } else if s.main.at.Deciding? || s.main.at.Giving? || s.main.at.Releasing? {
      GiveBackKeeps(c, s, a.event);
    } else if DispatchingNow(s.main) {
      DispatchKeeps(c, s, a.event);
    } else if s.main.at.StopWriting? || s.main.at.StopSeen? {
      NoteKeeps(s, a.event);
    } else if !s.main.at.Overdue? && !s.main.at.Killing? {
      WatchKeeps(s, a.event);
    } else {
      KillKeeps(s, a.event);
    }
  }

  // -- slots -----------------------------------------------------------------------------------

  predicate SlotsInv(c: Config, s: State)
    requires Valid(s)
  {
    && |StartedAmong(s.runs, s.tasks)| <= c.capacity
    && (s.main.MWalk? ==>
          && (s.main.at.Dispatching? ==> |StartedAmong(s.runs, s.tasks)| <= s.main.at.active)
          && (s.main.at.Readying? || s.main.at.Marking? ==> |StartedAmong(s.runs, s.tasks)| <= s.main.at.active < c.capacity))
  }

  /** What `_claim` may still add, given what pod-control answered. */
  predicate ClaimsInv(c: Config, s: State)
    requires Valid(s)
  {
    && |s.tasks| <= s.claimed
    && (s.main.MWalk? && s.main.at.Deciding? ==> |s.tasks| <= |s.main.held|)
    && (s.main.MLeave? || s.main.MExit? ==> Ceasing(s) || (c.once && s.claimed >= 1))
    && (s.main.MExit? ==> s.tasks == [])
    && (c.polite ==> |s.tasks| + Coming(s.main) <= c.capacity + c.prefetch)
    && (c.polite && c.once ==> s.claimed + Coming(s.main) <= 1)
  }

  lemma SubsetSize(a: set<nat>, b: set<nat>)
    requires a <= b
    ensures |a| <= |b|
  {
    if a != {} {
      var x :| x in a;
      SubsetSize(a - {x}, b - {x});
    }
  }

  predicate MarkingNow(m: MainPc) { m.MWalk? && m.at.Marking? }

  predicate DecidingNow(m: MainPc) { m.MWalk? && m.at.Deciding? }
  /** No claim is being decided on or taken. */
  predicate Idle(m: MainPc) { !m.MClaim? && !m.MAdd? && !DecidingNow(m) && !m.MLeave? && !m.MExit? }

  /** What any step leaves of the runs, of `tasks` and of the flags. */
  predicate Shape(s: State, s': State)
    requires Valid(s) && Valid(s')
  {
    && |s.runs| <= |s'.runs| <= |s.runs| + (if s.main.MAdd? then 1 else 0)
    && s'.claimed == s.claimed + (|s'.runs| - |s.runs|)
    && |s'.tasks| <= |s.tasks| + (|s'.runs| - |s.runs|)
    && (forall i <- s'.tasks :: i in s.tasks || i == |s.runs|)
    && (forall i :: 0 <= i < |s'.runs| ==>
          if i < |s.runs| then
            && s'.runs[i].task == s.runs[i].task
            && s'.runs[i].sh.started == (s.runs[i].sh.started || (s'.main != s.main && MarkingNow(s.main) && s.main.held[s.main.k] == i))
          else !s'.runs[i].sh.started)
    && (s.draining ==> s'.draining) && (s.broken ==> s'.broken)
  }

  lemma ThreadShape(c: Config, s: State, a: Action)
    requires Valid(s) && RunsInv(s) && !a.Main? && Step(c, s, a).Some?
    ensures var s' := Step(c, s, a).value; Shape(s, s') && s'.main == s.main
  {
    ThreadKeeps(s.runs[a.i], a, RoleIn(s.main, a.i), Ceasing(s), true, s.broken);
  }

  lemma TopShape(s: State, e: MainEvent)
    requires Valid(s) && TopStep(s, e).Some?
    ensures var s' := TopStep(s, e).value; Shape(s, s') && s'.runs == s.runs && s'.tasks == s.tasks && s'.main != s.main
  {
  }

  lemma ClaimShape(c: Config, s: State, e: MainEvent)
    requires Valid(s) && ClaimStep(c, s, e).Some?
    ensures Shape(s, ClaimStep(c, s, e).value)
  {
  }

  lemma EndShape(s: State, i: nat, e: End)
    requires Valid(s) && i < |s.runs|
    ensures var s' := MainEnd(s, i, e).0; s'.main == s.main && Shape(s, s')
  {
  }

  lemma GiveBackShape(c: Config, s: State, e: MainEvent)
    requires Valid(s) && s.main.MWalk? && GiveBackStep(c, s, e).Some?
    ensures var s' := GiveBackStep(c, s, e).value; Shape(s, s') && s'.main != s.main && !DispatchingNow(s'.main)
  {
    if s.main.at.Releasing? { EndShape(s, s.main.held[s.main.k], s.main.at.end); }
  }

  lemma DispatchShape(c: Config, s: State, e: MainEvent)
    requires Valid(s) && RunsInv(s) && s.main.MWalk? && DispatchStep(c, s, e).Some?
    ensures var s' := DispatchStep(c, s, e).value; Shape(s, s') && s'.main != s.main && s'.tasks == s.tasks && Idle(s'.main)
  {
  }

  lemma WatchShape(s: State, e: MainEvent)
    requires Valid(s) && s.main.MWalk? && WatchStep(s, e).Some?
    ensures var s' := WatchStep(s, e).value; Shape(s, s') && s'.main != s.main && !DispatchingNow(s'.main) && Idle(s'.main)
  {
  }

  lemma NoteShape(s: State, e: MainEvent)
    requires Valid(s) && s.main.MWalk? && NoteStep(s, e).Some?
    ensures var s' := NoteStep(s, e).value; Shape(s, s') && s'.main != s.main && !DispatchingNow(s'.main) && Idle(s'.main)
  {
  }

  lemma KillShape(s: State, e: MainEvent)
    requires Valid(s) && s.main.MWalk? && KillStep(s, e).Some?
    ensures var s' := KillStep(s, e).value; Shape(s, s') && s'.main != s.main && !DispatchingNow(s'.main) && Idle(s'.main)
  {
    if s.main.at.Killing? { EndShape(s, s.main.held[s.main.k], s.main.at.end); }
  }

  lemma StepShape(c: Config, s: State, a: Action)
    requires Valid(s) && RunsInv(s) && Step(c, s, a).Some?
    ensures Shape(s, Step(c, s, a).value)
  {
    if !a.Main? {
      ThreadShape(c, s, a);
    } else if !s.main.MWalk? && !s.main.MClaim? && !s.main.MAdd? {
      TopShape(s, a.event);
    } else if !s.main.MWalk? {
      ClaimShape(c, s, a.event);
    } else if s.main.at.Deciding? || s.main.at.Giving? || s.main.at.Releasing? {
      GiveBackShape(c, s, a.event);
    } else if DispatchingNow(s.main) {
      DispatchShape(c, s, a.event);
    } else if s.main.at.StopWriting? || s.main.at.StopSeen? {
      NoteShape(s, a.event);
    } else if !s.main.at.Overdue? && !s.main.at.Killing? {
      WatchShape(s, a.event);
    } else {
      KillShape(s, a.event);
    }
  }

  lemma StartedShrinks(s: State, s': State)
    requires Valid(s) && Valid(s') && Shape(s, s')
    ensures (s'.main == s.main || !MarkingNow(s.main)) ==> |StartedAmong(s'.runs, s'.tasks)| <= |StartedAmong(s.runs, s.tasks)|
    ensures |StartedAmong(s'.runs, s'.tasks)| <= |StartedAmong(s.runs, s.tasks)| + 1
  {
    var before, after := StartedAmong(s.runs, s.tasks), StartedAmong(s'.runs, s'.tasks);
    if s'.main == s.main || !MarkingNow(s.main) {
      SubsetSize(after, before);
    } else {
      SubsetSize(after, before + {s.main.held[s.main.k]});
    }
  }

  lemma StepKeepsSlots(c: Config, s: State, a: Action)
    requires Valid(s) && RunsInv(s) && SlotsInv(c, s) && Step(c, s, a).Some?
    ensures SlotsInv(c, Step(c, s, a).value)
  {
    hide RunsInv, GiveBackStep, WatchStep, NoteStep, KillStep, DispatchStep, ThreadStep;
    var s' := Step(c, s, a).value;
    StepShape(c, s, a);
    StartedShrinks(s, s');
    if !a.Main? {
      ThreadShape(c, s, a);
    } else if s.main.MWalk? {
      if DispatchingNow(s.main) { DispatchSlots(c, s, a.event); } else { OtherWalkSlots(c, s, a.event); }
    } else if s.main.MClaim? || s.main.MAdd? {
      ClaimShape(c, s, a.event);
    } else {
      TopShape(s, a.event);
    }
  }

  lemma DispatchSlots(c: Config, s: State, e: MainEvent)
    requires Valid(s) && RunsInv(s) && SlotsInv(c, s) && DispatchingNow(s.main) && DispatchStep(c, s, e).Some?
    ensures SlotsInv(c, DispatchStep(c, s, e).value)
  {
    DispatchShape(c, s, e);
    StartedShrinks(s, DispatchStep(c, s, e).value);
  }

  lemma OtherWalkSlots(c: Config, s: State, e: MainEvent)
    requires Valid(s) && RunsInv(s) && s.main.MWalk? && !DispatchingNow(s.main) && MainStep(c, s, e).Some?
    ensures !DispatchingNow(MainStep(c, s, e).value.main)
  {
    if s.main.at.Deciding? || s.main.at.Giving? || s.main.at.Releasing? {
      GiveBackShape(c, s, e);
    } else if s.main.at.StopWriting? || s.main.at.StopSeen? {
      NoteShape(s, e);
    } else if !s.main.at.Overdue? && !s.main.at.Killing? {
      WatchShape(s, e);
    } else {
      KillShape(s, e);
    }
  }

  /** What the claims still to be added depend on. */
  function Coming(m: MainPc): int {
    if m.MClaim? then m.want else if m.MAdd? then |m.offers| - m.next else 0
  }

  lemma StepKeepsClaims(c: Config, s: State, a: Action)
    requires Valid(s) && RunsInv(s) && ClaimsInv(c, s) && Step(c, s, a).Some?
    ensures ClaimsInv(c, Step(c, s, a).value)
  {
    if !a.Main? {
      ThreadShape(c, s, a);
    } else if s.main.MWalk? {
      WalkClaims(c, s, a.event);
    } else if s.main.MClaim? || s.main.MAdd? {
      OfferClaims(c, s, a.event);
    } else {
      TopClaims(c, s, a.event);
    }
  }

  lemma OfferClaims(c: Config, s: State, e: MainEvent)
    requires Valid(s) && ClaimsInv(c, s) && (s.main.MClaim? || s.main.MAdd?) && ClaimStep(c, s, e).Some?
    ensures ClaimsInv(c, ClaimStep(c, s, e).value)
  {
  }

  lemma TopClaims(c: Config, s: State, e: MainEvent)
    requires Valid(s) && ClaimsInv(c, s) && !s.main.MWalk? && TopStep(s, e).Some?
    ensures ClaimsInv(c, TopStep(s, e).value)
  {
  }

  lemma WalkClaims(c: Config, s: State, e: MainEvent)
    requires Valid(s) && RunsInv(s) && ClaimsInv(c, s) && s.main.MWalk? && MainStep(c, s, e).Some?
    ensures ClaimsInv(c, MainStep(c, s, e).value)
  {
    if s.main.at.Deciding? || s.main.at.Giving? || s.main.at.Releasing? {
      GiveBackShape(c, s, e);
      GiveBackClaims(c, s, e);
    } else {
      OtherWalksIdle(c, s, e);
    }
  }

  lemma OtherWalksIdle(c: Config, s: State, e: MainEvent)
    requires Valid(s) && RunsInv(s) && s.main.MWalk? && MainStep(c, s, e).Some?
    requires !(s.main.at.Deciding? || s.main.at.Giving? || s.main.at.Releasing?)
    ensures var s' := MainStep(c, s, e).value; Shape(s, s') && Idle(s'.main)
  {
    if DispatchingNow(s.main) {
      DispatchShape(c, s, e);
    } else if s.main.at.StopWriting? || s.main.at.StopSeen? {
      NoteShape(s, e);
    } else if !s.main.at.Overdue? && !s.main.at.Killing? {
      WatchShape(s, e);
    } else {
      KillShape(s, e);
    }
  }

  lemma GiveBackClaims(c: Config, s: State, e: MainEvent)
    requires Valid(s) && RunsInv(s) && ClaimsInv(c, s) && s.main.MWalk? && GiveBackStep(c, s, e).Some?
    ensures ClaimsInv(c, GiveBackStep(c, s, e).value)
  {
    if s.main.at.Releasing? { EndShape(s, s.main.held[s.main.k], s.main.at.end); }
  }

  // -- every run of the worker ---------------------------------------------------------------

  /** The state after a schedule that the code can follow. */
  predicate Reaches(c: Config, schedule: seq<Action>, s: State) { Execute(c, Init, schedule) == Some(s) }

  lemma {:induction false} ExecuteKeeps(c: Config, s: State, schedule: seq<Action>)
    requires Valid(s) && RunsInv(s) && SlotsInv(c, s) && ClaimsInv(c, s) && Execute(c, s, schedule).Some?
    ensures var s' := Execute(c, s, schedule).value; RunsInv(s') && SlotsInv(c, s') && ClaimsInv(c, s')
    decreases |schedule|
  {
    if schedule != [] {
      StepKeepsRuns(c, s, schedule[0]);
      StepKeepsSlots(c, s, schedule[0]);
      StepKeepsClaims(c, s, schedule[0]);
      ExecuteKeeps(c, Step(c, s, schedule[0]).value, schedule[1..]);
    }
  }

  lemma ReachedInv(c: Config, schedule: seq<Action>, s: State)
    requires Reaches(c, schedule, s)
    ensures Valid(s) && RunsInv(s) && SlotsInv(c, s) && ClaimsInv(c, s)
  {
    ExecuteKeeps(c, Init, schedule);
  }

  /** In every interleaving at most one ending, a done or a release, is sent for a claim. */
  lemma AtMostOneEnding(c: Config, schedule: seq<Action>, s: State, i: nat)
    requires Reaches(c, schedule, s) && i < |s.runs|
    ensures |s.runs[i].sh.sent| <= 1
  {
    ReachedInv(c, schedule, s);
    assert RunInv(s.runs[i], RoleIn(s.main, i), Ceasing(s));
  }

  /** What is said of a task: nothing but a release before it has started, and never that one failed
      which its app will run itself. */
  lemma EndingsAreRight(c: Config, schedule: seq<Action>, s: State, i: nat, m: Message)
    requires Reaches(c, schedule, s) && i < |s.runs| && m in s.runs[i].sh.sent
    ensures m == Release || (s.runs[i].sh.started && !(s.runs[i].task.fallback && m.outcome.Failed?))
  {
    ReachedInv(c, schedule, s);
    assert RunInv(s.runs[i], RoleIn(s.main, i), Ceasing(s));
    assert MaySay(s.runs[i], m);
  }

  /** `run()` returns only with `tasks` empty, and then every claim has ended: silently only if
      pod-control cancelled it or took its lease, and otherwise with exactly one message, sent by
      then unless the worker is broken and the message is still in the hands of the execute thread. */
  lemma CleanExit(c: Config, schedule: seq<Action>, s: State, i: nat)
    requires Reaches(c, schedule, s) && DistinctIds(s) && s.main.MExit? && i < |s.runs|
    ensures s.tasks == [] && (Ceasing(s) || (c.once && s.claimed >= 1))
    ensures var t := s.runs[i];
            && t.sh.closed && t.sh.beatStop
            && (t.sh.gone || |t.sh.sent| == 1 || (s.broken && t.exec.XEnd? && t.exec.end.Send?))
  {
    ReachedInv(c, schedule, s);
    assert RunInv(s.runs[i], RoleIn(s.main, i), Ceasing(s));
    assert HeldInv(s.runs[i], RoleIn(s.main, i), i in s.tasks, s.broken);
  }

  /** The tasks held never have more than `capacity` started among them. */
  lemma CapacityHolds(c: Config, schedule: seq<Action>, s: State)
    requires Reaches(c, schedule, s)
    ensures |StartedAmong(s.runs, s.tasks)| <= c.capacity
  {
    ReachedInv(c, schedule, s);
  }

  /** Against a control plane that keeps to the number asked for. */
  lemma ClaimsStayWithinSlots(c: Config, schedule: seq<Action>, s: State)
    requires Reaches(c, schedule, s) && c.polite
    ensures |s.tasks| <= c.capacity + c.prefetch
    ensures c.once ==> s.claimed <= 1
  {
    ReachedInv(c, schedule, s);
  }

  /** The claims whose code is running here. */
  function ExecutingNow(s: State): set<nat> {
    set i | 0 <= i < |s.runs| && Executing(s.runs[i])
  }

  /** Those pod-control has cancelled or taken and that have ended here. */
  function EndedAndGone(s: State): set<nat> {
    set i | 0 <= i < |s.runs| && s.runs[i].sh.gone && s.runs[i].sh.closed
  }

  /** Until a handler refuses to stop, no more than `capacity` of the others execute at once. */
  lemma AtMostCapacityExecute(c: Config, schedule: seq<Action>, s: State)
    requires Reaches(c, schedule, s) && DistinctIds(s) && !s.broken
    ensures |ExecutingNow(s) - EndedAndGone(s)| <= c.capacity
  {
    ReachedInv(c, schedule, s);
    var live := ExecutingNow(s) - EndedAndGone(s);
    forall i | i in live ensures i in StartedAmong(s.runs, s.tasks) {
      assert RunInv(s.runs[i], RoleIn(s.main, i), Ceasing(s));
      assert HeldInv(s.runs[i], RoleIn(s.main, i), i in s.tasks, s.broken);
    }
    SubsetSize(live, StartedAmong(s.runs, s.tasks));
  }

  /** Once draining or broken nothing starts any more, and, the reply in hand apart, nothing is claimed. */
  lemma {:induction false} StoppingFreezes(c: Config, s: State, schedule: seq<Action>)
    requires Valid(s) && RunsInv(s) && Ceasing(s) && Execute(c, s, schedule).Some?
    ensures var s' := Execute(c, s, schedule).value;
            && Ceasing(s') && |s.runs| <= |s'.runs|
            && (forall i :: 0 <= i < |s'.runs| ==> (s'.runs[i].sh.started <==> i < |s.runs| && s.runs[i].sh.started))
            && (!s.main.MAdd? ==> |s'.runs| == |s.runs| && s'.claimed == s.claimed)
    decreases |schedule|
  {
    if schedule != [] {
      var s1 := Step(c, s, schedule[0]).value;
      StepKeepsRuns(c, s, schedule[0]);
      StepShape(c, s, schedule[0]);
      if !s.main.MAdd? { NoNewClaims(c, s, schedule[0]); }
      StoppingFreezes(c, s1, schedule[1..]);
    }
  }

  lemma NoNewClaims(c: Config, s: State, a: Action)
    requires Valid(s) && RunsInv(s) && Ceasing(s) && !s.main.MAdd? && Step(c, s, a).Some?
    ensures !Step(c, s, a).value.main.MAdd?
  {
    if !a.Main? {
      ThreadShape(c, s, a);
    } else if !s.main.MWalk? && !s.main.MClaim? && !s.main.MAdd? {
    } else if s.main.MWalk? {
      if s.main.at.Deciding? || s.main.at.Giving? || s.main.at.Releasing? {
        GiveBackNoClaim(c, s, a.event);
      } else {
        OtherWalksIdle(c, s, a.event);
      }
    }
  }

  lemma GiveBackNoClaim(c: Config, s: State, e: MainEvent)
    requires Valid(s) && s.main.MWalk? && GiveBackStep(c, s, e).Some?
    ensures !GiveBackStep(c, s, e).value.main.MAdd?
  {
  }

  lemma NothingStartsOnceStopping(c: Config, before: seq<Action>, s: State, after: seq<Action>, s': State)
    requires Reaches(c, before, s) && Ceasing(s) && Execute(c, s, after) == Some(s')
    ensures Ceasing(s') && |s.runs| <= |s'.runs|
    ensures forall i :: 0 <= i < |s'.runs| ==> (s'.runs[i].sh.started <==> i < |s.runs| && s.runs[i].sh.started)
    ensures !s.main.MAdd? ==> |s'.runs| == |s.runs| && s'.claimed == s.claimed
  {
    ReachedInv(c, before, s);
    StoppingFreezes(c, s, after);
  }

  // -- what does not hold ----------------------------------------------------------------------

  lemma {:induction false} ExecuteOneMore(c: Config, s: State, schedule: seq<Action>, a: Action)
    requires Valid(s) && Execute(c, s, schedule).Some?
    ensures Execute(c, s, schedule + [a]) == Step(c, Execute(c, s, schedule).value, a)
    decreases |schedule|
  {
    if schedule == [] {
      assert schedule + [a] == [a];
      assert Execute(c, s, [a]) == match Step(c, s, a) case None => None case Some(s') => Execute(c, s', []);
    } else {
      assert (schedule + [a])[0] == schedule[0] && (schedule + [a])[1..] == schedule[1..] + [a];
      ExecuteOneMore(c, Step(c, s, schedule[0]).value, schedule[1..], a);
    }
  }

  lemma Then(c: Config, schedule: seq<Action>, s: State, a: Action) returns (schedule': seq<Action>, s': State)
    requires Valid(s) && Reaches(c, schedule, s) && Step(c, s, a).Some?
    ensures Valid(s') && Reaches(c, schedule', s') && s' == Step(c, s, a).value
  {
    ExecuteOneMore(c, Init, schedule, a);
    schedule', s' := schedule + [a], Step(c, s, a).value;
  }

  lemma StartsThere(c: Config)
    ensures Reaches(c, [], Init)
  {
  }

  const One: Config := Config(1, 0, false, true)

  lemma AsksForOne() returns (p: seq<Action>, s: State)
    ensures Valid(s) && Reaches(One, p, s) && s == State([], [], MClaim(1), false, false, 0)
  {
    hide Reaches, Execute;
    p, s := [], Init;
    StartsThere(One);
    p, s := Then(One, p, s, Main(Quiet));
    p, s := Then(One, p, s, Main(Quiet));
    p, s := Then(One, p, s, Main(Happens));
  }

  /** A claim of the first task, up to the start of `_dispatch`. */
  lemma ClaimedOne() returns (p: seq<Action>, s: State)
    ensures Valid(s) && Reaches(One, p, s)
    ensures s == State([Claimed(Offer("a", false))], [0], MDispatchSnap, false, false, 1)
  {
    hide Reaches, Execute;
    p, s := AsksForOne();
    p, s := Then(One, p, s, Main(Reply(false, [Offer("a", false)])));
    p, s := Then(One, p, s, Main(Quiet));
    p, s := Then(One, p, s, Main(Quiet));
  }

  /** A ready task that pod-control has cancelled: its beat thread has read `started` and will drop it. */
  const Cancelling: Run :=
    Run(Offer("a", false), Shared(false, false, true, Stopped(Cancelled), false, false, true, []), BDrop, PDone, XNone)

  const Prepared: Run := Run(Offer("a", false), Fresh.(ready := true), BWait, PDone, XNone)

  lemma PreparedOne() returns (p: seq<Action>, s: State)
    ensures Valid(s) && Reaches(One, p, s) && s == State([Prepared], [0], MDispatchSnap, false, false, 1)
  {
    hide Reaches, Execute;
    p, s := ClaimedOne();
    p, s := Then(One, p, s, Prep(0, Serves));
    p, s := Then(One, p, s, Prep(0, Serves));
  }

  lemma HeardCancel() returns (p: seq<Action>, s: State)
    ensures Valid(s) && Reaches(One, p, s)
    ensures s == State([Prepared.(sh := Prepared.sh.(gone := true), beat := BStop(Cancelled))], [0], MDispatchSnap, false, false, 1)
  {
    hide Reaches, Execute;
    p, s := PreparedOne();
    p, s := Then(One, p, s, Beat(0, StillOurs));
    p, s := Then(One, p, s, Beat(0, Says(Cancelled)));
  }

  lemma CancelledOne() returns (p: seq<Action>, s: State)
    ensures Valid(s) && Reaches(One, p, s) && s == State([Cancelling], [0], MDispatchSnap, false, false, 1)
  {
    hide Reaches, Execute;
    p, s := HeardCancel();
    p, s := Then(One, p, s, Beat(0, StillOurs));
    p, s := Then(One, p, s, Beat(0, StillOurs));
    p, s := Then(One, p, s, Beat(0, StillOurs));
  }

  const Marked: Run := Cancelling.(sh := Cancelling.sh.(started := true), exec := XStart)

  /** The main loop, which has seen nothing of that, starts it. */
  lemma MarkedLate() returns (p: seq<Action>, s: State)
    ensures Valid(s) && Reaches(One, p, s) && s == State([Marked], [0], MWatchSnap, false, false, 1)
  {
    hide Reaches, Execute;
    p, s := CancelledOne();
    assert StartedAmong(s.runs, s.tasks) == {};
    p, s := Then(One, p, s, Main(Quiet));
    p, s := Then(One, p, s, Main(Quiet));
    p, s := Then(One, p, s, Main(Quiet));
    p, s := Then(One, p, s, Main(Quiet));
    p, s := Then(One, p, s, Main(Quiet));
  }

  const Dropped: Run := Marked.(sh := Marked.sh.(closed := true, beatStop := true), beat := BTail)

  /** The drop then takes it out of `tasks`, its execute thread running. */
  lemma DroppedLate() returns (p: seq<Action>, s: State)
    ensures Valid(s) && Reaches(One, p, s) && s == State([Dropped], [], MTop, false, false, 1)
  {
    hide Reaches, Execute;
    p, s := MarkedLate();
    p, s := Then(One, p, s, Beat(0, StillOurs));
    p, s := Then(One, p, s, Beat(0, StillOurs));
    p, s := Then(One, p, s, Beat(0, StillOurs));
    assert s.tasks == [];
    p, s := WatchesNothing(p, s);
  }

  lemma WatchesNothing(p0: seq<Action>, s0: State) returns (p: seq<Action>, s: State)
    requires Valid(s0) && Reaches(One, p0, s0) && s0.main.MWatchSnap? && s0.tasks == []
    ensures Valid(s) && Reaches(One, p, s) && s == s0.(main := MTop)
  {
    hide Reaches, Execute;
    p, s := Then(One, p0, s0, Main(Quiet));
    p, s := Then(One, p, s, Main(Quiet));
  }

  /** And the loop claims again. */
  lemma DroppedRunning(id: string) returns (p: seq<Action>, s: State)
    ensures Valid(s) && Reaches(One, p, s)
    ensures s == State([Dropped, Claimed(Offer(id, false))], [1], MDispatchSnap, false, false, 2)
  {
    hide Reaches, Execute;
    p, s := DroppedLate();
    p, s := Then(One, p, s, Main(Quiet));
    p, s := Then(One, p, s, Main(Quiet));
    p, s := Then(One, p, s, Main(Happens));
    assert s == State([Dropped], [], MClaim(1), false, false, 1);
    p, s := Then(One, p, s, Main(Reply(false, [Offer(id, false)])));
    p, s := Then(One, p, s, Main(Quiet));
    p, s := Then(One, p, s, Main(Quiet));
  }

  /** A capacity of one does not keep two handlers from running: the first, cancelled, is no longer
      counted.  AtMostCapacityExecute is what holds, and its own drop the only way out of the count. */
  lemma TwoExecuteAtCapacityOne() returns (p: seq<Action>, s: State)
    ensures Valid(s) && Reaches(One, p, s) && DistinctIds(s) && !s.broken
    ensures |s.runs| == 2 && Executing(s.runs[0]) && Executing(s.runs[1])
  {
    hide Reaches, Execute;
    p, s := DroppedRunning("b");
    p, s := Then(One, p, s, Prep(1, Serves));
    p, s := Then(One, p, s, Prep(1, Serves));
    assert StartedAmong(s.runs, s.tasks) == {};
    p, s := Then(One, p, s, Main(Quiet));
    p, s := Then(One, p, s, Main(Quiet));
    p, s := Then(One, p, s, Main(Quiet));
    p, s := Then(One, p, s, Main(Quiet));
  }

  /** Were an id handed out again in the same run, `tasks` would lose the second claim when the first
      one's thread ends, and the worker would leave with that claim never ended. */
  lemma ReusedIdIsForgotten() returns (p: seq<Action>, s: State)
    ensures Valid(s) && Reaches(One, p, s) && s.main.MExit? && !s.broken
    ensures |s.runs| == 2 && !s.runs[1].sh.closed && !s.runs[1].sh.gone && s.runs[1].sh.sent == []
  {
    p, s := DroppedRunning("a");
    p, s := ThreadEnds(p, s);
    p, s := LeavesNow(p, s);
  }

  lemma ThreadEnds(p0: seq<Action>, s0: State) returns (p: seq<Action>, s: State)
    requires Valid(s0) && Reaches(One, p0, s0)
    requires s0 == State([Dropped, Claimed(Offer("a", false))], [1], MDispatchSnap, false, false, 2)
    ensures Valid(s) && Reaches(One, p, s)
    ensures s.main == s0.main && s.tasks == [] && |s.runs| == 2 && s.runs[1] == s0.runs[1] && !s.broken
  {
    hide Reaches, Execute;
    p, s := ThreadStops(p0, s0);
    p, s := Then(One, p, s, Exec(0, Raises));
    p, s := Then(One, p, s, Exec(0, Raises));
  }

  lemma ThreadStops(p0: seq<Action>, s0: State) returns (p: seq<Action>, s: State)
    requires Valid(s0) && Reaches(One, p0, s0)
    requires s0 == State([Dropped, Claimed(Offer("a", false))], [1], MDispatchSnap, false, false, 2)
    ensures Valid(s) && Reaches(One, p, s) && s == s0.(runs := [Dropped.(exec := XEnd(Close)), s0.runs[1]])
  {
    p, s := Then(One, p0, s0, Exec(0, NotOurs));
    p, s := Then(One, p, s, Exec(0, Raises));
  }

  lemma LeavesNow(p0: seq<Action>, s0: State) returns (p: seq<Action>, s: State)
    requires Valid(s0) && Reaches(One, p0, s0) && s0.main.MDispatchSnap? && s0.tasks == []
    ensures Valid(s) && Reaches(One, p, s) && s.main.MExit? && s.runs == s0.runs && s.broken == s0.broken
  {
    hide Reaches, Execute;
    p, s := Then(One, p0, s0, Main(Quiet));
    p, s := Then(One, p, s, Main(Quiet));
    p, s := WatchesNothing(p, s);
    p, s := Then(One, p, s, Main(Happens));
    p, s := Then(One, p, s, Main(Quiet));
    p, s := Then(One, p, s, Main(Quiet));
    p, s := Then(One, p, s, Main(Quiet));
    p, s := Then(One, p, s, Main(Quiet));
  }
}

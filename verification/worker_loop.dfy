/** The worker's task protocol: one main loop, and for every claimed task a beat thread, a prepare
    thread and, once dispatched, an execute thread.  They share the run's `closed`, `started` and
    stop reason, and the worker's `tasks`, `draining` and `broken`, and interleave freely.  One
    action below is one lock section, one remote call or one read or write of a shared field; what
    the control plane, the handlers and the clock do is chosen by the action. */
module WorkerLoop {
  import opened Options

  datatype Reason = Cancelled | Lost | Timeout
  datatype StopState = Going | Stopped(reason: Reason)

  datatype Outcome = Succeeded | WasCancelled | Failed(retryable: bool)

  /** What is sent to end a claim.  The retries of one report are one message. */
  datatype Message = Done(outcome: Outcome) | Release

  /** Where a thread stands in the code that ends a task: `_release`, `_report`, `_close`. */
  datatype End =
    | TryRelease              // _release, before the run's lock
    | TryReport(outcome: Outcome)
    | Send(message: Message)  // won the run's lock, the message not yet sent
    | Close                   // _close, before the first line
    | Pop                     // _close, before the worker's lock
    | Over

  datatype BeatPc =
    | BWait | BCall | BStop(r: Reason) | BWrite(r: Reason) | BDecide | BDrop
    | BEnd(end: End) | BTail | BDone

  datatype PrepPc = PStart | PClosed | PStopped | PReady | PEnd(end: End) | PDone

  datatype ExecPc =
    | XNone | XStart | XStop(r: Reason, next: ExecNext) | XWrite(r: Reason, next: ExecNext) | XBody
    | XCancel | XCancelRead | XCancelWrite(s: StopState) | XEnd(end: End) | XDone
  datatype ExecNext = ThenBody | ThenClose

  /** What the threads of one claim share.  `gone` and `sent` are its history: whether pod-control
      has said it is cancelled or no longer ours, and the endings sent for it. */
  datatype Shared = Shared(
    started: bool, closed: bool, ready: bool, stop: StopState, stopAt: bool, beatStop: bool,
    gone: bool, sent: seq<Message>)

  /** One claim: what was offered, the shared fields and where its three threads stand. */
  datatype Run = Run(task: Offer, sh: Shared, beat: BeatPc, prep: PrepPc, exec: ExecPc)

  /** What of a task pod-control hands out matters here: its id, and whether its app runs it itself
      when it fails (`fallback: "app"`). */
  datatype Offer = Offer(id: string, fallback: bool)

  const Fresh: Shared := Shared(false, false, false, Going, false, false, false, [])

  function Claimed(o: Offer): Run { Run(o, Fresh, BWait, PStart, XNone) }

  /** A failure of a task whose app runs it itself is given back, not reported. */
  function Ending(o: Offer, outcome: Outcome): Message {
    if outcome.Failed? && o.fallback then Release else Done(outcome)
  }

  /** One step of the ending code, up to the removal from `tasks`, which the worker does. */
  function EndStep(o: Offer, sh: Shared, e: End): (Shared, End) {
    match e
    case TryRelease => if sh.closed then (sh, Over) else (sh.(closed := true), Send(Release))
    case TryReport(r) => if sh.closed then (sh, Close) else (sh.(closed := true), Send(Ending(o, r)))
    case Send(m) => (sh.(beatStop := true, sent := sh.sent + [m]), Close)
    case Close => (sh.(closed := true, beatStop := true), Pop)
    case Pop => (sh, Over)
    case Over => (sh, Over)
  }

  // -- the threads of one task ---------------------------------------------------------------

  datatype BeatReply = StillOurs | Says(reason: Reason)

  function BeatStep(o: Offer, sh: Shared, pc: BeatPc, reply: BeatReply): Option<(Shared, BeatPc)> {
    match pc
    case BWait => Some((sh, if sh.beatStop then BDone else BCall))
    case BCall =>
      (match reply
       case StillOurs => Some((sh, BTail))
       case Says(r) => if r == Timeout then None else Some((sh.(gone := true), BStop(r))))
    case BStop(r) => Some((sh, if sh.stop.Going? then BWrite(r) else BDecide))
    case BWrite(r) => Some((sh.(stop := Stopped(r)), BDecide))
    case BDecide => Some((sh, if sh.started then BTail else BDrop))
    case BDrop => Some((sh.(closed := true), BEnd(Close)))
    case BEnd(e) =>
      var (sh', e') := EndStep(o, sh, e);
      Some((sh', if e'.Over? then BTail else BEnd(e')))
    case BTail => Some((sh.(stopAt := sh.stopAt || sh.stop.Stopped?), BWait))
    case BDone => None
  }

  /** Refuses stands for a kind not served, no handler, a failed model fetch or a crash. */
  datatype PrepEvent = Serves | Fetches | Refuses

  function PrepStep(o: Offer, sh: Shared, pc: PrepPc, e: PrepEvent): Option<(Shared, PrepPc)> {
    match pc
    case PStart =>
      Some((sh, match e case Serves => PReady case Fetches => PClosed case Refuses => PEnd(TryRelease)))
    case PClosed =>
      Some((sh, if e.Refuses? then PEnd(TryRelease) else if sh.closed then PDone else PStopped))
    case PStopped =>
      Some((sh, if sh.stop.Stopped? then PDone else if e.Refuses? then PEnd(TryRelease) else PReady))
    case PReady => Some((sh.(ready := true), PDone))
    case PEnd(end) =>
      var (sh', e') := EndStep(o, sh, end);
      Some((sh', if e'.Over? then PDone else PEnd(e')))
    case PDone => None
  }

  datatype ExecEvent = Accepted | NotStarted | NotOurs | Hears(reason: Reason) | Raises | Finishes(outcome: Outcome)

  function ExecStep(o: Offer, sh: Shared, pc: ExecPc, e: ExecEvent): Option<(Shared, ExecPc)> {
    match pc
    case XNone => None
    case XStart =>
      (match e
       case Accepted => Some((sh, XBody))
       case NotStarted => Some((sh, XEnd(TryRelease)))
       case NotOurs => Some((sh.(gone := true), XStop(Lost, ThenClose)))
       case _ => None)
    case XStop(r, next) => Some((sh, if sh.stop.Going? then XWrite(r, next) else ResumeAt(next)))
    case XWrite(r, next) => Some((sh.(stop := Stopped(r)), ResumeAt(next)))
    case XBody =>
      (match e
       case Hears(r) => if r == Timeout then None else Some((sh.(gone := true), XStop(r, ThenBody)))
       case Raises => Some((sh, XCancel))
       case Finishes(r) => if r.WasCancelled? then None else Some((sh, XEnd(TryReport(r))))
       case _ => None)
    case XCancel => Some((sh, if sh.stop == Stopped(Lost) then XEnd(Close) else XCancelRead))
    case XCancelRead => Some((sh, XCancelWrite(if sh.stop.Stopped? then sh.stop else Stopped(Cancelled))))
    case XCancelWrite(s) => Some((sh.(stop := s), XEnd(TryReport(WasCancelled))))
    case XEnd(end) =>
      var (sh', e') := EndStep(o, sh, end);
      Some((sh', if e'.Over? then XDone else XEnd(e')))
    case XDone => None
  }

  function ResumeAt(next: ExecNext): ExecPc { if next.ThenBody? then XBody else XEnd(Close) }

  // -- the worker --------------------------------------------------------------------------

  /** `polite` is the assumption that pod-control hands out no more tasks than were asked for. */
  datatype Config = Config(capacity: Slots, prefetch: nat, once: bool, polite: bool)
  type Slots = n: nat | n >= 1 witness 1

  /** Where the main loop stands; MWalk is a loop over a snapshot of `tasks`, at its element k. */
  datatype MainPc =
    | MTop | MSnap | MLeave | MClaim(want: nat) | MAdd(offers: seq<Offer>, next: nat) | MDispatchSnap | MWatchSnap | MExit
    | MWalk(held: seq<nat>, k: nat, at: Visit)
  datatype Visit =
    | Deciding | Giving | Releasing(end: End)
    | Dispatching(active: nat) | Readying(active: nat) | Marking(active: nat)
    | Watching | Stopping | StopWriting | StopSeen | Overdue | Killing(end: End)

  /** `tasks` lists, in claim order, the indices into `runs` of the tasks held. */
  datatype State = State(runs: seq<Run>, tasks: seq<nat>, main: MainPc, draining: bool, broken: bool, claimed: nat)

  const Init: State := State([], [], MTop, false, false, 0)

  /** What the environment decides in a step of the main loop. */
  datatype MainEvent = Quiet | Happens | Reply(draining: bool, offers: seq<Offer>)

  datatype Action =
    | Main(event: MainEvent)
    | Beat(i: nat, reply: BeatReply)
    | Prep(i: nat, prep: PrepEvent)
    | Exec(i: nat, exec: ExecEvent)

  predicate Indices(list: seq<nat>, n: nat) { forall k :: 0 <= k < |list| ==> list[k] < n }

  /** `tasks.pop(id)`. */
  function Popped(runs: seq<Run>, tasks: seq<nat>, id: string): (r: seq<nat>)
    requires Indices(tasks, |runs|)
    ensures |r| <= |tasks| && Indices(r, |runs|)
    ensures forall i :: i in r <==> i in tasks && runs[i].task.id != id
  {
    if tasks == [] then []
    else (if runs[tasks[0]].task.id == id then [] else [tasks[0]]) + Popped(runs, tasks[1..], id)
  }

  predicate Holds(s: State, id: string)
    requires Indices(s.tasks, |s.runs|)
  {
    exists i <- s.tasks :: s.runs[i].task.id == id
  }

  /** Every index the worker holds names a run. */
  predicate Valid(s: State) {
    && Indices(s.tasks, |s.runs|)
    && (s.main.MWalk? ==> Indices(s.main.held, |s.runs|) && s.main.k <= |s.main.held|)
    && (s.main.MWalk? && AtOne(s.main.at) ==> s.main.k < |s.main.held|)
    && (s.main.MAdd? ==> s.main.next <= |s.main.offers|)
  }

  /** The visits that are in the middle of one task. */
  predicate AtOne(v: Visit) { !(v.Deciding? || v.Giving? || v.Dispatching? || v.Watching?) }

  function StartedAmong(runs: seq<Run>, tasks: seq<nat>): set<nat>
    requires Indices(tasks, |runs|)
  {
    set i | i in tasks && runs[i].sh.started
  }

  function Alive(runs: seq<Run>, tasks: seq<nat>): (r: seq<nat>)
    requires Indices(tasks, |runs|)
    ensures Indices(r, |runs|) && forall i <- r :: i in tasks && runs[i].sh.started
  {
    if tasks == [] then []
    else (if runs[tasks[0]].sh.started && !runs[tasks[0]].sh.closed then [tasks[0]] else []) + Alive(runs, tasks[1..])
  }

  /** One step of the ending code taken by the main loop for run i. */
  function MainEnd(s: State, i: nat, e: End): (r: (State, End))
    requires Valid(s) && i < |s.runs|
    ensures |r.0.runs| == |s.runs| && Indices(r.0.tasks, |s.runs|)
  {
    var t := s.runs[i];
    var (sh, e') := EndStep(t.task, t.sh, e);
    (s.(runs := s.runs[i := t.(sh := sh)], tasks := if e.Pop? then Popped(s.runs, s.tasks, t.task.id) else s.tasks), e')
  }

  /** The loop body outside its walks: drain, the snapshots, leaving. */
  function TopStep(s: State, e: MainEvent): (r: Option<State>)
    requires Valid(s)
    ensures r.Some? ==> Valid(r.value) && |s.runs| <= |r.value.runs|
  {
    match s.main
    case MTop => Some(s.(draining := s.draining || e.Happens?, main := MSnap))
    case MSnap => Some(s.(main := MWalk(s.tasks, 0, Deciding)))
    case MLeave => Some(s.(main := if s.tasks == [] then MExit else MDispatchSnap))
    case MDispatchSnap => Some(s.(main := MWalk(s.tasks, 0, Dispatching(|StartedAmong(s.runs, s.tasks)|))))
    case MWatchSnap => Some(s.(main := MWalk(Alive(s.runs, s.tasks), 0, Watching)))
    case _ => None
  }

  /** `_claim`: what pod-control offers, one offer at a time. */
  function ClaimStep(c: Config, s: State, e: MainEvent): (r: Option<State>)
    requires Valid(s)
    ensures r.Some? ==> Valid(r.value) && |s.runs| <= |r.value.runs|
  {
    match s.main
    case MClaim(want) =>
      (match e
       case Reply(d, offers) =>
         if c.polite && |offers| > want then None
         else Some(s.(draining := s.draining || d, main := if offers == [] then MDispatchSnap else MAdd(offers, 0)))
       case _ => Some(s.(main := MDispatchSnap)))
    case MAdd(offers, next) =>
      if next == |offers| then Some(s.(main := MDispatchSnap))
      else if Holds(s, offers[next].id) then Some(s.(main := MAdd(offers, next + 1)))
      else Some(s.(runs := s.runs + [Claimed(offers[next])], tasks := s.tasks + [|s.runs|],
                   claimed := s.claimed + 1, main := MAdd(offers, next + 1)))
    case _ => None
  }

  /** Stop claiming, wait for the one task, or claim; then what has not started is given back. */
  function GiveBackStep(c: Config, s: State, e: MainEvent): (r: Option<State>)
    requires Valid(s) && s.main.MWalk?
    ensures r.Some? ==> Valid(r.value) && |s.runs| == |r.value.runs|
  {
    var m := s.main;
    match m.at
    case Deciding =>
      if s.draining || s.broken then Some(s.(main := m.(at := Giving)))
      else if c.once && s.claimed >= 1 then Some(s.(main := MLeave))
      else
        var want := if c.once then 1 - s.claimed else c.capacity + c.prefetch - |m.held|;
        Some(s.(main := if want > 0 && e.Happens? then MClaim(want) else MDispatchSnap))
    case Giving =>
      if m.k == |m.held| then Some(s.(main := MLeave))
      else if s.runs[m.held[m.k]].sh.started then Some(s.(main := m.(k := m.k + 1)))
      else Some(s.(main := m.(at := Releasing(TryRelease))))
    case Releasing(end) =>
      var (s', e') := MainEnd(s, m.held[m.k], end);
      Some(s'.(main := if e'.Over? then MWalk(m.held, m.k + 1, Giving) else m.(at := Releasing(e'))))
    case _ => None
  }

  /** `_dispatch`: is one task closed, then is it ready; then it is marked and its thread spawned.  `started`,
      `draining` and `broken` are written by the main loop alone. */
  function DispatchStep(c: Config, s: State, e: MainEvent): (r: Option<State>)
    requires Valid(s) && s.main.MWalk?
    ensures r.Some? ==> Valid(r.value) && |s.runs| == |r.value.runs|
  {
    var m := s.main;
    match m.at
    case Dispatching(active) =>
      if m.k == |m.held| || active >= c.capacity || s.draining || s.broken then Some(s.(main := MWatchSnap))
      else
        var sh := s.runs[m.held[m.k]].sh;
        Some(s.(main := if !sh.started && !sh.closed then m.(at := Readying(active)) else m.(k := m.k + 1)))
    case Readying(active) =>
      Some(s.(main := if s.runs[m.held[m.k]].sh.ready then m.(at := Marking(active))
                      else MWalk(m.held, m.k + 1, Dispatching(active))))
    case Marking(active) =>
      var t := s.runs[m.held[m.k]];
      Some(s.(runs := s.runs[m.held[m.k] := t.(sh := t.sh.(started := true), exec := XStart)],
              main := MWalk(m.held, m.k + 1, Dispatching(active + 1))))
    case _ => None
  }

  /** `_watch`: is a task past its timeout; stop() then looks again whether it is already stopped. */
  function WatchStep(s: State, e: MainEvent): (r: Option<State>)
    requires Valid(s) && s.main.MWalk?
    ensures r.Some? ==> Valid(r.value) && |s.runs| == |r.value.runs|
  {
    var m := s.main;
    match m.at
    case Watching =>
      if m.k == |m.held| then Some(s.(main := MTop))
      else Some(s.(main := m.(at := if e.Happens? && s.runs[m.held[m.k]].sh.stop.Going? then Stopping else StopSeen)))
    case Stopping => Some(s.(main := m.(at := if s.runs[m.held[m.k]].sh.stop.Going? then StopWriting else StopSeen)))
    case _ => None
  }

  /** `_watch`: the timeout is written, and when a stop was seen is noted. */
  function NoteStep(s: State, e: MainEvent): (r: Option<State>)
    requires Valid(s) && s.main.MWalk?
    ensures r.Some? ==> Valid(r.value) && |s.runs| == |r.value.runs|
  {
    var m := s.main;
    match m.at
    case StopWriting =>
      var t := s.runs[m.held[m.k]];
      Some(s.(runs := s.runs[m.held[m.k] := t.(sh := t.sh.(stop := Stopped(Timeout)))], main := m.(at := StopSeen)))
    case StopSeen =>
      var t := s.runs[m.held[m.k]];
      Some(s.(runs := s.runs[m.held[m.k] := t.(sh := t.sh.(stopAt := t.sh.stopAt || t.sh.stop.Stopped?))],
              main := m.(at := Overdue)))
    case _ => None
  }

  /** The end of `_watch`: a handler that did not stop in time is reported, and the worker is broken. */
  function KillStep(s: State, e: MainEvent): (r: Option<State>)
    requires Valid(s) && s.main.MWalk?
    ensures r.Some? ==> Valid(r.value) && |s.runs| == |r.value.runs|
  {
    var m := s.main;
    match m.at
    case Overdue =>
      var sh := s.runs[m.held[m.k]].sh;
      if sh.stopAt && e.Happens? then
        var outcome := if sh.stop in {Stopped(Cancelled), Stopped(Lost)} then WasCancelled else Failed(true);
        Some(s.(main := m.(at := Killing(TryReport(outcome)))))
      else Some(s.(main := MWalk(m.held, m.k + 1, Watching)))
    case Killing(end) =>
      var (s', e') := MainEnd(s, m.held[m.k], end);
      Some(s'.(broken := s.broken || e'.Close?,
               main := if e'.Over? then MWalk(m.held, m.k + 1, Watching) else m.(at := Killing(e'))))
    case _ => None
  }

  function MainStep(c: Config, s: State, e: MainEvent): (r: Option<State>)
    requires Valid(s)
    ensures r.Some? ==> Valid(r.value) && |s.runs| <= |r.value.runs|
  {
    if s.main.MWalk? then
      match s.main.at
      case Deciding => GiveBackStep(c, s, e)
      case Giving => GiveBackStep(c, s, e)
      case Releasing(_) => GiveBackStep(c, s, e)
      case Dispatching(_) => DispatchStep(c, s, e)
      case Readying(_) => DispatchStep(c, s, e)
      case Marking(_) => DispatchStep(c, s, e)
      case Overdue => KillStep(s, e)
      case Killing(_) => KillStep(s, e)
      case StopWriting => NoteStep(s, e)
      case StopSeen => NoteStep(s, e)
      case _ => WatchStep(s, e)
    else if s.main.MClaim? || s.main.MAdd? then ClaimStep(c, s, e)
    else TopStep(s, e)
  }

  /** The run after a step of one of its own threads, and whether that step removed it from `tasks`. */
  function ThreadStep(t: Run, a: Action): Option<(Run, bool)> {
    match a
    case Main(_) => None
    case Beat(_, reply) =>
      (match BeatStep(t.task, t.sh, t.beat, reply)
       case None => None
       case Some((sh, pc)) => Some((t.(sh := sh, beat := pc), t.beat == BEnd(Pop))))
    case Prep(_, e) =>
      (match PrepStep(t.task, t.sh, t.prep, e)
       case None => None
       case Some((sh, pc)) => Some((t.(sh := sh, prep := pc), t.prep == PEnd(Pop))))
    case Exec(_, e) =>
      (match ExecStep(t.task, t.sh, t.exec, e)
       case None => None
       case Some((sh, pc)) => Some((t.(sh := sh, exec := pc), t.exec == XEnd(Pop))))
  }

  function Step(c: Config, s: State, a: Action): (r: Option<State>)
    requires Valid(s)
    ensures r.Some? ==> Valid(r.value) && |s.runs| <= |r.value.runs|
  {
    if a.Main? then MainStep(c, s, a.event)
    else if a.i >= |s.runs| then None
    else
      match ThreadStep(s.runs[a.i], a)
      case None => None
      case Some((t, pops)) =>
        Some(s.(runs := s.runs[a.i := t], tasks := if pops then Popped(s.runs, s.tasks, t.task.id) else s.tasks))
  }

  /** Runs a schedule; None when an action of it cannot be taken. */
  function Execute(c: Config, s: State, schedule: seq<Action>): (r: Option<State>)
    requires Valid(s)
    ensures r.Some? ==> Valid(r.value)
    decreases |schedule|
  {
    if schedule == [] then Some(s)
    else
      match Step(c, s, schedule[0])
      case None => None
      case Some(s') => Execute(c, s', schedule[1..])
  }
}

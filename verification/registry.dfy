/** The job registry: a guarded state machine per job, and creation made safe to retry. */
module Registry {
  import opened Options

  datatype State = Queued | Assigned | Running | Done | Failed | Cancelled

  function ParseState(name: string): Option<State> {
    if name == "queued" then Some(Queued)
    else if name == "assigned" then Some(Assigned)
    else if name == "running" then Some(Running)
    else if name == "done" then Some(Done)
    else if name == "failed" then Some(Failed)
    else if name == "cancelled" then Some(Cancelled)
    else None
  }

  /** Which states may follow. */
  function Allowed(s: State): set<State> {
    match s
    case Queued => {Assigned, Cancelled, Failed}
    case Assigned => {Running, Failed, Cancelled}
    case Running => {Done, Failed, Cancelled}
    case Done => {}
    case Failed => {Queued}
    case Cancelled => {}
  }

  datatype Job = Job(key: Option<string>, state: State, runner: Option<string>)

  type Jobs = map<string, Job>

  // -- the transactions, on values ---------------------------------------------------------------

  predicate HasKey(jobs: Jobs, id: string, key: string) { id in jobs && jobs[id].key == Some(key) }

  predicate Taken(jobs: Jobs, key: Option<string>) { key.Some? && exists id <- jobs :: HasKey(jobs, id, key.value) }

  /** A row goes in unless its id or its key is there; any number of rows may have no key. */
  predicate Conflicts(jobs: Jobs, id: string, key: Option<string>) { id in jobs || Taken(jobs, key) }

  predicate CanAssign(jobs: Jobs, id: string) { id in jobs && jobs[id].state.Queued? }

  predicate CanSet(jobs: Jobs, id: string, s: State) {
    id in jobs && (s == jobs[id].state || s in Allowed(jobs[id].state))
  }

  // -- the code -------------------------------------------------------------------------------------

  datatype SetError = UnknownState | NoSuchJob | NotLegal

  class SqliteRegistry {
    var jobs: Jobs

    constructor ()
      ensures jobs == map[]
    {
      jobs := map[];
    }

    method Insert(id: string, key: Option<string>) returns (ok: bool)
      modifies this
      ensures ok <==> !Conflicts(old(jobs), id, key)
      ensures jobs == if ok then old(jobs)[id := Job(key, Queued, None)] else old(jobs)
    {
      ok := !Conflicts(jobs, id, key);
      if ok { jobs := jobs[id := Job(key, Queued, None)]; }
    }

    method ByKey(key: string) returns (id: Option<string>)
      ensures id.Some? ==> HasKey(jobs, id.value, key)
      ensures id.None? ==> !Taken(jobs, Some(key))
    {
      var left := jobs.Keys;
      while left != {}
        invariant left <= jobs.Keys && forall id <- jobs :: id !in left ==> !HasKey(jobs, id, key)
      {
        var row :| row in left;
        if HasKey(jobs, row, key) { return Some(row); }
        left := left - {row};
      }
      id := None;
    }

    /** The row changes only if it is queued at that moment. */
    method Assign(id: string, runner: string) returns (ok: bool)
      modifies this
      ensures ok <==> CanAssign(old(jobs), id)
      ensures jobs == if ok then old(jobs)[id := old(jobs)[id].(state := Assigned, runner := Some(runner))] else old(jobs)
    {
      ok := id in jobs && jobs[id].state.Queued?;
      if ok { jobs := jobs[id := jobs[id].(state := Assigned, runner := Some(runner))]; }
    }

    method SetState(id: string, name: string) returns (error: Option<SetError>)
      modifies this
      ensures error.None? <==> ParseState(name).Some? && CanSet(old(jobs), id, ParseState(name).value)
      ensures error == Some(UnknownState) <==> ParseState(name).None?
      ensures error == Some(NoSuchJob) <==> ParseState(name).Some? && id !in old(jobs)
      ensures jobs == if error.None? then old(jobs)[id := old(jobs)[id].(state := ParseState(name).value)] else old(jobs)
    {
      var s := ParseState(name);
      if s.None? { return Some(UnknownState); }
      if id !in jobs { return Some(NoSuchJob); }
      var now := jobs[id].state;
      if s.value != now && s.value !in Allowed(now) { return Some(NotLegal); }
      jobs := jobs[id := jobs[id].(state := s.value)];
      error := None;
    }

    /** A whole call with nobody in between. */
    method Create(key: Option<string>, fresh_id: string) returns (id: Option<string>)
      modifies this
      ensures id.None? ==> jobs == old(jobs) && fresh_id in old(jobs)
      ensures id.Some? && key.Some? ==> HasKey(jobs, id.value, key.value)
      ensures id.Some? && (key.None? || !Taken(old(jobs), key)) && fresh_id !in old(jobs) ==>
                id.value == fresh_id && jobs == old(jobs)[fresh_id := Job(key, Queued, None)]
      ensures Taken(old(jobs), key) ==> id.Some? && jobs == old(jobs)
    {
      if key.Some? && key.value != "" {
        id := ByKey(key.value);
        if id.Some? { return; }
      }
      var ok := Insert(fresh_id, key);
      if ok { return Some(fresh_id); }
      id := ByKey(if key.Some? then key.value else "");
    }
  }

  // -- every history ------------------------------------------------------------------------------------

  /** A call of `create`: it looks its key up, inserts, and on a conflict looks again; each is a
      transaction of its own, and anything may come between. */
  datatype Pc = Looking | Inserting | Again | Returned(id: string) | Raised
  datatype Call = Call(key: Option<string>, pc: Pc)

  datatype System = System(jobs: Jobs, calls: seq<Call>)

  datatype Event =
    | Begin(key: Option<string>)
    | Look(call: nat, found: Option<string>)
    | Put(call: nat, id: string)
    | Assign(id: string, runner: string)
    | Set(id: string, state: State)

  /** What a lookup may answer. */
  predicate Finds(jobs: Jobs, key: string, found: Option<string>) {
    if found.Some? then HasKey(jobs, found.value, key) else !Taken(jobs, Some(key))
  }

  function Start(key: Option<string>): Call { Call(key, if key.Some? && key.value != "" then Looking else Inserting) }

  predicate Possible(s: System, e: Event) {
    match e
    case Look(c, found) =>
      && c < |s.calls|
      && (s.calls[c].pc.Looking? || s.calls[c].pc.Again?)
      && Finds(s.jobs, if s.calls[c].key.Some? then s.calls[c].key.value else "", found)
    case Put(c, _) => c < |s.calls| && s.calls[c].pc.Inserting?
    case _ => true
  }

  function Moved(s: System, c: nat, pc: Pc): System
    requires c < |s.calls|
  {
    s.(calls := s.calls[c := s.calls[c].(pc := pc)])
  }

  function SystemAfter(s: System, e: Event): System
    requires Possible(s, e)
  {
    match e
    case Begin(key) => s.(calls := s.calls + [Start(key)])
    case Look(c, found) =>
      Moved(s, c, if found.Some? then Returned(found.value) else if s.calls[c].pc.Looking? then Inserting else Raised)
    case Put(c, id) =>
      if Conflicts(s.jobs, id, s.calls[c].key) then Moved(s, c, Again)
      else Moved(s.(jobs := s.jobs[id := Job(s.calls[c].key, Queued, None)]), c, Returned(id))
    case Assign(id, runner) =>
      if CanAssign(s.jobs, id) then s.(jobs := s.jobs[id := s.jobs[id].(state := Assigned, runner := Some(runner))]) else s
    case Set(id, st) =>
      if CanSet(s.jobs, id, st) then s.(jobs := s.jobs[id := s.jobs[id].(state := st)]) else s
  }

  /** The states of a history: one more than its events. */
  ghost predicate History(h: seq<Event>, t: seq<System>) {
    && |t| == |h| + 1 && t[0] == System(map[], [])
    && forall i :: 0 <= i < |h| ==> Possible(t[i], h[i]) && t[i + 1] == SystemAfter(t[i], h[i])
  }

  // -- one key, one job -----------------------------------------------------------------------------------

  predicate KeysUnique(jobs: Jobs) {
    forall a <- jobs, b <- jobs :: jobs[a].key.Some? && jobs[a].key == jobs[b].key ==> a == b
  }

  predicate ReturnsFit(s: System) {
    forall c <- s.calls :: c.pc.Returned? && c.key.Some? ==> HasKey(s.jobs, c.pc.id, c.key.value)
  }

  lemma {:induction false} KeysStayUnique(h: seq<Event>, t: seq<System>, i: nat)
    requires History(h, t) && i < |t|
    ensures KeysUnique(t[i].jobs) && ReturnsFit(t[i])
    decreases i
  {
    if i > 0 {
      KeysStayUnique(h, t, i - 1);
      StepFits(t[i - 1], h[i - 1]);
    }
  }

  lemma StepFits(s: System, e: Event)
    requires Possible(s, e) && KeysUnique(s.jobs) && ReturnsFit(s)
    ensures KeysUnique(SystemAfter(s, e).jobs) && ReturnsFit(SystemAfter(s, e))
  {
    var s' := SystemAfter(s, e);
    forall c | c in s'.calls && c.pc.Returned? && c.key.Some? ensures HasKey(s'.jobs, c.pc.id, c.key.value) {
      assert forall d <- s.calls :: d.pc.Returned? && d.key.Some? ==> HasKey(s'.jobs, d.pc.id, d.key.value);
      var j :| 0 <= j < |s'.calls| && s'.calls[j] == c;
      if j < |s.calls| && s.calls[j] == c { assert s.calls[j] in s.calls; }
    }
  }

  /** Whatever the interleaving, calls with one key that return, return one job, and it has the key. */
  lemma OneKeyOneJob(h: seq<Event>, t: seq<System>, i: nat, c: nat, d: nat)
    requires History(h, t) && i < |t| && c < |t[i].calls| && d < |t[i].calls|
    requires t[i].calls[c].pc.Returned? && t[i].calls[d].pc.Returned?
    requires t[i].calls[c].key.Some? && t[i].calls[c].key == t[i].calls[d].key
    ensures t[i].calls[c].pc.id == t[i].calls[d].pc.id
    ensures HasKey(t[i].jobs, t[i].calls[c].pc.id, t[i].calls[c].key.value)
  {
    KeysStayUnique(h, t, i);
    assert t[i].calls[c] in t[i].calls && t[i].calls[d] in t[i].calls;
  }

  // -- what a call comes to ------------------------------------------------------------------------------

  predicate ActsOn(e: Event, c: nat) { (e.Look? || e.Put?) && e.call == c }

  /** How many transactions a call has left at most. */
  function Left(pc: Pc): nat {
    match pc case Looking => 3 case Inserting => 2 case Again => 1 case _ => 0
  }

  /** Each transaction of a call brings it nearer its end; it begins with a look for its key, if it has one. */
  lemma CallsEnd(h: seq<Event>, t: seq<System>, i: nat, c: nat)
    requires History(h, t) && i < |h| && c < |t[i].calls|
    ensures c < |t[i + 1].calls| && t[i + 1].calls[c].key == t[i].calls[c].key
    ensures if ActsOn(h[i], c) then Left(t[i + 1].calls[c].pc) < Left(t[i].calls[c].pc)
            else t[i + 1].calls[c].pc == t[i].calls[c].pc
    ensures h[i].Begin? ==>
              var made := t[i + 1].calls[|t[i].calls|];
              made.key == h[i].key && (made.pc.Looking? <==> made.key.Some? && made.key.value != "")
  {
    assert t[i + 1] == SystemAfter(t[i], h[i]);
  }

  /** The key of a call is taken, or it has none. */
  predicate KeyTaken(s: System, c: nat)
    requires c < |s.calls|
  {
    s.calls[c].key.Some? && Taken(s.jobs, s.calls[c].key)
  }

  lemma TakenStays(h: seq<Event>, t: seq<System>, i: nat, c: nat)
    requires History(h, t) && i < |h| && c < |t[i].calls| && KeyTaken(t[i], c)
    ensures c < |t[i + 1].calls| && KeyTaken(t[i + 1], c)
  {
    CallsEnd(h, t, i, c);
    JobsMoveLegally(h, t, i);
    var key := t[i].calls[c].key.value;
    var id :| id in t[i].jobs && HasKey(t[i].jobs, id, key);
    assert HasKey(t[i + 1].jobs, id, key);
  }

  /** A call that finds its key taken, or loses it to another, returns that job with its next look: it raises only
      when the id alone was there, and it puts a row in only when its key is free. */
  lemma CallsReturnTheJob(h: seq<Event>, t: seq<System>, i: nat, c: nat)
    requires History(h, t) && i < |h| && c < |t[i].calls| && ActsOn(h[i], c)
    ensures c < |t[i + 1].calls|
    ensures var pc, pc' := t[i].calls[c].pc, t[i + 1].calls[c].pc;
            && (KeyTaken(t[i], c) && (pc.Looking? || pc.Again?) ==>
                  pc'.Returned? && HasKey(t[i].jobs, pc'.id, t[i].calls[c].key.value) && t[i + 1].jobs == t[i].jobs)
            && (KeyTaken(t[i], c) && pc.Inserting? ==> pc'.Again? && t[i + 1].jobs == t[i].jobs)
            && (pc'.Raised? ==> pc.Again? && !KeyTaken(t[i], c))
            && (!KeyTaken(t[i], c) && pc.Inserting? && h[i].id !in t[i].jobs ==>
                  pc' == Returned(h[i].id) && t[i + 1].jobs == t[i].jobs[h[i].id := Job(t[i].calls[c].key, Queued, None)])
  {
    assert t[i + 1] == SystemAfter(t[i], h[i]);
  }

  /** An assign that succeeds names the runner, and nothing else ever does. */
  lemma RunnersAreNamed(h: seq<Event>, t: seq<System>, i: nat, id: string)
    requires History(h, t) && i < |h| && id in t[i].jobs
    ensures id in t[i + 1].jobs
    ensures t[i + 1].jobs[id].runner == if h[i].Assign? && h[i].id == id && t[i].jobs[id].state.Queued? then Some(h[i].runner)
                                        else t[i].jobs[id].runner
  {
    assert t[i + 1] == SystemAfter(t[i], h[i]);
  }

  // -- moves ----------------------------------------------------------------------------------------------

  /** Jobs stay, keep their keys, and move only as allowed. */
  predicate MovesLegally(a: Jobs, b: Jobs) {
    forall id <- a :: id in b && b[id].key == a[id].key && (b[id].state == a[id].state || b[id].state in Allowed(a[id].state))
  }

  lemma JobsMoveLegally(h: seq<Event>, t: seq<System>, i: nat)
    requires History(h, t) && i < |h|
    ensures MovesLegally(t[i].jobs, t[i + 1].jobs)
  {
    assert t[i + 1] == SystemAfter(t[i], h[i]);
  }

  predicate Brings(s: System, e: Event, id: string, st: State) {
    Possible(s, e) && id in SystemAfter(s, e).jobs && SystemAfter(s, e).jobs[id].state == st
  }

  /** The ten edges. */
  predicate MayFollow(now: State, st: State) {
    match now
    case Queued => st.Assigned? || st.Cancelled? || st.Failed?
    case Assigned => st.Running? || st.Cancelled? || st.Failed?
    case Running => st.Done? || st.Cancelled? || st.Failed?
    case Failed => st.Queued?
    case _ => false
  }

  /** Some event brings a job to a state if and only if it is there or an edge leads there from where it is. */
  lemma MovesAreAllowed(s: System, id: string, st: State)
    requires id in s.jobs
    ensures (exists e :: Brings(s, e, id, st)) <==> st == s.jobs[id].state || MayFollow(s.jobs[id].state, st)
  {
    assert st in Allowed(s.jobs[id].state) <==> MayFollow(s.jobs[id].state, st);
    if st == s.jobs[id].state {
      assert Brings(s, Begin(None), id, st);
    } else if st in Allowed(s.jobs[id].state) {
      assert Brings(s, Set(id, st), id, st);
    }
  }

  /** Every state has its name, and no other name is one. */
  lemma StatesAreNamed(name: string, st: State)
    ensures ParseState(name) == Some(st)
            <==> name == match st
                         case Queued => "queued"
                         case Assigned => "assigned"
                         case Running => "running"
                         case Done => "done"
                         case Failed => "failed"
                         case Cancelled => "cancelled"
  {
  }

  /** Done and cancelled jobs never change again. */
  lemma {:induction false} EndingsAreFinal(h: seq<Event>, t: seq<System>, i: nat, j: nat, id: string)
    requires History(h, t) && i <= j < |t| && id in t[i].jobs && t[i].jobs[id].state in {Done, Cancelled}
    ensures id in t[j].jobs && t[j].jobs[id] == t[i].jobs[id]
    decreases j
  {
    if j > i {
      EndingsAreFinal(h, t, i, j - 1, id);
      assert t[j] == SystemAfter(t[j - 1], h[j - 1]);
    }
  }

  lemma {:induction false} JobsStay(h: seq<Event>, t: seq<System>, i: nat, j: nat, id: string)
    requires History(h, t) && i <= j < |t| && id in t[i].jobs
    ensures id in t[j].jobs
    decreases j
  {
    if j > i {
      JobsStay(h, t, i, j - 1, id);
      JobsMoveLegally(h, t, j - 1);
    }
  }

  /** A job that comes to be in a state was put there, from another that allows it. */
  lemma {:induction false} CameTo(h: seq<Event>, t: seq<System>, i: nat, j: nat, id: string, s: State) returns (k: nat)
    requires History(h, t) && i < j < |t| && id in t[i].jobs && id in t[j].jobs
    requires t[i].jobs[id].state != s && t[j].jobs[id].state == s
    ensures i <= k < j && id in t[k].jobs && id in t[k + 1].jobs
    ensures t[k].jobs[id].state != s && t[k + 1].jobs[id].state == s && s in Allowed(t[k].jobs[id].state)
    decreases j
  {
    JobsStay(h, t, i, j - 1, id);
    if t[j - 1].jobs[id].state == s {
      k := CameTo(h, t, i, j - 1, id, s);
    } else {
      k := j - 1;
      JobsMoveLegally(h, t, k);
    }
  }

  predicate Assigns(s: System, e: Event, id: string) { e.Assign? && e.id == id && CanAssign(s.jobs, id) }

  /** Two successful assigns of one job have, in between, its failure and then its re-queueing. */
  lemma NeverAssignedTwice(h: seq<Event>, t: seq<System>, i: nat, j: nat, id: string) returns (u: nat, v: nat)
    requires History(h, t) && i < j < |h| && Assigns(t[i], h[i], id) && Assigns(t[j], h[j], id)
    ensures i < u < v < j
    ensures h[u] == Set(id, Failed) && CanSet(t[u].jobs, id, Failed)
    ensures h[v] == Set(id, Queued) && CanSet(t[v].jobs, id, Queued)
  {
    assert t[i + 1] == SystemAfter(t[i], h[i]);
    v := CameTo(h, t, i + 1, j, id, Queued);
    assert t[v + 1] == SystemAfter(t[v], h[v]);
    u := CameTo(h, t, i + 1, v, id, Failed);
    assert t[u + 1] == SystemAfter(t[u], h[u]);
  }
}

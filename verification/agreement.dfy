/** The snapshot folded from a run's events agrees with what the run did. */
module Agreement {
  import opened Options
  import opened Stages
  import opened Events
  import opened Reporting
  import opened Runners

  // -- the snapshot keeps the last outcome of every stage and of every cell --------------------

  function StagesOf(rows: seq<Row>): map<string, State> {
    if rows == [] then map[]
    else
      var last := rows[|rows| - 1];
      var m := StagesOf(rows[..|rows| - 1]);
      if last.stage.name == "" then m else m[last.stage.name := Ended(last.status)]
  }

  function GridOf(rows: seq<Row>): map<(string, string), State> {
    if rows == [] then map[]
    else
      var last := rows[|rows| - 1];
      var m := GridOf(rows[..|rows| - 1]);
      if last.stage.name == "" || last.chunk == "" then m else m[(last.chunk, last.stage.name) := Ended(last.status)]
  }

  lemma OfMore(rows: seq<Row>, r: Row)
    ensures StagesOf(rows + [r]) == if r.stage.name == "" then StagesOf(rows) else StagesOf(rows)[r.stage.name := Ended(r.status)]
    ensures GridOf(rows + [r])
            == if r.stage.name == "" || r.chunk == "" then GridOf(rows)
               else GridOf(rows)[(r.chunk, r.stage.name) := Ended(r.status)]
  {
    assert (rows + [r])[..|rows|] == rows;
  }

  /** What the snapshot says of the stages that ran, `base` of them before the counting began. */
  predicate Tracks(l: Log, chunk: string) {
    var v := Seen(l.acts);
    && v.counters.chunk == chunk
    && v.counters.index == |l.rows|
    && v.snapshot.stages == StagesOf(l.rows)
    && v.snapshot.grid == GridOf(l.rows)
  }

  predicate IsRunning(v: View, s: Stage, chunk: string) {
    && v.counters.chunk == chunk
    && (s.name != "" ==> s.name in v.snapshot.stages && v.snapshot.stages[s.name] == Running)
    && (s.name != "" && chunk != "" ==> (chunk, s.name) in v.snapshot.grid && v.snapshot.grid[(chunk, s.name)] == Running)
  }

  lemma {:induction false} ProgressOnly(acts: seq<Act>, s: Stage, chunk: string, n: nat)
    requires IsRunning(Seen(acts), s, chunk)
    ensures var v, v' := Seen(acts), Seen(acts + Repeat(Progress(s), n));
            && v'.counters == v.counters
            && v'.snapshot.stages == v.snapshot.stages
            && v'.snapshot.grid == v.snapshot.grid
  {
    hide Seen;
    if n == 0 {
      assert acts + Repeat(Progress(s), n) == acts;
    } else {
      ProgressOnly(acts, s, chunk, n - 1);
      assert acts + Repeat(Progress(s), n) == (acts + Repeat(Progress(s), n - 1)) + [Progress(s)];
      SeenMore(acts + Repeat(Progress(s), n - 1), Progress(s));
    }
  }

  /** A stage's event that is no progress overwrites its entries. */
  function Put(m: map<string, State>, name: string, st: State): map<string, State> {
    if name == "" then m else m[name := st]
  }

  function PutCell(m: map<(string, string), State>, chunk: string, name: string, st: State): map<(string, string), State> {
    if name == "" || chunk == "" then m else m[(chunk, name) := st]
  }

  lemma EventSeen(acts: seq<Act>, a: Act)
    requires a.StageStart? || a.StageDone?
    ensures var v, v' := Seen(acts), Seen(acts + [a]);
            var st := if a.StageStart? then Running else Ended(a.status);
            && v'.counters == Counted(v.counters, a)
            && v'.snapshot.stages == Put(v.snapshot.stages, a.stage.name, st)
            && v'.snapshot.grid == PutCell(v.snapshot.grid, v.counters.chunk, a.stage.name, st)
  {
    SeenMore(acts, a);
    hide Seen;
    var v := Seen(acts);
    var c := Counted(v.counters, a);
    PutByRefresh(v.snapshot, EventOf(c, a).value);
  }

  /** An event that is no progress overwrites the entries of its stage. */
  lemma PutByRefresh(s: Snapshot, ev: Event)
    requires !ev.progress
    ensures Refresh(s, ev).stages == Put(s.stages, ev.stage, ev.state)
    ensures Refresh(s, ev).grid == PutCell(s.grid, ev.chunk, ev.stage, ev.state)
  {
  }

  lemma OneTracks(w: World, o: Asked, s: Stage, chunk: string, l: Log)
    requires Tracks(l, chunk)
    ensures var r := One(w, o, s, chunk, l); !r.1.Thrown? ==> Tracks(r.0, chunk)
    ensures Seen(One(w, o, s, chunk, l).0.acts).counters.total == Seen(l.acts).counters.total
  {
    var c := CallStage(w, l.calls, s, l.artifacts, o.verify);
    StageSeen(l.acts, s, c.progress, c.status);
    if c.status.Some? { OfMore(l.rows, Row(s, chunk, c.status.value)); }
  }

  /** The whole stretch of one stage. */
  lemma StageSeen(acts: seq<Act>, s: Stage, n: nat, status: Option<Status>)
    ensures var began := acts + [StageStart(s)] + Repeat(Progress(s), n);
            Seen(began).counters == Counted(Seen(acts).counters, StageStart(s))
    ensures var began := acts + [StageStart(s)] + Repeat(Progress(s), n);
            status.Some? ==>
              var v, v' := Seen(acts), Seen(began + [StageDone(s, status.value)]);
              && v'.counters == Counted(v.counters, StageStart(s))
              && v'.snapshot.stages == Put(v.snapshot.stages, s.name, Ended(status.value))
              && v'.snapshot.grid == PutCell(v.snapshot.grid, v.counters.chunk, s.name, Ended(status.value))
  {
    hide Seen;
    var started := acts + [StageStart(s)];
    EventSeen(acts, StageStart(s));
    ProgressOnly(started, s, Seen(acts).counters.chunk, n);
    if status.Some? { EventSeen(started + Repeat(Progress(s), n), StageDone(s, status.value)); }
  }

  lemma {:induction false} StagesTrack(w: World, o: Asked, stages: seq<Stage>, chunk: string, l: Log)
    requires Tracks(l, chunk)
    ensures var r := RunStages(w, o, stages, chunk, l); !r.1.Thrown? ==> Tracks(r.0, chunk)
    ensures Seen(RunStages(w, o, stages, chunk, l).0.acts).counters.total == Seen(l.acts).counters.total
    decreases |stages|
  {
    if stages != [] {
      OneTracks(w, o, stages[0], chunk, l);
      var r := One(w, o, stages[0], chunk, l);
      if r.1.Through? { StagesTrack(w, o, stages[1..], chunk, r.0); }
    }
  }

  lemma EnterTracks(w: World, key: string, l: Log)
    requires Tracks(l, "")
    ensures var e := Entered(w, key, l);
            Tracks(e.0, key) && Seen(e.0.acts).counters.total == Seen(l.acts).counters.total
  {
    var e := Entered(w, key, l);
    SeenMore(l.acts, ChunkStart(key));
    SeenMore(l.acts + [ChunkStart(key)], Enter(key));
    assert e.0.acts == l.acts + [ChunkStart(key)] + [Enter(key)];
  }

  lemma LeaveTracks(w: World, key: string, m: (Log, End))
    requires !m.1.Thrown? ==> Tracks(m.0, key)
    ensures var r := Left(w, key, m);
            !r.1.Thrown? ==> Tracks(r.0, "") && Seen(r.0.acts).counters.total == Seen(m.0.acts).counters.total
  {
    SeenMore(m.0.acts, Leave(key));
    SeenMore(m.0.acts + [Leave(key)], ChunkDone(key));
  }

  lemma ChunkTracks(w: World, o: Asked, stages: seq<Stage>, key: string, l: Log)
    requires Tracks(l, "")
    ensures var r := RunChunk(w, o, stages, key, l);
            !r.1.Thrown? ==> Tracks(r.0, "") && Seen(r.0.acts).counters.total == Seen(l.acts).counters.total
  {
    hide Tracks, Seen, Entered, Left, RunStages;
    EnterTracks(w, key, l);
    var e := Entered(w, key, l);
    StagesTrack(w, o, stages, key, e.0);
    LeaveTracks(w, key, RunStages(w, o, stages, key, e.0));
  }

  lemma {:induction false} ChunksTrack(w: World, o: Asked, stages: seq<Stage>, keys: seq<string>, l: Log)
    requires Tracks(l, "")
    ensures var r := RunChunks(w, o, stages, keys, l);
            !r.1.Thrown? ==> Tracks(r.0, "") && Seen(r.0.acts).counters.total == Seen(l.acts).counters.total
    decreases |keys|
  {
    if keys != [] {
      ChunkTracks(w, o, stages, keys[0], l);
      var r := RunChunk(w, o, stages, keys[0], l);
      if r.1.Through? { ChunksTrack(w, o, stages, keys[1..], r.0); }
    }
  }

  // -- which rows there are ------------------------------------------------------------------------

  predicate DistinctNames(stages: seq<Stage>) {
    (forall s <- stages :: s.name != "") && NamesDiffer(stages)
  }

  predicate DistinctKeys(keys: seq<string>) { "" !in keys && Distinct(keys) }

  /** The rows of the first stages of `stages`, in order, under one chunk. */
  predicate Adds(stages: seq<Stage>, chunk: string, before: seq<Row>, after: seq<Row>) {
    && before <= after
    && |after| <= |before| + |stages|
    && forall i :: |before| <= i < |after| ==> after[i].stage == stages[i - |before|] && after[i].chunk == chunk
  }

  lemma {:induction false} StagesAdd(w: World, o: Asked, stages: seq<Stage>, chunk: string, l: Log)
    ensures var r := RunStages(w, o, stages, chunk, l);
            && Adds(stages, chunk, l.rows, r.0.rows)
            && (r.1.Through? ==> |r.0.rows| == |l.rows| + |stages|)
            && (r.1.Broke? ==> !AllFine(r.0.rows))
    decreases |stages|
  {
    if stages != [] {
      var r := One(w, o, stages[0], chunk, l);
      if r.1.Through? {
        StagesAdd(w, o, stages[1..], chunk, r.0);
        var after := RunStages(w, o, stages[1..], chunk, r.0).0.rows;
        assert forall i {:trigger after[i]} ::
            |r.0.rows| <= i < |after| ==> stages[1..][i - |r.0.rows|] == stages[i - |l.rows|];
        assert after[|l.rows|] == r.0.rows[|l.rows|];
      } else if r.1.Broke? {
        assert r.0.rows[|l.rows|] in r.0.rows;
      }
    }
  }

  /** No execution is recorded twice, and no name is both a chunk's and the job's. */
  predicate Proper(rows: seq<Row>) {
    && (forall r <- rows :: r.stage.name != "")
    && (forall i, j :: 0 <= i < j < |rows| ==> (rows[i].chunk, rows[i].stage.name) != (rows[j].chunk, rows[j].stage.name))
    && (forall r <- rows, q <- rows :: r.chunk != "" && q.chunk == "" ==> r.stage.name != q.stage.name)
  }

  lemma ChunkAdds(w: World, o: Asked, stages: seq<Stage>, key: string, l: Log)
    ensures var r := RunChunk(w, o, stages, key, l);
            && Adds(stages, key, l.rows, r.0.rows)
            && (r.1.Through? ==> |r.0.rows| == |l.rows| + |stages|)
            && (r.1.Broke? ==> !AllFine(r.0.rows))
  {
    var e := Entered(w, key, l);
    if !e.1.Thrown? { StagesAdd(w, o, stages, key, e.0); }
  }

  /** What the rows are like once the first chunks are behind. */
  predicate FromChunks(rows: seq<Row>, stages: seq<Stage>, ahead: seq<string>) {
    && Proper(rows)
    && forall r <- rows :: r.chunk != "" && r.chunk !in ahead && r.stage in stages
  }

  lemma {:induction false} ChunksAdd(w: World, o: Asked, stages: seq<Stage>, keys: seq<string>, l: Log)
    requires DistinctNames(stages) && DistinctKeys(keys) && FromChunks(l.rows, stages, keys)
    ensures var r := RunChunks(w, o, stages, keys, l);
            && FromChunks(r.0.rows, stages, [])
            && |r.0.rows| <= |l.rows| + |stages| * |keys|
            && (r.1.Through? ==> |r.0.rows| == |l.rows| + |stages| * |keys|)
            && (r.1.Broke? ==> !AllFine(r.0.rows))
    decreases |keys|
  {
    if keys != [] {
      ChunkAdds(w, o, stages, keys[0], l);
      var r := RunChunk(w, o, stages, keys[0], l);
      ProperGrows(stages, keys[0], l.rows, r.0.rows);
      assert forall k <- keys[1..] :: k != keys[0] && k in keys;
      assert |stages| * |keys| == |stages| * |keys[1..]| + |stages|;
      if r.1.Through? { ChunksAdd(w, o, stages, keys[1..], r.0); }
    }
  }

  lemma ProperGrows(stages: seq<Stage>, chunk: string, before: seq<Row>, after: seq<Row>)
    requires DistinctNames(stages) && Proper(before) && Adds(stages, chunk, before, after)
    requires forall r <- before :: r.chunk != chunk
    requires if chunk != "" then forall r <- before :: r.chunk != "" else forall r <- before, s <- stages :: r.stage.name != s.name
    ensures Proper(after)
    ensures forall r <- after :: r in before || (r.chunk == chunk && r.stage in stages)
  {
    forall r | r in after ensures r in before || (r.chunk == chunk && r.stage in stages) {
      var i :| 0 <= i < |after| && after[i] == r;
      if i < |before| { assert before[i] == r; }
    }
  }

  // -- reading the tables ---------------------------------------------------------------------------

  lemma ProperInit(rows: seq<Row>)
    requires Proper(rows) && rows != []
    ensures Proper(rows[..|rows| - 1])
    ensures forall r :: r in rows <==> r in rows[..|rows| - 1] || r == rows[|rows| - 1]
  {
    var init, last := rows[..|rows| - 1], rows[|rows| - 1];
    assert rows == init + [last];
  }

  lemma {:induction false} StagesTable(rows: seq<Row>)
    requires Proper(rows)
    ensures forall r <- rows :: r.chunk == "" ==> Find(StagesOf(rows), r.stage.name) == Some(Ended(r.status))
    ensures forall name :: name in StagesOf(rows) <==> exists r <- rows :: r.stage.name == name
    decreases |rows|
  {
    if rows != [] {
      ProperInit(rows);
      StagesTable(rows[..|rows| - 1]);
    }
  }

  lemma {:induction false} GridTable(rows: seq<Row>)
    requires Proper(rows)
    ensures forall r <- rows :: r.chunk != "" ==> Find(GridOf(rows), (r.chunk, r.stage.name)) == Some(Ended(r.status))
    ensures forall cell :: cell in GridOf(rows) <==> exists r <- rows :: r.chunk != "" && (r.chunk, r.stage.name) == cell
    decreases |rows|
  {
    if rows != [] {
      ProperInit(rows);
      GridTable(rows[..|rows| - 1]);
    }
  }

  predicate Bad(status: Status) { status.Failed? || status.Unverified? }

  /** The executions that went wrong, as the results have them. */
  function BadRows(rows: seq<Row>): set<(string, string)> {
    set r | r in rows && Bad(r.status) :: (r.chunk, r.stage.name)
  }

  lemma FailuresAreRows(s: Snapshot, rows: seq<Row>)
    requires Proper(rows) && s.stages == StagesOf(rows) && s.grid == GridOf(rows)
    ensures Failures(s) == BadRows(rows)
  {
    forall cell ensures cell in BadRows(rows) ==> cell in Failures(s) {
      if cell in BadRows(rows) { RowIsFailure(s, rows, cell); }
    }
    forall cell ensures cell in Failures(s) ==> cell in BadRows(rows) {
      if cell in Failures(s) { FailureIsRow(s, rows, cell); }
    }
  }

  lemma RowIsFailure(s: Snapshot, rows: seq<Row>, cell: (string, string))
    requires Proper(rows) && s.stages == StagesOf(rows) && s.grid == GridOf(rows)
    requires cell in BadRows(rows)
    ensures cell in Failures(s)
  {
    var r :| r in rows && Bad(r.status) && cell == (r.chunk, r.stage.name);
    GridTable(rows);
    if r.chunk == "" { StagesTable(rows); }
  }

  lemma FailureIsRow(s: Snapshot, rows: seq<Row>, cell: (string, string))
    requires Proper(rows) && s.stages == StagesOf(rows) && s.grid == GridOf(rows)
    requires cell in Failures(s)
    ensures cell in BadRows(rows)
  {
    GridTable(rows);
    if cell !in s.grid {
      StagesTable(rows);
      var r :| r in rows && r.stage.name == cell.1;
      assert r.chunk != "" ==> (r.chunk, r.stage.name) in s.grid;
    }
  }

  // -- the theorem -------------------------------------------------------------------------------------

  predicate Starts(l: Log) { l.acts == [] && l.rows == [] }

  /** A run with its tables, its count and its rows in order. */
  predicate Agrees(r: (Log, End)) {
    && Tracks(r.0, "")
    && Proper(r.0.rows)
    && |r.0.rows| <= Seen(r.0.acts).counters.total
    && (r.1.Through? ==> |r.0.rows| == Seen(r.0.acts).counters.total)
    && (r.1.Broke? ==> !AllFine(r.0.rows))
  }

  lemma BegunTracks(total: nat, l: Log)
    requires Starts(l)
    ensures var began := Begun(total, l);
            Tracks(began, "") && began.rows == [] && Seen(began.acts).counters.total == total
  {
    SeenMore(l.acts, JobStart(total));
  }

  /** Before the verdict. */
  lemma BodyAgrees(w: World, o: Asked, stages: seq<Stage>, keys: seq<string>, l: Log)
    requires Starts(l) && DistinctNames(stages) && DistinctKeys(keys)
    requires !Body(w, o, stages, keys, l).1.Thrown?
    ensures Agrees(Body(w, o, stages, keys, l))
  {
    hide Tracks, Seen;
    if IsChunked(stages, keys) {
      ChunkPartAgrees(w, o, stages, keys, l);
      RestAgrees(w, o, stages, ChunkPart(w, o, stages, keys, l), |Scoped(stages, PerChunk)| * |keys|);
    } else {
      BegunTracks(|stages|, l);
      StagesTrack(w, o, stages, "", Begun(|stages|, l));
      StagesAdd(w, o, stages, "", Begun(|stages|, l));
      ProperGrows(stages, "", [], RunStages(w, o, stages, "", Begun(|stages|, l)).0.rows);
    }
  }

  lemma ChunkPartAgrees(w: World, o: Asked, stages: seq<Stage>, keys: seq<string>, l: Log)
    requires Starts(l) && DistinctNames(stages) && DistinctKeys(keys)
    ensures ChunksDone(stages, ChunkPart(w, o, stages, keys, l), |Scoped(stages, PerChunk)| * |keys|)
  {
    hide Tracks, Seen, RunChunks, Begun;
    var chunked, total := Scoped(stages, PerChunk), Executions(stages, keys);
    ScopedAre(stages, PerChunk);
    BegunTracks(total, l);
    ChunksTrack(w, o, chunked, keys, Begun(total, l));
    ChunksAdd(w, o, chunked, keys, Begun(total, l));
  }

  /** What the chunks leave for the rest; `n` executions were planned on them. */
  predicate ChunksDone(stages: seq<Stage>, m: (Log, End), n: nat) {
    && FromChunks(m.0.rows, Scoped(stages, PerChunk), []) && |m.0.rows| <= n
    && (m.1.Through? ==> |m.0.rows| == n)
    && (m.1.Broke? ==> !AllFine(m.0.rows))
    && (!m.1.Thrown? ==> Tracks(m.0, "") && Seen(m.0.acts).counters.total == n + |Scoped(stages, PerJob)|)
  }

  lemma RestAgrees(w: World, o: Asked, stages: seq<Stage>, m: (Log, End), n: nat)
    requires DistinctNames(stages) && ChunksDone(stages, m, n)
    requires !RestPart(w, o, Scoped(stages, PerJob), m).1.Thrown?
    ensures Agrees(RestPart(w, o, Scoped(stages, PerJob), m))
  {
    hide Tracks, Seen;
    var rest := Scoped(stages, PerJob);
    ScopedAre(stages, PerJob);
    NamesApart(stages);
    if m.1.Through? {
      StagesTrack(w, o, rest, "", m.0);
      StagesAdd(w, o, rest, "", m.0);
      ProperGrows(rest, "", m.0.rows, RunStages(w, o, rest, "", m.0).0.rows);
    }
  }

  lemma NamesApart(stages: seq<Stage>)
    requires DistinctNames(stages)
    ensures forall s <- Scoped(stages, PerChunk), t <- Scoped(stages, PerJob) :: s.name != t.name
  {
    ScopedAre(stages, PerChunk);
    ScopedAre(stages, PerJob);
  }

  /** The log of a finished run, its snapshot and its result tell the same story. */
  lemma SnapshotAgrees(w: World, o: Asked, all: seq<Stage>, keys: seq<string>, l: Log)
    requires Starts(l) && DistinctNames(Planned(all, o.only)) && DistinctKeys(keys)
    requires var r := Run(w, o, all, keys, l).1; r.Some? && r.value.Finished?
    ensures var r := Run(w, o, all, keys, l);
            var done, snapshot := r.0.rows, Seen(r.0.acts).snapshot;
            && done <= r.1.value.rows
            && (forall row <- done :: row.chunk != "" ==>
                  Find(snapshot.grid, (row.chunk, row.stage.name)) == Some(Ended(row.status)))
            && (forall row <- done :: row.chunk == "" ==>
                  Find(snapshot.stages, row.stage.name) == Some(Ended(row.status)))
            && (forall cell <- snapshot.grid :: exists row <- done :: (row.chunk, row.stage.name) == cell)
            && Failures(snapshot) == BadRows(done)
            && (snapshot.job == if r.1.value.ok then Done else JobFailed)
            && snapshot.index == |done| <= snapshot.total
            && (r.1.value.ok ==> |done| == snapshot.total && Failures(snapshot) == {})
  {
    var stages := Planned(all, o.only);
    BodyAgrees(w, o, stages, keys, l);
    var r := Body(w, o, stages, keys, l);
    var ok := !ChunkBroke(w, o, stages, keys, l) && AllFine(r.0.rows);
    SeenMore(r.0.acts, JobDone(ok));
    StagesTable(r.0.rows);
    GridTable(r.0.rows);
    FailuresAreRows(Seen(Run(w, o, all, keys, l).0.acts).snapshot, r.0.rows);
  }

  /** Not so the count: a sink is bound before its stage is counted, so while a stage reports progress the
      snapshot says the stage before it is where the run is, and steps forward again when it ends. */
  lemma ProgressStepsBack(acts: seq<Act>, s: Stage, status: Status)
    ensures var started := acts + [StageStart(s)];
            var n := Seen(acts).counters.index;
            && Seen(started).snapshot.index == n + 1
            && Seen(started + [Progress(s)]).snapshot.index == n
            && Seen(started + [Progress(s)] + [StageDone(s, status)]).snapshot.index == n + 1
  {
    hide Seen, See;
    var started := acts + [StageStart(s)];
    IndexSeen(acts, StageStart(s));
    IndexSeen(started, Progress(s));
    IndexSeen(started + [Progress(s)], StageDone(s, status));
  }

  /** Whether the last act that was reported is progress; the chunk hooks are not reported. */
  predicate ProgressLast(acts: seq<Act>) {
    acts != [] && match acts[|acts| - 1]
                  case Progress(_) => true
                  case Enter(_) => ProgressLast(acts[..|acts| - 1])
                  case Leave(_) => ProgressLast(acts[..|acts| - 1])
                  case _ => false
  }

  /** In any history, the snapshot's index is the number of stages counted if and only if the last thing
      reported is no progress, and one less otherwise. */
  lemma {:induction false} IndexIsBehind(acts: seq<Act>)
    ensures var v := Seen(acts);
            v.snapshot.index == v.counters.index - if ProgressLast(acts) then 1 else 0
    decreases |acts|
  {
    if acts != [] {
      IndexIsBehind(acts[..|acts| - 1]);
    }
  }

  lemma IndexSeen(acts: seq<Act>, a: Act)
    ensures var v, c := Seen(acts + [a]), Counted(Seen(acts).counters, a);
            v.counters == c && (EventOf(c, a).Some? ==> v.snapshot.index == EventOf(c, a).value.index)
  {
    hide Seen;
    SeenMore(acts, a);
  }

  // -- where events belong -----------------------------------------------------------------------------

  /** The chunk whose work is going on: the last to start, until it is done. */
  function Resident(acts: seq<Act>): string {
    if acts == [] then ""
    else match acts[|acts| - 1]
         case ChunkStart(key) => key
         case ChunkDone(_) => ""
         case _ => Resident(acts[..|acts| - 1])
  }

  /** Every event bears the chunk it belongs to; the job's own bear none. */
  lemma {:induction false} EventsBearTheirChunk(acts: seq<Act>, a: Act)
    ensures Seen(acts).counters.chunk == Resident(acts)
    ensures var ev := EventOf(Counted(Seen(acts).counters, a), a);
            match a
            case ChunkStart(key) => ev.Some? && ev.value.chunk == key && ev.value.stage == ""
            case ChunkDone(key) => ev.Some? && ev.value.chunk == key && ev.value.stage == ""
            case StageStart(s) => ev.Some? && ev.value.chunk == Resident(acts) && ev.value.stage == s.name
            case StageDone(s, _) => ev.Some? && ev.value.chunk == Resident(acts) && ev.value.stage == s.name
            case Progress(s) => ev.Some? && ev.value.chunk == Resident(acts) && ev.value.stage == s.name
            case Enter(_) => ev.None?
            case Leave(_) => ev.None?
            case _ => ev.Some? && ev.value.chunk == "" && ev.value.stage == ""
    decreases |acts|
  {
    if acts != [] { EventsBearTheirChunk(acts[..|acts| - 1], a); }
  }

  // -- the job's state on the way -------------------------------------------------------------------------

  /** The last word on the job: it has begun, is done or has failed; a stage that failed says so at once. */
  function JobSays(acts: seq<Act>): JobState {
    if acts == [] then Queued
    else match acts[|acts| - 1]
         case JobStart(_) => InProgress
         case JobDone(ok) => if ok then Done else JobFailed
         case StageDone(_, status) => if status.Failed? then JobFailed else JobSays(acts[..|acts| - 1])
         case _ => JobSays(acts[..|acts| - 1])
  }

  /** The snapshot's job state after any acts is the last word on it. */
  lemma {:induction false} JobStateIsLastWord(acts: seq<Act>)
    ensures Seen(acts).snapshot.job == JobSays(acts)
    decreases |acts|
  {
    if acts != [] { JobStateIsLastWord(acts[..|acts| - 1]); }
  }

  // -- progress that comes late ---------------------------------------------------------------------------

  function RefreshAll(s: Snapshot, evs: seq<Event>): Snapshot {
    if evs == [] then s else Refresh(RefreshAll(s, evs[..|evs| - 1]), evs[|evs| - 1])
  }

  /** Every event is seen at once, at its stage and in its cell: its state, unless it is progress and an ending is
      there; all else stays. */
  lemma EventsAreSeen(s: Snapshot, ev: Event, name: string, cell: (string, string))
    ensures var s' := Refresh(s, ev);
            var kept := (st: Option<State>) => ev.progress && ev.state == Running && st.Some? && st.value.Ended?;
            && Find(s'.stages, name) == (if ev.stage == "" || name != ev.stage || kept(Find(s.stages, name)) then Find(s.stages, name)
                                         else Some(ev.state))
            && Find(s'.grid, cell) == (if ev.stage == "" || ev.chunk == "" || cell != (ev.chunk, ev.stage) || kept(Find(s.grid, cell))
                                       then Find(s.grid, cell) else Some(ev.state))
            && s'.index == ev.index && s'.total == ev.total
  {
  }

  /** However much progress is reported after a stage ended, on whatever chunk, no ending is lost, and
      neither are the failures nor the job's state. */
  lemma {:induction false} LateProgressChangesNoEnding(s: Snapshot, evs: seq<Event>)
    requires forall ev <- evs :: ev.progress && ev.state == Running && ev.jobState.None?
    ensures var s' := RefreshAll(s, evs);
            && (forall name <- s.stages :: s.stages[name].Ended? ==> Find(s'.stages, name) == Some(s.stages[name]))
            && (forall cell <- s.grid :: s.grid[cell].Ended? ==> Find(s'.grid, cell) == Some(s.grid[cell]))
            && s'.job == s.job
    decreases |evs|
  {
    if evs != [] {
      assert evs[|evs| - 1] in evs;
      LateProgressChangesNoEnding(s, evs[..|evs| - 1]);
    }
  }
}

/** The order of a chunked run: each chunk entered, worked, left and announced before the next, and
    nothing reduced over a hole. */
module ChunkOrder {
  import opened Options
  import opened Stages
  import opened Runners

  // -- brackets -----------------------------------------------------------------------------------

  datatype Phase = Between | Announced(key: string) | Resident(key: string) | Published(key: string) | Wrong

  /** What may follow what: a chunk's stages run while it is resident, the job's while none is. */
  function Follow(p: Phase, a: Act): Phase {
    match a
    case ChunkStart(key) => if p.Between? then Announced(key) else Wrong
    case Enter(key) => if p == Announced(key) then Resident(key) else Wrong
    case Leave(key) => if p == Resident(key) then Published(key) else Wrong
    case ChunkDone(key) => if p == Published(key) then Between else Wrong
    case StageStart(s) => if if s.scope.PerChunk? then p.Resident? else p.Between? then p else Wrong
    case _ => p
  }

  function PhaseAfter(acts: seq<Act>): Phase {
    if acts == [] then Between else Follow(PhaseAfter(acts[..|acts| - 1]), acts[|acts| - 1])
  }

  /** The chunks entered, in order. */
  function Entries(acts: seq<Act>): seq<string> {
    if acts == [] then []
    else Entries(acts[..|acts| - 1]) + (match acts[|acts| - 1] case Enter(key) => [key] case _ => [])
  }

  lemma More(acts: seq<Act>, a: Act)
    ensures PhaseAfter(acts + [a]) == Follow(PhaseAfter(acts), a)
    ensures Entries(acts + [a]) == Entries(acts) + (match a case Enter(key) => [key] case _ => [])
  {
    assert (acts + [a])[..|acts|] == acts;
  }

  lemma {:induction false} ProgressKeepsPhase(acts: seq<Act>, s: Stage, n: nat)
    ensures PhaseAfter(acts + Repeat(Progress(s), n)) == PhaseAfter(acts)
    ensures Entries(acts + Repeat(Progress(s), n)) == Entries(acts)
  {
    if n == 0 {
      assert acts + Repeat(Progress(s), n) == acts;
    } else {
      ProgressKeepsPhase(acts, s, n - 1);
      hide PhaseAfter, Entries;
      assert acts + Repeat(Progress(s), n) == (acts + Repeat(Progress(s), n - 1)) + [Progress(s)];
      More(acts + Repeat(Progress(s), n - 1), Progress(s));
    }
  }

  predicate Fits(p: Phase, s: Stage) { if s.scope.PerChunk? then p.Resident? else p.Between? }

  lemma OneKeepsPhase(w: World, o: Asked, s: Stage, chunk: string, l: Log)
    requires Fits(PhaseAfter(l.acts), s)
    ensures var r := One(w, o, s, chunk, l);
            PhaseAfter(r.0.acts) == PhaseAfter(l.acts) && Entries(r.0.acts) == Entries(l.acts)
  {
    var c := CallStage(w, l.calls, s, l.artifacts, o.verify);
    More(l.acts, StageStart(s));
    ProgressKeepsPhase(l.acts + [StageStart(s)], s, c.progress);
    if c.status.Some? {
      More(l.acts + [StageStart(s)] + Repeat(Progress(s), c.progress), StageDone(s, c.status.value));
    }
  }

  lemma {:induction false} StagesKeepPhase(w: World, o: Asked, stages: seq<Stage>, chunk: string, l: Log)
    requires forall s <- stages :: Fits(PhaseAfter(l.acts), s)
    ensures var r := RunStages(w, o, stages, chunk, l);
            PhaseAfter(r.0.acts) == PhaseAfter(l.acts) && Entries(r.0.acts) == Entries(l.acts)
    decreases |stages|
  {
    if stages != [] {
      OneKeepsPhase(w, o, stages[0], chunk, l);
      var r := One(w, o, stages[0], chunk, l);
      if r.1.Through? { StagesKeepPhase(w, o, stages[1..], chunk, r.0); }
    }
  }

  /** A chunk still resident is the last one entered, and the last call was of its enter hook, which raised. */
  ghost predicate ItsEnterThrew(w: World, l: Log) {
    var p, entries := PhaseAfter(l.acts), Entries(l.acts);
    p.Resident? ==>
      && entries != [] && entries[|entries| - 1] == p.key
      && exists a :: EnterThrew(w, p.key, a, l)
  }

  /** The last call was of the enter hook, with these artifacts, and it raised. */
  predicate EnterThrew(w: World, key: string, a: Artifacts, l: Log) {
    l.calls > 0 && var e := w.enter(l.calls - 1, key, a); Threw(e) && l.artifacts == e.after
  }

  /** How a chunk ends: done with, or inside the hook that raised. */
  predicate EndsWell(end: End, p: Phase, key: string) {
    if end.Thrown? then p in {Resident(key), Published(key), Between} else p.Between?
  }

  lemma ChunkIsBracketed(w: World, o: Asked, stages: seq<Stage>, key: string, l: Log)
    requires PhaseAfter(l.acts).Between? && forall s <- stages :: s.scope.PerChunk?
    ensures var r := RunChunk(w, o, stages, key, l);
            && EndsWell(r.1, PhaseAfter(r.0.acts), key)
            && Entries(r.0.acts) == Entries(l.acts) + [key]
            && ItsEnterThrew(w, r.0)
  {
    var e := Entered(w, key, l);
    Opens(l.acts, key);
    if e.1.Thrown? {
      assert EnterThrew(w, key, l.artifacts, e.0);
    } else {
      StagesKeepPhase(w, o, stages, key, e.0);
      Closes(RunStages(w, o, stages, key, e.0).0.acts, key);
    }
  }

  lemma Opens(acts: seq<Act>, key: string)
    requires PhaseAfter(acts).Between?
    ensures PhaseAfter(acts + [ChunkStart(key), Enter(key)]) == Resident(key)
    ensures Entries(acts + [ChunkStart(key), Enter(key)]) == Entries(acts) + [key]
  {
    More(acts, ChunkStart(key));
    More(acts + [ChunkStart(key)], Enter(key));
    assert acts + [ChunkStart(key), Enter(key)] == acts + [ChunkStart(key)] + [Enter(key)];
  }

  lemma Closes(acts: seq<Act>, key: string)
    requires PhaseAfter(acts) == Resident(key)
    ensures PhaseAfter(acts + [Leave(key)]) == Published(key) && Entries(acts + [Leave(key)]) == Entries(acts)
    ensures PhaseAfter(acts + [Leave(key)] + [ChunkDone(key)]) == Between
    ensures Entries(acts + [Leave(key)] + [ChunkDone(key)]) == Entries(acts)
  {
    More(acts, Leave(key));
    More(acts + [Leave(key)], ChunkDone(key));
  }

  lemma {:induction false} ChunksAreBracketed(w: World, o: Asked, stages: seq<Stage>, keys: seq<string>, l: Log)
    requires PhaseAfter(l.acts).Between? && forall s <- stages :: s.scope.PerChunk?
    ensures var r := RunChunks(w, o, stages, keys, l);
            && !PhaseAfter(r.0.acts).Wrong? && !PhaseAfter(r.0.acts).Announced?
            && (!r.1.Thrown? ==> PhaseAfter(r.0.acts).Between?)
            && Entries(l.acts) <= Entries(r.0.acts) <= Entries(l.acts) + keys
            && (r.1.Through? ==> Entries(r.0.acts) == Entries(l.acts) + keys)
            && ItsEnterThrew(w, r.0)
    decreases |keys|
  {
    if keys != [] {
      ChunkIsBracketed(w, o, stages, keys[0], l);
      var r := RunChunk(w, o, stages, keys[0], l);
      assert Entries(l.acts) + keys == Entries(r.0.acts) + keys[1..];
      if r.1.Through? { ChunksAreBracketed(w, o, stages, keys[1..], r.0); }
    }
  }

  /** In a chunked run the chunks are entered in order, each left and announced as done before the next
      and before the job's own stages; one is left resident only when its own enter hook raised. */
  lemma EveryEnteredChunkIsLeft(w: World, o: Asked, all: seq<Stage>, keys: seq<string>, l: Log)
    requires l.acts == [] && Wired(all, Present(l.artifacts)) && IsChunked(Planned(all, o.only), keys)
    ensures var r := Run(w, o, all, keys, l);
            var p := PhaseAfter(r.0.acts);
            && Entries(r.0.acts) <= keys
            && !p.Wrong? && !p.Announced?
            && (r.1.Some? ==> p.Between?)
            && ItsEnterThrew(w, r.0)
            && (r.1.Some? && !r.1.value.aborted ==> Entries(r.0.acts) == keys)
  {
    hide RunStages, RunChunks, PhaseAfter, Entries, Executions;
    var stages := Planned(all, o.only);
    ChunkPartIsBracketed(w, o, stages, keys, l);
    var m := ChunkPart(w, o, stages, keys, l);
    ScopedAre(stages, PerJob);
    RestKeepsPhase(w, o, Scoped(stages, PerJob), m);
    var b := RestPart(w, o, Scoped(stages, PerJob), m);
    More(b.0.acts, JobDone(!m.1.Broke? && AllFine(b.0.rows)));
  }

  lemma ChunkPartIsBracketed(w: World, o: Asked, stages: seq<Stage>, keys: seq<string>, l: Log)
    requires l.acts == []
    ensures var m := ChunkPart(w, o, stages, keys, l);
            var p := PhaseAfter(m.0.acts);
            && Entries(m.0.acts) <= keys
            && !p.Wrong? && !p.Announced?
            && (!m.1.Thrown? ==> p.Between?)
            && ItsEnterThrew(w, m.0)
            && (m.1.Through? ==> Entries(m.0.acts) == keys)
  {
    hide RunChunks, Executions;
    var total := Executions(stages, keys);
    ScopedAre(stages, PerChunk);
    More(l.acts, JobStart(total));
    ChunksAreBracketed(w, o, Scoped(stages, PerChunk), keys, Begun(total, l));
  }

  lemma RestKeepsPhase(w: World, o: Asked, rest: seq<Stage>, m: (Log, End))
    requires forall s <- rest :: s.scope.PerJob?
    requires m.1.Through? ==> PhaseAfter(m.0.acts).Between?
    ensures var r := RestPart(w, o, rest, m);
            PhaseAfter(r.0.acts) == PhaseAfter(m.0.acts) && Entries(r.0.acts) == Entries(m.0.acts)
  {
    if m.1.Through? { StagesKeepPhase(w, o, rest, "", m.0); }
  }

  // -- no reducing over a hole -----------------------------------------------------------------------

  /** A chunk whose work went wrong and was not optional. */
  predicate IsHole(r: Row) { r.stage.scope.PerChunk? && !r.stage.optional && !Fine(r.status) }

  predicate Whole(rows: seq<Row>) { forall r <- rows :: !IsHole(r) }

  predicate NoJobStage(acts: seq<Act>) { forall a <- acts :: a.StageStart? ==> a.stage.scope.PerChunk? }

  lemma {:induction false} RepeatIs(a: Act, n: nat)
    ensures forall b <- Repeat(a, n) :: b == a
  {
    if n > 0 { RepeatIs(a, n - 1); }
  }

  lemma {:induction false} StagesAndHoles(w: World, o: Asked, stages: seq<Stage>, chunk: string, l: Log)
    requires o.stop && Whole(l.rows)
    ensures var r := RunStages(w, o, stages, chunk, l);
            && (r.1.Through? ==> Whole(r.0.rows))
            && ((forall s <- stages :: s.scope.PerJob?) ==> Whole(r.0.rows))
            && ((forall s <- stages :: s.scope.PerChunk?) && r.1.Broke? ==> !Whole(r.0.rows))
            && ((forall s <- stages :: s.scope.PerChunk?) && NoJobStage(l.acts) ==> NoJobStage(r.0.acts))
    decreases |stages|
  {
    if stages != [] {
      var r := One(w, o, stages[0], chunk, l);
      RepeatIs(Progress(stages[0]), CallStage(w, l.calls, stages[0], l.artifacts, o.verify).progress);
      if r.1.Broke? {
        assert r.0.rows[|l.rows|] in r.0.rows;
      }
      if r.1.Through? { StagesAndHoles(w, o, stages[1..], chunk, r.0); }
    }
  }

  lemma {:induction false} ChunksAndHoles(w: World, o: Asked, stages: seq<Stage>, keys: seq<string>, l: Log)
    requires o.stop && Whole(l.rows) && NoJobStage(l.acts) && forall s <- stages :: s.scope.PerChunk?
    ensures var r := RunChunks(w, o, stages, keys, l);
            && NoJobStage(r.0.acts)
            && (r.1.Through? ==> Whole(r.0.rows))
            && (r.1.Broke? ==> !Whole(r.0.rows))
    decreases |keys|
  {
    if keys != [] {
      var e := Entered(w, keys[0], l);
      if !e.1.Thrown? { StagesAndHoles(w, o, stages, keys[0], e.0); }
      var r := RunChunk(w, o, stages, keys[0], l);
      if r.1.Through? { ChunksAndHoles(w, o, stages, keys[1..], r.0); }
    }
  }

  /** Stopping on failure, a stage of the job runs only when no chunk has a hole, and the run is marked
      as aborted exactly when one has; it then says so of every stage it did not run. */
  lemma NothingReducesOverAHole(w: World, o: Asked, all: seq<Stage>, keys: seq<string>, l: Log)
    requires o.stop && l.acts == [] && l.rows == []
    requires Wired(all, Present(l.artifacts)) && IsChunked(Planned(all, o.only), keys)
    ensures var r := Run(w, o, all, keys, l);
            var rest := Scoped(Planned(all, o.only), PerJob);
            && ((exists a <- r.0.acts :: a.StageStart? && a.stage.scope.PerJob?) ==> Whole(r.0.rows))
            && (r.1.Some? ==> (r.1.value.aborted <==> !Whole(r.0.rows)))
            && (r.1.Some? && r.1.value.aborted ==>
                  !r.1.value.ok && r.1.value.rows == r.0.rows + seq(|rest|, i requires 0 <= i < |rest| => Row(rest[i], "", Skipped)))
  {
    var stages := Planned(all, o.only);
    var m := ChunkPart(w, o, stages, keys, l);
    ChunkPartAndHoles(w, o, stages, keys, l);
    RestAndHoles(w, o, stages, m);
    var acts := RestPart(w, o, Scoped(stages, PerJob), m).0.acts;
    forall a | a in Run(w, o, all, keys, l).0.acts && a.StageStart? ensures a in acts { }
  }

  lemma ChunkPartAndHoles(w: World, o: Asked, stages: seq<Stage>, keys: seq<string>, l: Log)
    requires o.stop && l.acts == [] && l.rows == []
    ensures var m := ChunkPart(w, o, stages, keys, l);
            NoJobStage(m.0.acts) && (m.1.Through? ==> Whole(m.0.rows)) && (m.1.Broke? ==> !Whole(m.0.rows))
  {
    hide RunChunks, Executions;
    ScopedAre(stages, PerChunk);
    ChunksAndHoles(w, o, Scoped(stages, PerChunk), keys, Begun(Executions(stages, keys), l));
  }

  lemma RestAndHoles(w: World, o: Asked, stages: seq<Stage>, m: (Log, End))
    requires o.stop && NoJobStage(m.0.acts) && (m.1.Through? ==> Whole(m.0.rows)) && (m.1.Broke? ==> !Whole(m.0.rows))
    ensures var r := RestPart(w, o, Scoped(stages, PerJob), m);
            && (NoJobStage(r.0.acts) || Whole(r.0.rows))
            && (!r.1.Thrown? ==> (m.1.Broke? <==> !Whole(r.0.rows)))
  {
    ScopedAre(stages, PerJob);
    if m.1.Through? { StagesAndHoles(w, o, Scoped(stages, PerJob), "", m.0); }
  }
}

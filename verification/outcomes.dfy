/** What a status and an ok result are worth, whatever the stages do. */
module Outcomes {
  import opened Options
  import opened Stages
  import opened Runners

  /** Every stage that is recorded as ok has what it declared. */
  predicate Produced(l: Log) {
    forall r <- l.rows :: r.status.Ok? ==> forall key <- r.stage.makes ::
      key in l.artifacts && l.artifacts[key] != Nothing && l.artifacts[key] != Collection(0)
  }

  predicate Grows(l: Log, m: Log) {
    Present(l.artifacts) <= Present(m.artifacts) && l.rows <= m.rows && (Produced(l) ==> Produced(m))
  }

  lemma MoreKeepsAll(a: Artifacts, b: Artifacts, keys: seq<string>)
    requires Present(a) <= Present(b) && HasAll(a, keys)
    ensures HasAll(b, keys)
  {
    assert forall key <- keys :: key in Present(a);
  }

  lemma OneProduces(w: World, o: Asked, s: Stage, chunk: string, l: Log)
    requires KeepsArtifacts(w) && DefaultVerify(w) && o.verify
    ensures Grows(l, One(w, o, s, chunk, l).0)
  {
    var m := One(w, o, s, chunk, l).0;
    assert Present(l.artifacts) <= Present(m.artifacts);
    if Produced(l) {
      forall r | r in m.rows && r.status.Ok? ensures HasAll(m.artifacts, r.stage.makes) {
        if r in l.rows { MoreKeepsAll(l.artifacts, m.artifacts, r.stage.makes); }
      }
    }
  }

  lemma {:induction false} StagesProduce(w: World, o: Asked, stages: seq<Stage>, chunk: string, l: Log)
    requires KeepsArtifacts(w) && DefaultVerify(w) && o.verify
    ensures Grows(l, RunStages(w, o, stages, chunk, l).0)
    decreases |stages|
  {
    hide KeepsArtifacts, DefaultVerify, One;
    if stages != [] {
      OneProduces(w, o, stages[0], chunk, l);
      var r := One(w, o, stages[0], chunk, l);
      if r.1.Through? { StagesProduce(w, o, stages[1..], chunk, r.0); }
    }
  }

  /** Going on without new rows. */
  lemma MoreArtifacts(l: Log, m: Log)
    requires Present(l.artifacts) <= Present(m.artifacts) && l.rows == m.rows
    ensures Grows(l, m)
  {
    if Produced(l) {
      forall r | r in m.rows && r.status.Ok? ensures HasAll(m.artifacts, r.stage.makes) {
        MoreKeepsAll(l.artifacts, m.artifacts, r.stage.makes);
      }
    }
  }

  lemma ChunkProduces(w: World, o: Asked, stages: seq<Stage>, key: string, l: Log)
    requires KeepsArtifacts(w) && DefaultVerify(w) && o.verify
    ensures Grows(l, RunChunk(w, o, stages, key, l).0)
  {
    hide DefaultVerify, RunStages, Produced;
    var e := Entered(w, key, l);
    MoreArtifacts(l, e.0);
    StagesProduce(w, o, stages, key, e.0);
    var m := RunStages(w, o, stages, key, e.0);
    MoreArtifacts(m.0, Left(w, key, m).0);
  }

  lemma {:induction false} ChunksProduce(w: World, o: Asked, stages: seq<Stage>, keys: seq<string>, l: Log)
    requires KeepsArtifacts(w) && DefaultVerify(w) && o.verify
    ensures Grows(l, RunChunks(w, o, stages, keys, l).0)
    decreases |keys|
  {
    hide KeepsArtifacts, DefaultVerify, RunChunk;
    if keys != [] {
      ChunkProduces(w, o, stages, keys[0], l);
      var r := RunChunk(w, o, stages, keys[0], l);
      if r.1.Through? { ChunksProduce(w, o, stages, keys[1..], r.0); }
    }
  }

  /** No stage reports success and produces nothing: in a verified run, chunked or not, wired or not,
      stopped or not, whatever is recorded as ok is there at the end, with everything it declared. */
  lemma OkMeansProduced(w: World, o: Asked, all: seq<Stage>, keys: seq<string>, l: Log)
    requires KeepsArtifacts(w) && DefaultVerify(w) && o.verify && l.rows == []
    ensures Produced(Run(w, o, all, keys, l).0)
  {
    hide KeepsArtifacts, DefaultVerify, RunStages, RunChunks;
    var stages := Planned(all, o.only);
    if IsChunked(stages, keys) {
      var began := Begun(Executions(stages, keys), l);
      ChunksProduce(w, o, Scoped(stages, PerChunk), keys, began);
      var m := ChunkPart(w, o, stages, keys, l);
      if m.1.Through? { StagesProduce(w, o, Scoped(stages, PerJob), "", m.0); }
    } else {
      StagesProduce(w, o, stages, "", Begun(|stages|, l));
    }
  }

  // -- without verification --------------------------------------------------------------------------

  predicate NoneOk(rows: seq<Row>) { forall r <- rows :: !r.status.Ok? }

  lemma {:induction false} StagesUnverified(w: World, o: Asked, stages: seq<Stage>, chunk: string, l: Log)
    requires !o.verify && NoneOk(l.rows)
    ensures NoneOk(RunStages(w, o, stages, chunk, l).0.rows)
    decreases |stages|
  {
    if stages != [] {
      var r := One(w, o, stages[0], chunk, l);
      if r.1.Through? { StagesUnverified(w, o, stages[1..], chunk, r.0); }
    }
  }

  lemma {:induction false} ChunksUnverified(w: World, o: Asked, stages: seq<Stage>, keys: seq<string>, l: Log)
    requires !o.verify && NoneOk(l.rows)
    ensures NoneOk(RunChunks(w, o, stages, keys, l).0.rows)
    decreases |keys|
  {
    if keys != [] {
      StagesUnverified(w, o, stages, keys[0], Entered(w, keys[0], l).0);
      var r := RunChunk(w, o, stages, keys[0], l);
      if r.1.Through? { ChunksUnverified(w, o, stages, keys[1..], r.0); }
    }
  }

  /** A run without verification is ok only when every stage it came to was skipped. */
  lemma UnverifiedIsNotOk(w: World, o: Asked, all: seq<Stage>, keys: seq<string>, l: Log)
    requires !o.verify && l.rows == []
    ensures var r := Run(w, o, all, keys, l);
            r.1.Some? && r.1.value.Finished? && r.1.value.ok ==> forall row <- r.1.value.rows :: row.status.Skipped?
  {
    hide RunStages, RunChunks;
    var stages := Planned(all, o.only);
    if IsChunked(stages, keys) {
      ChunksUnverified(w, o, Scoped(stages, PerChunk), keys, Begun(Executions(stages, keys), l));
      var m := ChunkPart(w, o, stages, keys, l);
      if m.1.Through? { StagesUnverified(w, o, Scoped(stages, PerJob), "", m.0); }
    } else {
      StagesUnverified(w, o, stages, "", Begun(|stages|, l));
    }
  }
}

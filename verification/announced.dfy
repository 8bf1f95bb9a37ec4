/** What it means that a chunked run announces a chunk as done, with the exit hook that publishes. */
module Announcing {
  import opened Options
  import opened Stages
  import opened Runners
  import EJ = ExecuteJob

  /** The exit hook never raises, as `Hooks.Leave` does not. */
  ghost predicate LeaveReturns(w: World) { forall n, key, a :: !Threw(w.leave(n, key, a)) }

  /** The disk and the store between the acts of a run: leaving a chunk does what `Hooks.Leave` does,
      announcing it nothing; everything else may do anything. */
  predicate Places(m: EJ.Mount, corpus: string, acts: seq<Act>, at: seq<(EJ.Disk, EJ.Store)>) {
    && |at| == |acts| + 1
    && forall i :: 0 <= i < |acts| ==>
         && (acts[i].Leave? ==> at[i + 1] == EJ.Left(m, at[i].0, at[i].1, corpus))
         && (acts[i].ChunkDone? ==> at[i + 1] == at[i])
  }

  lemma AnnouncedLast(w: World, o: Asked, stages: seq<Stage>, key: string, l: Log)
    requires LeaveReturns(w) && !Entered(w, key, l).1.Thrown?
    ensures var acts := RunChunk(w, o, stages, key, l).0.acts;
            var n := |acts|;
            n >= 2 && acts[n - 2] == Leave(key) && acts[n - 1] == ChunkDone(key)
  {
    hide RunStages, Entered;
  }

  /** A chunk that was entered is always announced as done.  When it is, the store holds all of its trees
      if and only if each of their files was sent or was in the store before. */
  lemma AnnouncedMeansSent(w: World, o: Asked, stages: seq<Stage>, key: string, l: Log, m: EJ.Mount, corpus: string,
                           at: seq<(EJ.Disk, EJ.Store)>)
    requires LeaveReturns(w) && !Entered(w, key, l).1.Thrown?
    requires Places(m, corpus, RunChunk(w, o, stages, key, l).0.acts, at)
    ensures var acts := RunChunk(w, o, stages, key, l).0.acts;
            var n := |acts|;
            && n >= 2 && acts[n - 1] == ChunkDone(key)
            && var (disk, st) := at[n - 2];
            && (EJ.AllHeld(m, disk, at[n].1, corpus) <==> EJ.AllSent(m, disk, st, corpus))
            && (EJ.RaiseLeavesBehind(m, disk, st, corpus) ==>
                  (EJ.AllHeld(m, disk, at[n].1, corpus)
                   <==> !EJ.AnyRaises(m, disk, EJ.Trees(corpus)) && forall d <- EJ.Trees(corpus) :: EJ.PassedOverHeld(m, disk, st, d)))
  {
    hide RunStages, RunChunk, Entered, EJ.Left, EJ.AllHeld, EJ.AllSent, EJ.RaiseLeavesBehind, EJ.AnyRaises, EJ.PassedOverHeld;
    AnnouncedLast(w, o, stages, key, l);
    var n := |RunChunk(w, o, stages, key, l).0.acts|;
    EJ.HeldIsSent(m, at[n - 2].0, at[n - 2].1, corpus);
  }

  /** A run in which nothing is published and the chunk is announced all the same. */
  lemma FailedPublishIsAnnounced(w: World, o: Asked, stages: seq<Stage>, key: string, l: Log, m: EJ.Mount, corpus: string,
                                 files: EJ.Files, at: seq<(EJ.Disk, EJ.Store)>)
    requires LeaveReturns(w) && !Entered(w, key, l).1.Thrown?
    requires m.publishes && m.upload(EJ.WorkTree) == EJ.Raised({}) && files != map[]
    requires Places(m, corpus, RunChunk(w, o, stages, key, l).0.acts, at)
    requires |at| >= 3 && at[|at| - 3] == (map[EJ.Work := files], map[])
    ensures var acts := RunChunk(w, o, stages, key, l).0.acts;
            acts[|acts| - 1] == ChunkDone(key) && at[|acts|] == (map[EJ.Work := files], map[])
  {
    hide RunStages, RunChunk, Entered, EJ.Left;
    AnnouncedLast(w, o, stages, key, l);
    EJ.NothingSent(m, files, map[], corpus);
  }
}

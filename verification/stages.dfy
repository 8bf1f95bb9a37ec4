/** Stages with declared inputs and outputs, and what one call of a stage comes to. */
module Stages {
  import opened Options

  datatype Scope = PerChunk | PerJob

  datatype Stage = Stage(name: string, scope: Scope, needs: seq<string>, makes: seq<string>, optional: bool)

  /** An artifact: `None`, something with a length, or anything else. */
  datatype Value = Nothing | Collection(len: nat) | Plain

  type Artifacts = map<string, Value>

  datatype Status = Ok | Skipped | Failed | Unverified

  /** An empty collection does not satisfy a requirement. */
  predicate Has(a: Artifacts, key: string) {
    key in a && a[key] != Nothing && (a[key].Collection? ==> a[key].len > 0)
  }

  function Present(a: Artifacts): set<string> { set key | key in a && Has(a, key) }

  predicate HasAll(a: Artifacts, keys: seq<string>) { forall key <- keys :: Has(a, key) }

  /** What foreign code does when called: its answer, or an exception (`Escapes` is one that
      `except Exception` lets through), the artifacts it leaves and the progress it reports. */
  datatype Reply = Yes | No | Raises | Escapes
  datatype Effect = Effect(reply: Reply, after: Artifacts, progress: nat)

  /** The stages' own code and the chunk hooks; the number tells one call from another. */
  datatype World = World(
    check: (nat, Stage, Artifacts) -> Effect,
    execute: (nat, Stage, Artifacts) -> Effect,
    verify: (nat, Stage, Artifacts) -> Effect,
    enter: (nat, string, Artifacts) -> Effect,
    leave: (nat, string, Artifacts) -> Effect)

  /** A call of a stage: no status when an exception comes out of it. */
  datatype Called = Called(status: Option<Status>, after: Artifacts, progress: nat)

  function CallStage(w: World, n: nat, s: Stage, a: Artifacts, verify: bool): Called {
    var c := w.check(n, s, a);
    if c.reply.Raises? || c.reply.Escapes? then Called(None, c.after, c.progress)
    else if c.reply.No? then Called(Some(Skipped), c.after, c.progress)
    else
      var e := w.execute(n, s, c.after);
      var progress := c.progress + e.progress;
      if e.reply.Escapes? then Called(None, e.after, progress)
      else if e.reply.Raises? then Called(Some(Failed), e.after, progress)
      else if !verify then Called(Some(Unverified), e.after, progress)
      else
        var v := w.verify(n, s, e.after);
        match v.reply
        case Yes => Called(Some(Ok), v.after, progress + v.progress)
        case No => Called(Some(Failed), v.after, progress + v.progress)
        case _ => Called(None, v.after, progress + v.progress)
  }

  /** What a run does, as its reporter and its chunk hooks are told. */
  datatype Act =
    | JobStart(total: nat) | JobDone(ok: bool)
    | ChunkStart(key: string) | Enter(key: string) | Leave(key: string) | ChunkDone(key: string)
    | StageStart(stage: Stage) | Progress(stage: Stage) | StageDone(stage: Stage, status: Status)

  /** The check and the verification a stage has unless it brings its own. */
  ghost predicate DefaultCheck(w: World) {
    forall n, s, a :: w.check(n, s, a) == Effect(if HasAll(a, s.needs) then Yes else No, a, 0)
  }

  ghost predicate DefaultVerify(w: World) {
    forall n, s, a :: w.verify(n, s, a) == Effect(if HasAll(a, s.makes) then Yes else No, a, 0)
  }

  /** Nobody removes or empties an artifact: not the stages, not their checks, not the hooks. */
  ghost predicate KeepsArtifacts(w: World) {
    && (forall n, s, a :: Present(a) <= Present(w.check(n, s, a).after))
    && (forall n, s, a :: Present(a) <= Present(w.execute(n, s, a).after))
    && (forall n, key, a :: Present(a) <= Present(w.enter(n, key, a).after))
    && (forall n, key, a :: Present(a) <= Present(w.leave(n, key, a).after))
  }
}

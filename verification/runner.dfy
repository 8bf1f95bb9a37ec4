/** The runner: wiring, then the stages in order; chunk-scoped ones once per chunk, the rest after. */
module Runners {
  import opened Options
  import opened Stages
  import opened Reporting

  // -- wiring -----------------------------------------------------------------------------------

  function Elements(keys: seq<string>): set<string> { set key | key in keys }

  /** What the stages before the i-th have declared, with what was given. */
  function Available(stages: seq<Stage>, given: set<string>): set<string> {
    if stages == [] then given else Available(stages[..|stages| - 1], given) + Elements(stages[|stages| - 1].makes)
  }

  predicate Met(stages: seq<Stage>, given: set<string>, i: nat)
    requires i < |stages|
  {
    Elements(stages[i].needs) <= Available(stages[..i], given)
  }

  /** Every artifact a stage declares to make, stage by stage. */
  function Made(stages: seq<Stage>): seq<string> {
    if stages == [] then [] else Made(stages[..|stages| - 1]) + stages[|stages| - 1].makes
  }

  predicate Distinct<T(==)>(xs: seq<T>) { forall i, j :: 0 <= i < j < |xs| ==> xs[i] != xs[j] }

  /** Every need is made earlier or given, and nothing is made twice. */
  predicate Wired(stages: seq<Stage>, given: set<string>) {
    && (forall i :: 0 <= i < |stages| ==> Met(stages, given, i))
    && Distinct(Made(stages))
  }

  // -- a run, on values -------------------------------------------------------------------------

  /** How a run is asked for; `only` is empty or the one stage to run. */
  datatype Asked = Asked(verify: bool, stop: bool, only: string)

  datatype Row = Row(stage: Stage, chunk: string, status: Status)

  /** A run so far: the artifacts, the calls made, what was done and the results. */
  datatype Log = Log(artifacts: Artifacts, calls: nat, acts: seq<Act>, rows: seq<Row>)

  datatype End = Through | Broke | Thrown

  predicate Fine(status: Status) { status.Ok? || status.Skipped? }

  predicate Breaks(o: Asked, s: Stage, status: Status) { !Fine(status) && o.stop && !s.optional }

  function Repeat(a: Act, n: nat): seq<Act> { if n == 0 then [] else Repeat(a, n - 1) + [a] }

  /** One stage. */
  function One(w: World, o: Asked, s: Stage, chunk: string, l: Log): (Log, End) {
    var c := CallStage(w, l.calls, s, l.artifacts, o.verify);
    var acts := l.acts + [StageStart(s)] + Repeat(Progress(s), c.progress);
    if c.status.None? then (Log(c.after, l.calls + 1, acts, l.rows), Thrown)
    else
      (Log(c.after, l.calls + 1, acts + [StageDone(s, c.status.value)], l.rows + [Row(s, chunk, c.status.value)]),
       if Breaks(o, s, c.status.value) then Broke else Through)
  }

  function RunStages(w: World, o: Asked, stages: seq<Stage>, chunk: string, l: Log): (Log, End) {
    if stages == [] then (l, Through)
    else
      var r := One(w, o, stages[0], chunk, l);
      if r.1.Through? then RunStages(w, o, stages[1..], chunk, r.0) else r
  }

  predicate Threw(e: Effect) { e.reply.Raises? || e.reply.Escapes? }

  function Entered(w: World, key: string, l: Log): (Log, End) {
    var e := w.enter(l.calls, key, l.artifacts);
    (Log(e.after, l.calls + 1, l.acts + [ChunkStart(key), Enter(key)], l.rows), if Threw(e) then Thrown else Through)
  }

  /** The `finally` of a chunk, however its stages ended. */
  function Left(w: World, key: string, r: (Log, End)): (Log, End) {
    var l := r.0;
    var e := w.leave(l.calls, key, l.artifacts);
    var acts := l.acts + [Leave(key)];
    if Threw(e) then (Log(e.after, l.calls + 1, acts, l.rows), Thrown)
    else (Log(e.after, l.calls + 1, acts + [ChunkDone(key)], l.rows), r.1)
  }

  function RunChunk(w: World, o: Asked, stages: seq<Stage>, key: string, l: Log): (Log, End) {
    var r := Entered(w, key, l);
    if r.1.Thrown? then r else Left(w, key, RunStages(w, o, stages, key, r.0))
  }

  function RunChunks(w: World, o: Asked, stages: seq<Stage>, keys: seq<string>, l: Log): (Log, End) {
    if keys == [] then (l, Through)
    else
      var r := RunChunk(w, o, stages, keys[0], l);
      if r.1.Through? then RunChunks(w, o, stages, keys[1..], r.0) else r
  }

  function Planned(stages: seq<Stage>, only: string): seq<Stage> {
    if stages == [] then []
    else
      var last := stages[|stages| - 1];
      Planned(stages[..|stages| - 1], only) + if only == "" || last.name == only then [last] else []
  }

  function Scoped(stages: seq<Stage>, scope: Scope): seq<Stage> {
    if stages == [] then []
    else
      var last := stages[|stages| - 1];
      Scoped(stages[..|stages| - 1], scope) + if last.scope == scope then [last] else []
  }

  function Begun(total: nat, l: Log): Log { l.(acts := l.acts + [JobStart(total)]) }

  predicate NamesDiffer(stages: seq<Stage>) { forall i, j :: 0 <= i < j < |stages| ==> stages[i].name != stages[j].name }

  lemma {:induction false} ScopedAre(stages: seq<Stage>, scope: Scope)
    ensures forall s <- Scoped(stages, scope) :: s in stages && s.scope == scope
    ensures NamesDiffer(stages) ==> NamesDiffer(Scoped(stages, scope))
    decreases |stages|
  {
    if stages != [] {
      var init := stages[..|stages| - 1];
      ScopedAre(init, scope);
      assert forall s <- init :: s in stages;
      assert NamesDiffer(stages) ==> forall s <- init :: s.name != stages[|stages| - 1].name;
      assert NamesDiffer(stages) ==> NamesDiffer(init);
    }
  }

  /** The chunk-scoped stages over the chunks. */
  function ChunkPart(w: World, o: Asked, stages: seq<Stage>, keys: seq<string>, l: Log): (Log, End) {
    RunChunks(w, o, Scoped(stages, PerChunk), keys, Begun(Executions(stages, keys), l))
  }

  /** How many executions a chunked run plans. */
  function Executions(stages: seq<Stage>, keys: seq<string>): nat {
    |Scoped(stages, PerChunk)| * |keys| + |Scoped(stages, PerJob)|
  }

  /** The rest, unless a chunk broke. */
  function RestPart(w: World, o: Asked, rest: seq<Stage>, r: (Log, End)): (Log, End) {
    if r.1.Through? then RunStages(w, o, rest, "", r.0) else r
  }

  function RunChunked(w: World, o: Asked, stages: seq<Stage>, keys: seq<string>, l: Log): (Log, End) {
    RestPart(w, o, Scoped(stages, PerJob), ChunkPart(w, o, stages, keys, l))
  }

  function Uninterrupted(w: World, o: Asked, stages: seq<Stage>, l: Log): (Log, End) {
    RunStages(w, o, stages, "", Begun(|stages|, l))
  }

  predicate IsChunked(stages: seq<Stage>, keys: seq<string>) { Scoped(stages, PerChunk) != [] && |keys| > 1 }

  /** What `run` hands back.  `aborted` is set when a chunk broke. */
  datatype Result = Miswired | Finished(ok: bool, rows: seq<Row>, aborted: bool)

  /** Whether a chunk broke: then the rest is recorded as skipped, without being run. */
  function ChunkBroke(w: World, o: Asked, stages: seq<Stage>, keys: seq<string>, l: Log): bool {
    IsChunked(stages, keys) && ChunkPart(w, o, stages, keys, l).1.Broke?
  }

  function NotRun(stages: seq<Stage>): seq<Row> { seq(|stages|, i requires 0 <= i < |stages| => Row(stages[i], "", Skipped)) }

  predicate AllFine(rows: seq<Row>) { forall row <- rows :: Fine(row.status) }

  /** The stages, without the wiring before and the verdict after. */
  function Body(w: World, o: Asked, stages: seq<Stage>, keys: seq<string>, l: Log): (Log, End) {
    if IsChunked(stages, keys) then RunChunked(w, o, stages, keys, l) else Uninterrupted(w, o, stages, l)
  }

  /** A whole run; no result when an exception comes out of it. */
  function Run(w: World, o: Asked, all: seq<Stage>, keys: seq<string>, l: Log): (Log, Option<Result>) {
    if !Wired(all, Present(l.artifacts)) then (l.(acts := l.acts + [JobDone(false)]), Some(Miswired))
    else
      var stages := Planned(all, o.only);
      var r := Body(w, o, stages, keys, l);
      if r.1.Thrown? then (r.0, None)
      else
        var aborted := ChunkBroke(w, o, stages, keys, l);
        var ok := !aborted && AllFine(r.0.rows);
        (r.0.(acts := r.0.acts + [JobDone(ok)]),
         Some(Finished(ok, r.0.rows + (if aborted then NotRun(Scoped(stages, PerJob)) else []), aborted)))
  }

  // -- the code ---------------------------------------------------------------------------------

  class Context {
    var artifacts: Artifacts
    const chunks: seq<string>
    /** The calls of foreign code made so far. */
    var calls: nat

    constructor (a: Artifacts, keys: seq<string>)
      ensures artifacts == a && chunks == keys && calls == 0
    {
      artifacts, chunks, calls := a, keys, 0;
    }
  }

  class Runner {
    const stages: seq<Stage>

    constructor (s: seq<Stage>)
      ensures stages == s
    {
      stages := s;
    }

    method Wiring(given: set<string>) returns (ok: bool)
      ensures ok <==> Wired(stages, given)
    {
      var available := given;
      ok := true;
      for i := 0 to |stages|
        invariant available == Available(stages[..i], given)
        invariant ok <==> forall j :: 0 <= j < i ==> Met(stages, given, j)
      {
        assert Met(stages, given, i) <==> Elements(stages[i].needs) <= available;
        ok := ok && Elements(stages[i].needs) <= available;
        assert stages[..i + 1][..i] == stages[..i];
        available := available + Elements(stages[i].makes);
      }
      var collides := Collisions();
      ok := ok && !collides;
    }

    /** Whether some artifact has more than one producer: the same walk over what is made. */
    method Collisions() returns (any: bool)
      ensures any <==> !Distinct(Made(stages))
    {
      var producers: map<string, seq<string>> := map[];
      any := false;
      for i := 0 to |stages|
        invariant producers.Keys == Elements(Made(stages[..i]))
        invariant any <==> !Distinct(Made(stages[..i]))
      {
        assert stages[..i + 1][..i] == stages[..i];
        var again: bool;
        producers, again := Note(producers, stages[i], Made(stages[..i]));
        any := any || again;
      }
      assert stages[..|stages|] == stages;
    }

    method Note(known: map<string, seq<string>>, s: Stage, ghost made: seq<string>)
        returns (producers: map<string, seq<string>>, again: bool)
      requires known.Keys == Elements(made)
      ensures producers.Keys == Elements(made + s.makes)
      ensures !Distinct(made + s.makes) <==> !Distinct(made) || again
    {
      producers, again := known, false;
      assert made + s.makes[..0] == made;
      for j := 0 to |s.makes|
        invariant producers.Keys == Elements(made + s.makes[..j])
        invariant !Distinct(made + s.makes[..j]) <==> !Distinct(made) || again
      {
        OneMore(made + s.makes[..j], s.makes[j]);
        assert made + s.makes[..j + 1] == (made + s.makes[..j]) + [s.makes[j]];
        var key := s.makes[j];
        again := again || key in producers;
        producers := producers[key := (if key in producers then producers[key] else []) + [s.name]];
      }
      assert s.makes[..|s.makes|] == s.makes;
    }

    /** Whether each stage would run, counting on the declared outputs of all before it. */
    method Plan(ctx: Context) returns (wouldRun: seq<bool>, wired: bool)
      ensures |wouldRun| == |stages| && forall i :: 0 <= i < |stages| ==> wouldRun[i] == Met(stages, Present(ctx.artifacts), i)
      ensures wired <==> Wired(stages, Present(ctx.artifacts))
    {
      var sim := Present(ctx.artifacts);
      wired := Wiring(sim);
      wouldRun := [];
      for i := 0 to |stages|
        invariant sim == Available(stages[..i], Present(ctx.artifacts)) && |wouldRun| == i
        invariant forall j :: 0 <= j < i ==> wouldRun[j] == Met(stages, Present(ctx.artifacts), j)
      {
        assert stages[..i + 1][..i] == stages[..i];
        wouldRun := wouldRun + [Elements(stages[i].needs) <= sim];
        sim := sim + Elements(stages[i].makes);
      }
    }

    method RunOne(w: World, o: Asked, s: Stage, chunk: string, ctx: Context, rep: EventReporter, ghost rows: seq<Row>)
        returns (status: Option<Status>)
      requires rep.Valid()
      modifies ctx, rep, rep.log
      ensures rep.Valid()
      ensures var r := One(w, o, s, chunk, Log(old(ctx.artifacts), old(ctx.calls), old(rep.acts), rows));
              && (ctx.artifacts, ctx.calls, rep.acts) == (r.0.artifacts, r.0.calls, r.0.acts)
              && (status.None? <==> r.1.Thrown?)
              && (status.Some? ==> r.0.rows == rows + [Row(s, chunk, status.value)])
              && (status.Some? ==> (r.1.Broke? <==> Breaks(o, s, status.value)))
    {
      hide Seen, See, Counted, CallStage, EventReporter.Valid;
      var sink := rep.ProgressFor(s);
      rep.StageStart(s);
      var c := CallStage(w, ctx.calls, s, ctx.artifacts, o.verify);
      ghost var acts := rep.acts;
      for k := 0 to c.progress
        invariant rep.Valid() && sink == Sink(s.name, rep.index - 1, rep.total, rep.chunk)
        invariant rep.acts == acts + Repeat(Progress(s), k)
        invariant ctx.artifacts == old(ctx.artifacts) && ctx.calls == old(ctx.calls)
      {
        rep.Progress(s, sink);
      }
      ctx.artifacts, ctx.calls := c.after, ctx.calls + 1;
      status := c.status;
      if status.Some? { rep.StageDone(s, status.value); }
    }

    method RunAll(w: World, o: Asked, todo: seq<Stage>, chunk: string, ctx: Context, rep: EventReporter, done: seq<Row>)
        returns (rows: seq<Row>, end: End)
      requires rep.Valid()
      modifies ctx, rep, rep.log
      ensures rep.Valid()
      ensures RunStages(w, o, todo, chunk, Log(old(ctx.artifacts), old(ctx.calls), old(rep.acts), done))
              == (Log(ctx.artifacts, ctx.calls, rep.acts, rows), end)
    {
      rows := done;
      ghost var whole := RunStages(w, o, todo, chunk, Log(ctx.artifacts, ctx.calls, rep.acts, done));
      for i := 0 to |todo|
        invariant rep.Valid()
        invariant RunStages(w, o, todo[i..], chunk, Log(ctx.artifacts, ctx.calls, rep.acts, rows)) == whole
      {
        assert todo[i..][1..] == todo[i + 1..];
        var status := RunOne(w, o, todo[i], chunk, ctx, rep, rows);
        if status.None? { return rows, Thrown; }
        rows := rows + [Row(todo[i], chunk, status.value)];
        if Breaks(o, todo[i], status.value) { return rows, Broke; }
      }
      end := Through;
    }

    method RunOneChunk(w: World, o: Asked, todo: seq<Stage>, key: string, ctx: Context, rep: EventReporter, done: seq<Row>)
        returns (rows: seq<Row>, end: End)
      requires rep.Valid()
      modifies ctx, rep, rep.log
      ensures rep.Valid()
      ensures RunChunk(w, o, todo, key, Log(old(ctx.artifacts), old(ctx.calls), old(rep.acts), done))
              == (Log(ctx.artifacts, ctx.calls, rep.acts, rows), end)
    {
      hide RunStages, Seen, See, Counted, EventReporter.Valid;
      rep.ChunkStart(key);
      var e := w.enter(ctx.calls, key, ctx.artifacts);
      rep.Note(Enter(key));
      ctx.artifacts, ctx.calls := e.after, ctx.calls + 1;
      assert rep.acts == old(rep.acts) + [ChunkStart(key), Enter(key)];
      if Threw(e) { return done, Thrown; }
      rows, end := RunAll(w, o, todo, key, ctx, rep, done);
      var x := w.leave(ctx.calls, key, ctx.artifacts);
      rep.Note(Leave(key));
      ctx.artifacts, ctx.calls := x.after, ctx.calls + 1;
      if Threw(x) { return rows, Thrown; }
      rep.ChunkDone(key);
    }

    method RunAllChunks(w: World, o: Asked, todo: seq<Stage>, ctx: Context, rep: EventReporter, done: seq<Row>)
        returns (rows: seq<Row>, end: End)
      requires rep.Valid()
      modifies ctx, rep, rep.log
      ensures rep.Valid()
      ensures RunChunks(w, o, todo, ctx.chunks, Log(old(ctx.artifacts), old(ctx.calls), old(rep.acts), done))
              == (Log(ctx.artifacts, ctx.calls, rep.acts, rows), end)
    {
      rows := done;
      ghost var whole := RunChunks(w, o, todo, ctx.chunks, Log(ctx.artifacts, ctx.calls, rep.acts, done));
      for i := 0 to |ctx.chunks|
        invariant rep.Valid()
        invariant RunChunks(w, o, todo, ctx.chunks[i..], Log(ctx.artifacts, ctx.calls, rep.acts, rows)) == whole
      {
        assert ctx.chunks[i..][1..] == ctx.chunks[i + 1..];
        rows, end := RunOneChunk(w, o, todo, ctx.chunks[i], ctx, rep, rows);
        if !end.Through? { return; }
      }
      end := Through;
    }

    method Filter(only: string) returns (planned: seq<Stage>)
      ensures planned == Planned(stages, only)
    {
      planned := [];
      for i := 0 to |stages|
        invariant planned == Planned(stages[..i], only)
      {
        assert stages[..i + 1][..i] == stages[..i];
        if only == "" || stages[i].name == only { planned := planned + [stages[i]]; }
      }
      assert stages[..|stages|] == stages;
    }

    method RunPlanned(w: World, o: Asked, planned: seq<Stage>, ctx: Context, rep: EventReporter)
        returns (rows: seq<Row>, end: End, aborted: bool)
      requires rep.Valid()
      modifies ctx, rep, rep.log
      ensures rep.Valid()
      ensures var l := Log(old(ctx.artifacts), old(ctx.calls), old(rep.acts), []);
              && Body(w, o, planned, ctx.chunks, l) == (Log(ctx.artifacts, ctx.calls, rep.acts, rows), end)
              && aborted == ChunkBroke(w, o, planned, ctx.chunks, l)
    {
      hide RunStages, RunChunks, Seen, See, Counted, EventReporter.Valid;
      if IsChunked(planned, ctx.chunks) {
        var chunked, rest := Scoped(planned, PerChunk), Scoped(planned, PerJob);
        rep.JobStart(|chunked| * |ctx.chunks| + |rest|);
        rows, end := RunAllChunks(w, o, chunked, ctx, rep, []);
        aborted := end.Broke?;
        if end.Through? { rows, end := RunAll(w, o, rest, "", ctx, rep, rows); }
      } else {
        rep.JobStart(|planned|);
        rows, end := RunAll(w, o, planned, "", ctx, rep, []);
        aborted := false;
      }
    }

    /** No result when an exception comes out of the run. */
    method Execute(w: World, o: Asked, ctx: Context, rep: EventReporter) returns (r: Option<Result>)
      requires rep.Valid()
      modifies ctx, rep, rep.log
      ensures rep.Valid()
      ensures var s := Run(w, o, stages, ctx.chunks, Log(old(ctx.artifacts), old(ctx.calls), old(rep.acts), []));
              r == s.1 && (ctx.artifacts, ctx.calls, rep.acts) == (s.0.artifacts, s.0.calls, s.0.acts)
    {
      var wired := Wiring(Present(ctx.artifacts));
      if !wired {
        rep.JobDone(false);
        return Some(Miswired);
      }
      var planned := Filter(o.only);
      var rows, end, aborted := RunPlanned(w, o, planned, ctx, rep);
      if end.Thrown? { return None; }
      var ok := !aborted && AllFine(rows);
      rep.JobDone(ok);
      r := Some(Finished(ok, rows + (if aborted then NotRun(Scoped(planned, PerJob)) else []), aborted));
    }
  }

  lemma OneMore(xs: seq<string>, x: string)
    ensures Distinct(xs + [x]) <==> Distinct(xs) && x !in xs
    ensures Elements(xs + [x]) == Elements(xs) + {x}
  {
    assert forall i :: 0 <= i < |xs| ==> xs[i] == (xs + [x])[i];
    assert (xs + [x])[|xs|] == x;
  }
}

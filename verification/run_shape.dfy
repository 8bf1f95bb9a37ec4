/** Which stages a run executes, on which chunk and in which order, and what a status says of a call. */
module RunShape {
  import opened Options
  import opened Stages
  import opened Runners
  import opened ChunkOrder

  // -- one call -----------------------------------------------------------------------------------

  /** Neither there, nor something, nor non-empty. */
  predicate Lacks(a: Artifacts, key: string) { key !in a || a[key] == Nothing || a[key] == Collection(0) }

  /** With the default check a stage is skipped if and only if it lacks an input. */
  lemma LackingIsSkipped(w: World, n: nat, s: Stage, a: Artifacts, verify: bool)
    requires DefaultCheck(w)
    ensures CallStage(w, n, s, a, verify).status == Some(Skipped) <==> exists key <- s.needs :: Lacks(a, key)
  {
    assert forall key :: Has(a, key) <==> !Lacks(a, key);
  }

  /** With the default verification a stage that returned is ok if and only if it lacks no output, and failed
      otherwise. */
  lemma LackingIsFailed(w: World, n: nat, s: Stage, a: Artifacts)
    requires DefaultVerify(w)
    requires w.check(n, s, a).reply.Yes? && w.execute(n, s, w.check(n, s, a).after).reply.Yes?
    ensures var c := CallStage(w, n, s, a, true);
            c.status == Some(if exists key <- s.makes :: Lacks(c.after, key) then Failed else Ok)
  {
    var after := w.execute(n, s, w.check(n, s, a).after).after;
    assert forall key :: Has(after, key) <==> !Lacks(after, key);
  }

  /** A call leaves what the last code it came to left, and reports all the progress on the way. */
  lemma CallsLeave(w: World, n: nat, s: Stage, a: Artifacts, verify: bool)
    ensures var called := CallStage(w, n, s, a, verify);
            var c := w.check(n, s, a);
            var e := w.execute(n, s, c.after);
            var v := w.verify(n, s, e.after);
            if !c.reply.Yes? then (called.after, called.progress) == (c.after, c.progress)
            else if Threw(e) || !verify then (called.after, called.progress) == (e.after, c.progress + e.progress)
            else (called.after, called.progress) == (v.after, c.progress + e.progress + v.progress)
  {
  }

  /** What a status says: ready or not, whether the stage raised, whether its output was looked at and passed.
      Only what `except Exception` lets through, and a check or a verification that raises, leaves none. */
  lemma StatusMeans(w: World, n: nat, s: Stage, a: Artifacts, verify: bool)
    ensures var status := CallStage(w, n, s, a, verify).status;
            var c := w.check(n, s, a);
            var e := w.execute(n, s, c.after);
            var v := w.verify(n, s, e.after).reply;
            var returned := e.reply.Yes? || e.reply.No?;
            && (status == Some(Skipped) <==> c.reply.No?)
            && (status == Some(Failed) <==> c.reply.Yes? && (e.reply.Raises? || (returned && verify && v.No?)))
            && (status == Some(Unverified) <==> c.reply.Yes? && returned && !verify)
            && (status == Some(Ok) <==> c.reply.Yes? && returned && verify && v.Yes?)
            && (status == None <==> Threw(c) || (c.reply.Yes? && (e.reply.Escapes? || (returned && verify && (v.Raises? || v.Escapes?)))))
  {
  }

  // -- which stages ---------------------------------------------------------------------------------

  /** All stages, or those of the name asked for, in their order. */
  lemma {:induction false} PlannedParts(first: seq<Stage>, rest: seq<Stage>, only: string)
    ensures Planned(first + rest, only) == Planned(first, only) + Planned(rest, only)
    decreases |rest|
  {
    if rest == [] {
      assert first + rest == first;
    } else {
      var init, last := rest[..|rest| - 1], rest[|rest| - 1];
      PlannedParts(first, init, only);
      assert (first + rest)[..|first + rest| - 1] == first + init;
    }
  }

  lemma PlannedOne(s: Stage, only: string)
    ensures Planned([s], only) == if only == "" || s.name == only then [s] else []
  {
    assert [s][..0] == [];
  }

  /** What is to be executed, in order: the chunk-scoped stages chunk by chunk and then the rest, or all stages
      as they stand. */
  function Due(stages: seq<Stage>, keys: seq<string>): seq<(Stage, string)> {
    if (exists s <- stages :: s.scope.PerChunk?) && |keys| >= 2 then
      OnChunks(OfScope(stages, PerChunk), keys) + On(OfScope(stages, PerJob), "")
    else On(stages, "")
  }

  function OfScope(stages: seq<Stage>, scope: Scope): seq<Stage> {
    if stages == [] then []
    else (if stages[0].scope == scope then [stages[0]] else []) + OfScope(stages[1..], scope)
  }

  function On(stages: seq<Stage>, chunk: string): seq<(Stage, string)> {
    if stages == [] then [] else [(stages[0], chunk)] + On(stages[1..], chunk)
  }

  function OnChunks(stages: seq<Stage>, keys: seq<string>): seq<(Stage, string)> {
    if keys == [] then [] else On(stages, keys[0]) + OnChunks(stages, keys[1..])
  }

  /** It stops the run: failed or unverified, stopping asked for, and not optional. */
  predicate Stops(o: Asked, r: Row) {
    (r.status.Failed? || r.status.Unverified?) && o.stop && !r.stage.optional
  }

  /** The row is of a call that came to that status. */
  ghost predicate OfACall(w: World, o: Asked, r: Row) {
    exists n: nat, a: Artifacts :: CallStage(w, n, r.stage, a, o.verify).status == Some(r.status)
  }

  /** The rows are those of the first executions due, up to the first that stops the run. */
  ghost predicate Follows(w: World, o: Asked, rows: seq<Row>, due: seq<(Stage, string)>, end: End) {
    && |rows| <= |due|
    && (forall p :: 0 <= p < |rows| ==> (rows[p].stage, rows[p].chunk) == due[p] && OfACall(w, o, rows[p]))
    && (forall p :: 0 <= p < |rows| - 1 ==> !Stops(o, rows[p]))
    && (end.Through? ==> |rows| == |due| && (rows != [] ==> !Stops(o, rows[|rows| - 1])))
    && (end.Broke? ==> rows != [] && Stops(o, rows[|rows| - 1]))
  }

  /** The rows a part of a run adds. */
  function Added(l: Log, m: Log): seq<Row> { if l.rows <= m.rows then m.rows[|l.rows|..] else [] }

  lemma {:induction false} ScopedIsOfScope(stages: seq<Stage>, scope: Scope)
    ensures Scoped(stages, scope) == OfScope(stages, scope)
    ensures Scoped(stages, scope) != [] <==> exists s <- stages :: s.scope == scope
    decreases |stages|
  {
    SomeOfScope(stages, scope);
    hide OfScope;
    if stages != [] {
      var init, last := stages[..|stages| - 1], stages[|stages| - 1];
      ScopedIsOfScope(init, scope);
      OfScopeMore(init, last, scope);
      assert stages == init + [last];
    } else {
      NoneOfScope(scope);
    }
  }

  lemma NoneOfScope(scope: Scope)
    ensures OfScope([], scope) == []
  {
  }

  lemma {:induction false} SomeOfScope(stages: seq<Stage>, scope: Scope)
    ensures OfScope(stages, scope) != [] <==> exists s <- stages :: s.scope == scope
    decreases |stages|
  {
    if stages != [] {
      SomeOfScope(stages[1..], scope);
      assert stages == [stages[0]] + stages[1..];
    }
  }

  lemma {:induction false} OfScopeMore(stages: seq<Stage>, s: Stage, scope: Scope)
    ensures OfScope(stages + [s], scope) == OfScope(stages, scope) + if s.scope == scope then [s] else []
    decreases |stages|
  {
    if stages == [] {
      assert stages + [s] == [s] && [s][1..] == [];
    } else {
      OfScopeMore(stages[1..], s, scope);
      assert (stages + [s])[1..] == stages[1..] + [s];
    }
  }

  lemma OneFollows(w: World, o: Asked, s: Stage, chunk: string, l: Log)
    ensures var r := One(w, o, s, chunk, l);
            && l.rows <= r.0.rows
            && (r.1.Thrown? ==> Added(l, r.0) == [])
            && Follows(w, o, Added(l, r.0), [(s, chunk)], r.1)
  {
    var r := One(w, o, s, chunk, l);
    if !r.1.Thrown? {
      var row := Row(s, chunk, CallStage(w, l.calls, s, l.artifacts, o.verify).status.value);
      assert Added(l, r.0) == [row];
      assert OfACall(w, o, row);
    }
  }

  /** One part after another. */
  lemma PartsFollow(w: World, o: Asked, a: seq<Row>, dueA: seq<(Stage, string)>, b: seq<Row>, dueB: seq<(Stage, string)>, end: End)
    requires Follows(w, o, a, dueA, Through) && Follows(w, o, b, dueB, end)
    ensures Follows(w, o, a + b, dueA + dueB, end)
  {
    hide OfACall, Stops;
  }

  lemma StoppedFollows(w: World, o: Asked, a: seq<Row>, dueA: seq<(Stage, string)>, dueB: seq<(Stage, string)>, end: End)
    requires Follows(w, o, a, dueA, end) && !end.Through?
    ensures Follows(w, o, a, dueA + dueB, end)
  {
    hide OfACall, Stops;
  }

  lemma AddedParts(l: Log, m: Log, r: Log)
    requires l.rows <= m.rows <= r.rows
    ensures l.rows <= r.rows && Added(l, r) == Added(l, m) + Added(m, r)
  {
  }

  lemma {:induction false} StagesFollow(w: World, o: Asked, stages: seq<Stage>, chunk: string, l: Log)
    ensures var r := RunStages(w, o, stages, chunk, l);
            l.rows <= r.0.rows && Follows(w, o, Added(l, r.0), On(stages, chunk), r.1)
    decreases |stages|
  {
    hide One, OfACall, Stops, Follows;
    if stages == [] {
      assert Added(l, l) == [];
      NothingFollows(w, o);
    } else {
      var r := One(w, o, stages[0], chunk, l);
      OneFollows(w, o, stages[0], chunk, l);
      if r.1.Through? {
        StagesFollow(w, o, stages[1..], chunk, r.0);
        var e := RunStages(w, o, stages[1..], chunk, r.0);
        AddedParts(l, r.0, e.0);
        PartsFollow(w, o, Added(l, r.0), [(stages[0], chunk)], Added(r.0, e.0), On(stages[1..], chunk), e.1);
      } else {
        StoppedFollows(w, o, Added(l, r.0), [(stages[0], chunk)], On(stages[1..], chunk), r.1);
      }
    }
  }

  lemma NothingFollows(w: World, o: Asked)
    ensures Follows(w, o, [], [], Through)
  {
  }

  /** An exception after the rows leaves them as they are. */
  lemma ThrownFollows(w: World, o: Asked, rows: seq<Row>, due: seq<(Stage, string)>, end: End)
    requires Follows(w, o, rows, due, end)
    ensures Follows(w, o, rows, due, Thrown)
  {
    hide OfACall, Stops;
  }

  lemma NoneFollows(w: World, o: Asked, due: seq<(Stage, string)>)
    ensures Follows(w, o, [], due, Thrown)
  {
  }

  lemma ChunkFollows(w: World, o: Asked, stages: seq<Stage>, key: string, l: Log)
    ensures var r := RunChunk(w, o, stages, key, l);
            l.rows <= r.0.rows && Follows(w, o, Added(l, r.0), On(stages, key), r.1)
  {
    hide RunStages, Follows;
    var e := Entered(w, key, l);
    if e.1.Thrown? {
      assert Added(l, e.0) == [];
      NoneFollows(w, o, On(stages, key));
    } else {
      var m := RunStages(w, o, stages, key, e.0);
      StagesFollow(w, o, stages, key, e.0);
      ThrownFollows(w, o, Added(l, m.0), On(stages, key), m.1);
    }
  }

  lemma {:induction false} ChunksFollow(w: World, o: Asked, stages: seq<Stage>, keys: seq<string>, l: Log)
    ensures var r := RunChunks(w, o, stages, keys, l);
            l.rows <= r.0.rows && Follows(w, o, Added(l, r.0), OnChunks(stages, keys), r.1)
    decreases |keys|
  {
    hide RunChunk, Follows;
    if keys == [] {
      assert Added(l, l) == [];
      NothingFollows(w, o);
    } else {
      var r := RunChunk(w, o, stages, keys[0], l);
      ChunkFollows(w, o, stages, keys[0], l);
      if r.1.Through? {
        ChunksFollow(w, o, stages, keys[1..], r.0);
        var e := RunChunks(w, o, stages, keys[1..], r.0);
        AddedParts(l, r.0, e.0);
        PartsFollow(w, o, Added(l, r.0), On(stages, keys[0]), Added(r.0, e.0), OnChunks(stages, keys[1..]), e.1);
      } else {
        StoppedFollows(w, o, Added(l, r.0), On(stages, keys[0]), OnChunks(stages, keys[1..]), r.1);
      }
    }
  }

  lemma BodyFollows(w: World, o: Asked, stages: seq<Stage>, keys: seq<string>, l: Log)
    requires l.rows == []
    ensures var r := Body(w, o, stages, keys, l); Follows(w, o, r.0.rows, Due(stages, keys), r.1)
  {
    hide RunStages, RunChunks, Follows;
    ScopedIsOfScope(stages, PerChunk);
    ScopedIsOfScope(stages, PerJob);
    if IsChunked(stages, keys) {
      var chunked, rest := OfScope(stages, PerChunk), OfScope(stages, PerJob);
      var m := ChunkPart(w, o, stages, keys, l);
      ChunksFollow(w, o, chunked, keys, Begun(Executions(stages, keys), l));
      if m.1.Through? {
        StagesFollow(w, o, rest, "", m.0);
        var e := RunStages(w, o, rest, "", m.0);
        AddedParts(l, m.0, e.0);
        PartsFollow(w, o, m.0.rows, OnChunks(chunked, keys), Added(m.0, e.0), On(rest, ""), e.1);
      } else {
        StoppedFollows(w, o, m.0.rows, OnChunks(chunked, keys), On(rest, ""), m.1);
      }
    } else {
      StagesFollow(w, o, stages, "", Begun(|stages|, l));
    }
  }

  /** What a wired run executes: of the stages asked for, on the chunks there are, each once and in order, until
      one that is not optional goes wrong and stopping is asked for, and none after it.  Each row says what its
      call came to. */
  lemma RowsAreDue(w: World, o: Asked, all: seq<Stage>, keys: seq<string>, l: Log)
    requires l.rows == [] && Wired(all, Present(l.artifacts))
    ensures var r := Run(w, o, all, keys, l);
            var rows, due := r.0.rows, Due(Planned(all, o.only), keys);
            && |rows| <= |due|
            && (forall p :: 0 <= p < |rows| ==> (rows[p].stage, rows[p].chunk) == due[p] && OfACall(w, o, rows[p]))
            && (forall p :: 0 <= p < |rows| - 1 ==> !Stops(o, rows[p]))
            && (r.1.Some? ==> (|rows| < |due| ==> rows != [] && Stops(o, rows[|rows| - 1])))
  {
    hide Body, OfACall, Stops, Wired;
    BodyFollows(w, o, Planned(all, o.only), keys, l);
  }

  /** Without stopping, and whenever all stages are optional, a run that returns has executed everything. */
  lemma NothingIsLeftOut(w: World, o: Asked, all: seq<Stage>, keys: seq<string>, l: Log)
    requires l.rows == [] && Wired(all, Present(l.artifacts)) && (!o.stop || forall s <- all :: s.optional)
    ensures var r := Run(w, o, all, keys, l); r.1.Some? ==> |r.0.rows| == |Due(Planned(all, o.only), keys)|
  {
    hide Run, Wired, OfACall;
    var r := Run(w, o, all, keys, l);
    var due := Due(Planned(all, o.only), keys);
    RowsAreDue(w, o, all, keys, l);
    if r.1.Some? && |r.0.rows| < |due| {
      var last := r.0.rows[|r.0.rows| - 1];
      assert last.stage == due[|r.0.rows| - 1].0;
      DueAreAll(all, o.only, keys, |r.0.rows| - 1);
    }
  }

  lemma DueAreAll(all: seq<Stage>, only: string, keys: seq<string>, p: nat)
    requires p < |Due(Planned(all, only), keys)|
    ensures Due(Planned(all, only), keys)[p].0 in all
  {
    var stages := Planned(all, only);
    PlannedAreAll(all, only);
    OnAreAll(stages, "");
    OnAreAll(OfScope(stages, PerJob), "");
    OnChunksAreAll(OfScope(stages, PerChunk), keys);
    OfScopeAreAll(stages, PerJob);
    OfScopeAreAll(stages, PerChunk);
  }

  lemma {:induction false} PlannedAreAll(all: seq<Stage>, only: string)
    ensures forall s <- Planned(all, only) :: s in all
    decreases |all|
  {
    if all != [] { PlannedAreAll(all[..|all| - 1], only); }
  }

  lemma {:induction false} OfScopeAreAll(stages: seq<Stage>, scope: Scope)
    ensures forall s <- OfScope(stages, scope) :: s in stages
    decreases |stages|
  {
    if stages != [] { OfScopeAreAll(stages[1..], scope); }
  }

  lemma {:induction false} OnAreAll(stages: seq<Stage>, chunk: string)
    ensures forall d <- On(stages, chunk) :: d.0 in stages
    decreases |stages|
  {
    if stages != [] { OnAreAll(stages[1..], chunk); }
  }

  lemma {:induction false} OnChunksAreAll(stages: seq<Stage>, keys: seq<string>)
    ensures forall d <- OnChunks(stages, keys) :: d.0 in stages
    decreases |keys|
  {
    if keys != [] {
      OnAreAll(stages, keys[0]);
      OnChunksAreAll(stages, keys[1..]);
    }
  }

  // -- chunks ---------------------------------------------------------------------------------------

  /** Chunks are entered if and only if a chunk-scoped stage is to run and there are two or more. */
  lemma WhenChunksAreEntered(w: World, o: Asked, all: seq<Stage>, keys: seq<string>, l: Log)
    requires l.acts == [] && Wired(all, Present(l.artifacts))
    ensures (exists key :: Enter(key) in Run(w, o, all, keys, l).0.acts)
            <==> |keys| >= 2 && exists s <- Planned(all, o.only) :: s.scope.PerChunk?
  {
    hide RunStages, RunChunks, Wired;
    var stages := Planned(all, o.only);
    ScopedIsOfScope(stages, PerChunk);
    if IsChunked(stages, keys) {
      var began := Begun(Executions(stages, keys), l);
      var m := ChunkPart(w, o, stages, keys, l);
      FirstIsEntered(w, o, Scoped(stages, PerChunk), keys, began);
      if m.1.Through? { StagesAct(w, o, Scoped(stages, PerJob), "", m.0); }
      assert Enter(keys[0]) in Run(w, o, all, keys, l).0.acts;
    } else {
      StagesAct(w, o, stages, "", Begun(|stages|, l));
    }
  }

  /** A hook that raises ends the run without a result: on entering before any stage of the chunk and without the
      exit hook, on leaving with what the chunk did, unannounced. */
  lemma HooksRaise(w: World, o: Asked, stages: seq<Stage>, key: string, l: Log)
    ensures var r := RunChunk(w, o, stages, key, l);
            var e := w.enter(l.calls, key, l.artifacts);
            if Threw(e) then
              r == (Log(e.after, l.calls + 1, l.acts + [ChunkStart(key), Enter(key)], l.rows), Thrown)
            else
              var m := RunStages(w, o, stages, key, Entered(w, key, l).0);
              var x := w.leave(m.0.calls, key, m.0.artifacts);
              r == (Log(x.after, m.0.calls + 1, m.0.acts + [Leave(key)] + (if Threw(x) then [] else [ChunkDone(key)]), m.0.rows),
                    if Threw(x) then Thrown else m.1)
  {
    hide RunStages;
    var m := RunStages(w, o, stages, key, Entered(w, key, l).0);
    assert m.0.acts + [Leave(key)] + [] == m.0.acts + [Leave(key)];
  }

  lemma RaisedIsNoResult(w: World, o: Asked, all: seq<Stage>, keys: seq<string>, l: Log)
    requires Wired(all, Present(l.artifacts)) && IsChunked(Planned(all, o.only), keys)
    ensures Run(w, o, all, keys, l).1.None?
            <==> var m := ChunkPart(w, o, Planned(all, o.only), keys, l);
                 m.1.Thrown? || (m.1.Through? && RunStages(w, o, Scoped(Planned(all, o.only), PerJob), "", m.0).1.Thrown?)
    ensures var stages, began := Scoped(Planned(all, o.only), PerChunk), Begun(Executions(Planned(all, o.only), keys), l);
            RunChunk(w, o, stages, keys[0], began).1.Thrown? ==> Run(w, o, all, keys, l).1.None?
  {
    hide RunStages, RunChunk, Wired;
  }

  /** Stages act without hooks. */
  lemma {:induction false} StagesAct(w: World, o: Asked, stages: seq<Stage>, chunk: string, l: Log)
    ensures var acts := RunStages(w, o, stages, chunk, l).0.acts;
            l.acts <= acts && forall key :: Enter(key) in acts ==> Enter(key) in l.acts
    decreases |stages|
  {
    if stages != [] {
      var r := One(w, o, stages[0], chunk, l);
      RepeatIs(Progress(stages[0]), CallStage(w, l.calls, stages[0], l.artifacts, o.verify).progress);
      if r.1.Through? { StagesAct(w, o, stages[1..], chunk, r.0); }
    }
  }

  lemma {:induction false} ChunksAct(w: World, o: Asked, stages: seq<Stage>, keys: seq<string>, l: Log)
    ensures l.acts <= RunChunks(w, o, stages, keys, l).0.acts
    decreases |keys|
  {
    if keys != [] {
      var e := Entered(w, keys[0], l);
      StagesAct(w, o, stages, keys[0], e.0);
      var r := RunChunk(w, o, stages, keys[0], l);
      if r.1.Through? { ChunksAct(w, o, stages, keys[1..], r.0); }
    }
  }

  lemma FirstIsEntered(w: World, o: Asked, stages: seq<Stage>, keys: seq<string>, l: Log)
    requires keys != []
    ensures Enter(keys[0]) in RunChunks(w, o, stages, keys, l).0.acts
  {
    hide RunStages;
    var e := Entered(w, keys[0], l);
    assert e.0.acts[|l.acts| + 1] == Enter(keys[0]);
    StagesAct(w, o, stages, keys[0], e.0);
    var r := RunChunk(w, o, stages, keys[0], l);
    assert Enter(keys[0]) in r.0.acts;
    if r.1.Through? { ChunksAct(w, o, stages, keys[1..], r.0); }
  }
}

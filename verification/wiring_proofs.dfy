/** What passing the static wiring check says of a run, and what it does not. */
module WiringProofs {
  import opened Options
  import opened Stages
  import opened Runners

  predicate AllMet(stages: seq<Stage>, given: set<string>) { forall i :: 0 <= i < |stages| ==> Met(stages, given, i) }

  lemma {:induction false} AvailableAhead(stages: seq<Stage>, given: set<string>)
    requires stages != []
    ensures Available(stages, given) == Available(stages[1..], given + Elements(stages[0].makes))
    decreases |stages|
  {
    if |stages| > 1 {
      var init := stages[..|stages| - 1];
      AvailableAhead(init, given);
      assert init[1..] == stages[1..][..|stages| - 2];
    } else {
      assert stages[..0] == [] && stages[1..] == [];
    }
  }

  lemma {:induction false} AvailableMore(stages: seq<Stage>, given: set<string>, more: set<string>)
    requires given <= more
    ensures given <= Available(stages, given) <= Available(stages, more)
    decreases |stages|
  {
    if stages != [] { AvailableMore(stages[..|stages| - 1], given, more); }
  }

  lemma MetAhead(stages: seq<Stage>, given: set<string>, now: set<string>)
    requires stages != [] && AllMet(stages, given) && given + Elements(stages[0].makes) <= now
    ensures AllMet(stages[1..], now)
  {
    forall i | 0 <= i < |stages| - 1 ensures Met(stages[1..], now, i) {
      assert Met(stages, given, i + 1);
      AvailableAhead(stages[..i + 1], given);
      assert stages[..i + 1][1..] == stages[1..][..i];
      AvailableMore(stages[1..][..i], given + Elements(stages[0].makes), now);
    }
  }

  lemma MetMore(stages: seq<Stage>, given: set<string>, now: set<string>)
    requires AllMet(stages, given) && given <= now
    ensures AllMet(stages, now)
  {
    forall i | 0 <= i < |stages| ensures Met(stages, now, i) {
      assert Met(stages, given, i);
      AvailableMore(stages[..i], given, now);
    }
  }

  lemma {:induction false} MetAfter(first: seq<Stage>, rest: seq<Stage>, given: set<string>, now: set<string>)
    requires AllMet(first + rest, given) && Available(first, given) <= now && given <= now
    ensures AllMet(rest, now)
    decreases |first|
  {
    if first == [] {
      assert first + rest == rest;
      MetMore(rest, given, now);
    } else {
      AvailableAhead(first, given);
      assert (first + rest)[1..] == first[1..] + rest;
      MetAhead(first + rest, given, given + Elements(first[0].makes));
      AvailableMore(first[1..], given + Elements(first[0].makes), given + Elements(first[0].makes));
      MetAfter(first[1..], rest, given + Elements(first[0].makes), now);
    }
  }

  lemma MetFirst(first: seq<Stage>, rest: seq<Stage>, given: set<string>)
    requires AllMet(first + rest, given)
    ensures AllMet(first, given)
  {
    forall i | 0 <= i < |first| ensures Met(first, given, i) {
      assert Met(first + rest, given, i);
      assert (first + rest)[..i] == first[..i];
    }
  }

  // -- soundness ---------------------------------------------------------------------------------

  ghost predicate Tame(w: World) { DefaultCheck(w) && DefaultVerify(w) && KeepsArtifacts(w) }

  const Strict := Asked(true, true, "")

  predicate NoneSkipped(rows: seq<Row>) { forall r <- rows :: !r.status.Skipped? }

  predicate Required(stages: seq<Stage>) { forall s <- stages :: !s.optional }

  lemma OneIsFed(w: World, s: Stage, chunk: string, l: Log)
    requires Tame(w) && !s.optional && Elements(s.needs) <= Present(l.artifacts) && NoneSkipped(l.rows)
    ensures var r := One(w, Strict, s, chunk, l);
            && Present(l.artifacts) <= Present(r.0.artifacts)
            && NoneSkipped(r.0.rows)
            && (r.1.Through? ==> Elements(s.makes) <= Present(r.0.artifacts))
  {
    assert HasAll(l.artifacts, s.needs) by {
      assert forall key <- s.needs :: key in Elements(s.needs);
    }
    var after := w.execute(l.calls, s, l.artifacts).after;
    if HasAll(after, s.makes) {
      assert forall key <- Elements(s.makes) :: key in s.makes && Has(after, key);
    }
  }

  lemma {:induction false} StagesAreFed(w: World, todo: seq<Stage>, chunk: string, l: Log)
    requires Tame(w) && Required(todo) && AllMet(todo, Present(l.artifacts)) && NoneSkipped(l.rows)
    ensures var r := RunStages(w, Strict, todo, chunk, l);
            && Present(l.artifacts) <= Present(r.0.artifacts)
            && NoneSkipped(r.0.rows)
            && (r.1.Through? ==> Available(todo, Present(l.artifacts)) <= Present(r.0.artifacts))
    decreases |todo|
  {
    if todo != [] {
      assert Met(todo, Present(l.artifacts), 0);
      assert todo[..0] == [];
      OneIsFed(w, todo[0], chunk, l);
      var r := One(w, Strict, todo[0], chunk, l);
      if r.1.Through? {
        MetAhead(todo, Present(l.artifacts), Present(r.0.artifacts));
        StagesAreFed(w, todo[1..], chunk, r.0);
        AvailableAhead(todo, Present(l.artifacts));
        AvailableMore(todo[1..], Present(l.artifacts) + Elements(todo[0].makes), Present(r.0.artifacts));
      }
    }
  }

  lemma {:induction false} ChunksAreFed(w: World, todo: seq<Stage>, keys: seq<string>, l: Log)
    requires Tame(w) && Required(todo) && AllMet(todo, Present(l.artifacts)) && NoneSkipped(l.rows)
    ensures var r := RunChunks(w, Strict, todo, keys, l);
            && Present(l.artifacts) <= Present(r.0.artifacts)
            && NoneSkipped(r.0.rows)
            && (r.1.Through? && keys != [] ==> Available(todo, Present(l.artifacts)) <= Present(r.0.artifacts))
    decreases |keys|
  {
    if keys != [] {
      var e := Entered(w, keys[0], l);
      MetMore(todo, Present(l.artifacts), Present(e.0.artifacts));
      if !e.1.Thrown? {
        StagesAreFed(w, todo, keys[0], e.0);
        AvailableMore(todo, Present(l.artifacts), Present(e.0.artifacts));
      }
      var r := RunChunk(w, Strict, todo, keys[0], l);
      if r.1.Through? {
        MetMore(todo, Present(l.artifacts), Present(r.0.artifacts));
        ChunksAreFed(w, todo, keys[1..], r.0);
      }
    }
  }

  /** The order the stages of a chunked run come to run in: the chunk-scoped ones first. */
  function ChunkedOrder(stages: seq<Stage>): seq<Stage> { Scoped(stages, PerChunk) + Scoped(stages, PerJob) }

  /** The needs are met in the order the stages run in, too. */
  predicate MetAsRun(stages: seq<Stage>, keys: seq<string>, given: set<string>) {
    if IsChunked(stages, keys) then AllMet(ChunkedOrder(stages), given) else AllMet(stages, given)
  }

  lemma {:induction false} EachHasAScope(stages: seq<Stage>)
    ensures forall s <- stages :: s in ChunkedOrder(stages)
    decreases |stages|
  {
    if stages != [] {
      var init, last := stages[..|stages| - 1], stages[|stages| - 1];
      EachHasAScope(init);
      assert stages == init + [last];
      forall s | s in stages ensures s in ChunkedOrder(stages) {
        if s in init { assert s in ChunkedOrder(init); }
      }
    }
  }

  lemma {:induction false} EverythingPlanned(stages: seq<Stage>)
    ensures Planned(stages, "") == stages
    decreases |stages|
  {
    if stages != [] {
      EverythingPlanned(stages[..|stages| - 1]);
      assert stages == stages[..|stages| - 1] + [stages[|stages| - 1]];
    }
  }

  lemma BodyIsFed(w: World, stages: seq<Stage>, keys: seq<string>, l: Log)
    requires Tame(w) && Required(stages) && l.rows == []
    requires MetAsRun(stages, keys, Present(l.artifacts))
    ensures var r := Body(w, Strict, stages, keys, l);
            && NoneSkipped(r.0.rows)
            && Present(l.artifacts) <= Present(r.0.artifacts)
            && (r.1.Through? ==> forall s <- stages :: Elements(s.makes) <= Present(r.0.artifacts))
  {
    var given := Present(l.artifacts);
    if IsChunked(stages, keys) {
      ChunkPartIsFed(w, stages, keys, l);
      RestIsFed(w, stages, given, ChunkPart(w, Strict, stages, keys, l));
      MakesAreAvailable(ChunkedOrder(stages), given);
      EachHasAScope(stages);
    } else {
      StagesAreFed(w, stages, "", Begun(|stages|, l));
      MakesAreAvailable(stages, given);
    }
  }

  lemma RequiredParts(stages: seq<Stage>)
    requires Required(stages)
    ensures Required(Scoped(stages, PerChunk)) && Required(Scoped(stages, PerJob))
  {
    ScopedAre(stages, PerChunk);
    ScopedAre(stages, PerJob);
  }

  lemma ChunkPartIsFed(w: World, stages: seq<Stage>, keys: seq<string>, l: Log)
    requires Tame(w) && Required(stages) && IsChunked(stages, keys)
    requires AllMet(ChunkedOrder(stages), Present(l.artifacts)) && l.rows == []
    ensures var m := ChunkPart(w, Strict, stages, keys, l);
            && Present(l.artifacts) <= Present(m.0.artifacts)
            && NoneSkipped(m.0.rows)
            && (m.1.Through? ==> Available(Scoped(stages, PerChunk), Present(l.artifacts)) <= Present(m.0.artifacts))
  {
    hide RunChunks, Executions, Tame, AllMet;
    var chunked, rest := Scoped(stages, PerChunk), Scoped(stages, PerJob);
    RequiredParts(stages);
    MetFirst(chunked, rest, Present(l.artifacts));
    ChunksAreFed(w, chunked, keys, Begun(Executions(stages, keys), l));
  }

  lemma RestIsFed(w: World, stages: seq<Stage>, given: set<string>, m: (Log, End))
    requires Tame(w) && Required(stages)
    requires AllMet(ChunkedOrder(stages), given) && given <= Present(m.0.artifacts) && NoneSkipped(m.0.rows)
    requires m.1.Through? ==> Available(Scoped(stages, PerChunk), given) <= Present(m.0.artifacts)
    ensures var r := RestPart(w, Strict, Scoped(stages, PerJob), m);
            && NoneSkipped(r.0.rows)
            && given <= Present(r.0.artifacts)
            && (r.1.Through? ==> Available(ChunkedOrder(stages), given) <= Present(r.0.artifacts))
  {
    var chunked, rest := Scoped(stages, PerChunk), Scoped(stages, PerJob);
    hide Tame, AllMet, RunStages;
    if m.1.Through? {
      RequiredParts(stages);
      MetAfter(chunked, rest, given, Present(m.0.artifacts));
      StagesAreFed(w, rest, "", m.0);
      AvailableParts(chunked, rest, given);
      AvailableMore(rest, Available(chunked, given), Present(m.0.artifacts));
    }
  }

  lemma {:induction false} AvailableParts(first: seq<Stage>, rest: seq<Stage>, given: set<string>)
    ensures Available(first + rest, given) == Available(rest, Available(first, given))
    decreases |rest|
  {
    if rest == [] {
      assert first + rest == first;
    } else {
      AvailableParts(first, rest[..|rest| - 1], given);
      assert (first + rest)[..|first + rest| - 1] == first + rest[..|rest| - 1];
    }
  }

  lemma {:induction false} MakesAreAvailable(stages: seq<Stage>, given: set<string>)
    ensures forall s <- stages :: Elements(s.makes) <= Available(stages, given)
    decreases |stages|
  {
    if stages != [] {
      MakesAreAvailable(stages[..|stages| - 1], given);
      assert stages == stages[..|stages| - 1] + [stages[|stages| - 1]];
    }
  }

  /** Wiring is sound: a verified run that stops on failure, of stages that bring no check of their own
      and lose no artifact, skips nothing; if its result is ok, every declared output is there.  Of a
      chunked run this asks that the needs are met in the order it runs in; ChunkedWiring says it must. */
  lemma WiringIsSound(w: World, all: seq<Stage>, keys: seq<string>, l: Log)
    requires Tame(w) && Required(all) && l.rows == []
    requires Wired(all, Present(l.artifacts)) && MetAsRun(all, keys, Present(l.artifacts))
    ensures var r := Run(w, Strict, all, keys, l);
            && NoneSkipped(r.0.rows)
            && Present(l.artifacts) <= Present(r.0.artifacts)
            && (r.1.Some? ==> r.1.value.Finished?)
            && (r.1.Some? && r.1.value.ok ==> forall s <- all :: HasAll(r.0.artifacts, s.makes))
  {
    hide Tame, MetAsRun, Wired, Body;
    EverythingPlanned(all);
    BodyIsFed(w, all, keys, l);
    var b := Body(w, Strict, all, keys, l);
    var r := Run(w, Strict, all, keys, l);
    if r.1.Some? && r.1.value.ok {
      OkMeansThrough(w, all, keys, l);
      forall s | s in all ensures HasAll(b.0.artifacts, s.makes) {
        assert forall key <- s.makes :: key in Elements(s.makes);
      }
    }
  }

  lemma {:induction false} BrokeIsNotFine(w: World, o: Asked, todo: seq<Stage>, chunk: string, l: Log)
    ensures var r := RunStages(w, o, todo, chunk, l); r.1.Broke? ==> !AllFine(r.0.rows)
    decreases |todo|
  {
    if todo != [] {
      var r := One(w, o, todo[0], chunk, l);
      if r.1.Through? {
        BrokeIsNotFine(w, o, todo[1..], chunk, r.0);
      } else if r.1.Broke? {
        assert r.0.rows[|l.rows|] in r.0.rows;
      }
    }
  }

  lemma OkMeansThrough(w: World, stages: seq<Stage>, keys: seq<string>, l: Log)
    requires var b := Body(w, Strict, stages, keys, l);
             !b.1.Thrown? && !ChunkBroke(w, Strict, stages, keys, l) && AllFine(b.0.rows)
    ensures Body(w, Strict, stages, keys, l).1.Through?
  {
    if IsChunked(stages, keys) {
      var m := ChunkPart(w, Strict, stages, keys, l);
      if m.1.Through? { BrokeIsNotFine(w, Strict, Scoped(stages, PerJob), "", m.0); }
    } else {
      BrokeIsNotFine(w, Strict, stages, "", Begun(|stages|, l));
    }
  }

  // -- exactness ---------------------------------------------------------------------------------

  function With(a: Artifacts, makes: seq<string>): Artifacts {
    map key | key in a.Keys + Elements(makes) :: if key in makes then Plain else a[key]
  }

  /** Stages that do just what they declare; hooks that do nothing. */
  const Honest := World(
    (n, s: Stage, a) => Effect(if HasAll(a, s.needs) then Yes else No, a, 0),
    (n, s: Stage, a) => Effect(Yes, With(a, s.makes), 0),
    (n, s: Stage, a) => Effect(if HasAll(a, s.makes) then Yes else No, a, 0),
    (n, key, a) => Effect(Yes, a, 0),
    (n, key, a) => Effect(Yes, a, 0))

  lemma HonestOne(s: Stage, chunk: string, l: Log)
    ensures var r := One(Honest, Strict, s, chunk, l);
            var fed := Elements(s.needs) <= Present(l.artifacts);
            && r.1.Through?
            && r.0.rows == l.rows + [Row(s, chunk, if fed then Ok else Skipped)]
            && Present(r.0.artifacts) == Present(l.artifacts) + if fed then Elements(s.makes) else {}
  {
    assert Elements(s.needs) <= Present(l.artifacts) <==> HasAll(l.artifacts, s.needs) by {
      assert forall key <- s.needs :: key in Elements(s.needs);
    }
    assert Present(With(l.artifacts, s.makes)) == Present(l.artifacts) + Elements(s.makes);
    assert HasAll(With(l.artifacts, s.makes), s.makes);
  }

  /** For stages that do just what they declare, the unmet needs wiring reports are the skips, no more
      and no fewer: it reports none exactly when nothing is skipped. */
  lemma {:induction false} WiringIsExact(todo: seq<Stage>, chunk: string, l: Log)
    requires NoneSkipped(l.rows)
    ensures var r := RunStages(Honest, Strict, todo, chunk, l);
            && l.rows <= r.0.rows
            && (NoneSkipped(r.0.rows) <==> AllMet(todo, Present(l.artifacts)))
    decreases |todo|
  {
    if todo != [] {
      HonestOne(todo[0], chunk, l);
      var r := One(Honest, Strict, todo[0], chunk, l);
      assert todo[..0] == [];
      if Elements(todo[0].needs) <= Present(l.artifacts) {
        WiringIsExact(todo[1..], chunk, r.0);
        MetBehind(todo, Present(l.artifacts));
      } else {
        RowsGrow(Honest, Strict, todo[1..], chunk, r.0);
        assert r.0.rows[|l.rows|] in RunStages(Honest, Strict, todo, chunk, l).0.rows;
        assert !Met(todo, Present(l.artifacts), 0);
      }
    }
  }

  lemma {:induction false} RowsGrow(w: World, o: Asked, todo: seq<Stage>, chunk: string, l: Log)
    ensures l.rows <= RunStages(w, o, todo, chunk, l).0.rows
    decreases |todo|
  {
    if todo != [] && One(w, o, todo[0], chunk, l).1.Through? {
      RowsGrow(w, o, todo[1..], chunk, One(w, o, todo[0], chunk, l).0);
    }
  }

  lemma MetBehind(stages: seq<Stage>, given: set<string>)
    requires stages != [] && Elements(stages[0].needs) <= given
    ensures AllMet(stages, given) <==> AllMet(stages[1..], given + Elements(stages[0].makes))
  {
    var now := given + Elements(stages[0].makes);
    if AllMet(stages[1..], now) {
      forall i | 0 <= i < |stages| ensures Met(stages, given, i) {
        if i == 0 {
          assert stages[..0] == [];
        } else {
          assert Met(stages[1..], now, i - 1);
          AvailableAhead(stages[..i], given);
          assert stages[..i][1..] == stages[1..][..i - 1];
        }
      }
    }
    if AllMet(stages, given) { MetAhead(stages, given, now); }
  }

  // -- wiring and a chunked run -----------------------------------------------------------------------

  lemma HonestIsTame()
    ensures Tame(Honest)
  {
    forall s: Stage, a: Artifacts ensures Present(a) <= Present(With(a, s.makes)) { }
  }

  lemma {:induction false} AvailableSame(stages: seq<Stage>, given: set<string>)
    requires forall s <- stages :: Elements(s.makes) <= given
    ensures Available(stages, given) == given
    decreases |stages|
  {
    if stages != [] { AvailableSame(stages[..|stages| - 1], given); }
  }

  /** Stages that do just what they declare and skip nothing leave what they declared. */
  lemma {:induction false} HonestStages(todo: seq<Stage>, chunk: string, l: Log)
    ensures var r := RunStages(Honest, Strict, todo, chunk, l);
            && r.1.Through? && l.rows <= r.0.rows
            && (NoneSkipped(r.0.rows) ==> Present(r.0.artifacts) == Available(todo, Present(l.artifacts)))
    decreases |todo|
  {
    if todo != [] {
      HonestOne(todo[0], chunk, l);
      var r := One(Honest, Strict, todo[0], chunk, l);
      HonestStages(todo[1..], chunk, r.0);
      var end := RunStages(Honest, Strict, todo, chunk, l).0;
      if NoneSkipped(end.rows) {
        assert r.0.rows[|l.rows|] in end.rows;
        AvailableAhead(todo, Present(l.artifacts));
      }
    }
  }

  lemma SomeSkipped(before: seq<Row>, after: seq<Row>)
    requires before <= after && NoneSkipped(after)
    ensures NoneSkipped(before)
  {
    assert forall r <- before :: r in after;
  }

  lemma {:induction false} HonestChunks(todo: seq<Stage>, keys: seq<string>, l: Log)
    ensures var r := RunChunks(Honest, Strict, todo, keys, l);
            && r.1.Through? && l.rows <= r.0.rows
            && (NoneSkipped(r.0.rows) && keys != [] ==>
                  && AllMet(todo, Present(l.artifacts))
                  && Present(r.0.artifacts) == Available(todo, Present(l.artifacts)))
    decreases |keys|
  {
    if keys != [] {
      var e := Entered(Honest, keys[0], l);
      HonestStages(todo, keys[0], e.0);
      var c := RunChunk(Honest, Strict, todo, keys[0], l);
      HonestChunks(todo, keys[1..], c.0);
      var r := RunChunks(Honest, Strict, todo, keys, l);
      if NoneSkipped(r.0.rows) {
        SomeSkipped(c.0.rows, r.0.rows);
        SomeSkipped(l.rows, c.0.rows);
        WiringIsExact(todo, keys[0], e.0);
        MakesAreAvailable(todo, Present(l.artifacts));
        AvailableSame(todo, Present(c.0.artifacts));
      }
    }
  }

  lemma MetTogether(first: seq<Stage>, rest: seq<Stage>, given: set<string>)
    requires AllMet(first, given) && AllMet(rest, Available(first, given))
    ensures AllMet(first + rest, given)
  {
    hide Available, Elements;
    forall i | 0 <= i < |first| + |rest| ensures Met(first + rest, given, i) {
      if i < |first| {
        assert Met(first, given, i);
        assert (first + rest)[..i] == first[..i];
      } else {
        assert Met(rest, Available(first, given), i - |first|);
        AvailableParts(first, rest[..i - |first|], given);
        assert (first + rest)[..i] == first + rest[..i - |first|];
      }
    }
  }

  lemma HonestChunkedIsMet(all: seq<Stage>, keys: seq<string>, l: Log)
    requires IsChunked(all, keys) && l.rows == []
    requires NoneSkipped(Body(Honest, Strict, all, keys, l).0.rows)
    ensures AllMet(ChunkedOrder(all), Present(l.artifacts))
  {
    hide RunChunks, RunStages, Executions, AllMet;
    var chunked, rest := Scoped(all, PerChunk), Scoped(all, PerJob);
    var began := Begun(Executions(all, keys), l);
    var m := ChunkPart(Honest, Strict, all, keys, l);
    HonestChunks(chunked, keys, began);
    HonestStages(rest, "", m.0);
    SomeSkipped(m.0.rows, Body(Honest, Strict, all, keys, l).0.rows);
    WiringIsExact(rest, "", m.0);
    MetTogether(chunked, rest, Present(l.artifacts));
  }

  /** When wiring carries over to a chunked run: whatever tame stages and hooks do, it skips nothing, if and
      only if the needs are met with the chunk-scoped stages first. */
  lemma ChunkedWiring(all: seq<Stage>, keys: seq<string>, l: Log)
    requires Required(all) && l.rows == [] && Wired(all, Present(l.artifacts)) && IsChunked(all, keys)
    ensures (forall w: World :: Tame(w) ==> NoneSkipped(Run(w, Strict, all, keys, l).0.rows))
            <==> AllMet(ChunkedOrder(all), Present(l.artifacts))
  {
    hide Run, Wired, AllMet, Tame;
    if AllMet(ChunkedOrder(all), Present(l.artifacts)) {
      forall w: World | Tame(w) ensures NoneSkipped(Run(w, Strict, all, keys, l).0.rows) {
        WiringIsSound(w, all, keys, l);
      }
    } else {
      HonestIsTame();
      HonestSkips(all, keys, l);
    }
  }

  lemma HonestSkips(all: seq<Stage>, keys: seq<string>, l: Log)
    requires l.rows == [] && Wired(all, Present(l.artifacts)) && IsChunked(all, keys)
    requires !AllMet(ChunkedOrder(all), Present(l.artifacts))
    ensures !NoneSkipped(Run(Honest, Strict, all, keys, l).0.rows)
  {
    hide Body, AllMet;
    EverythingPlanned(all);
    if NoneSkipped(Body(Honest, Strict, all, keys, l).0.rows) { HonestChunkedIsMet(all, keys, l); }
  }

  // -- the plan ------------------------------------------------------------------------------------

  /** What `plan` says would run, of stages that do just what they declare, is at least what does run. */
  lemma {:induction false} PlanLeavesNothingOut(todo: seq<Stage>, chunk: string, l: Log)
    ensures var rows := RunStages(Honest, Strict, todo, chunk, l).0.rows;
            && |rows| == |l.rows| + |todo| && l.rows <= rows
            && forall i :: 0 <= i < |todo| && rows[|l.rows| + i].status.Ok? ==> Met(todo, Present(l.artifacts), i)
    decreases |todo|
  {
    if todo != [] {
      HonestOne(todo[0], chunk, l);
      var r := One(Honest, Strict, todo[0], chunk, l);
      PlanLeavesNothingOut(todo[1..], chunk, r.0);
      var rows := RunStages(Honest, Strict, todo, chunk, l).0.rows;
      forall i | 0 <= i < |todo| && rows[|l.rows| + i].status.Ok? ensures Met(todo, Present(l.artifacts), i) {
        if i == 0 {
          assert rows[|l.rows|] == r.0.rows[|l.rows|] && todo[..0] == [];
        } else {
          assert Met(todo[1..], Present(r.0.artifacts), i - 1);
          AvailableAhead(todo[..i], Present(l.artifacts));
          assert todo[..i][1..] == todo[1..][..i - 1];
          AvailableMore(todo[1..][..i - 1], Present(r.0.artifacts), Present(l.artifacts) + Elements(todo[0].makes));
        }
      }
    }
  }

  lemma {:induction false} HonestOneMore(todo: seq<Stage>, s: Stage, chunk: string, l: Log)
    ensures RunStages(Honest, Strict, todo + [s], chunk, l)
            == One(Honest, Strict, s, chunk, RunStages(Honest, Strict, todo, chunk, l).0)
    decreases |todo|
  {
    if todo == [] {
      assert todo + [s] == [s] && [s][1..] == [];
      HonestOne(s, chunk, l);
    } else {
      HonestOne(todo[0], chunk, l);
      HonestOneMore(todo[1..], s, chunk, One(Honest, Strict, todo[0], chunk, l).0);
      assert (todo + [s])[1..] == todo[1..] + [s];
    }
  }

  /** The artifacts there before the i-th stage decide whether it runs. */
  lemma {:induction false} HonestAt(todo: seq<Stage>, chunk: string, l: Log, i: nat)
    requires i < |todo|
    ensures var rows := RunStages(Honest, Strict, todo, chunk, l).0.rows;
            var before := Present(RunStages(Honest, Strict, todo[..i], chunk, l).0.artifacts);
            var after := Present(RunStages(Honest, Strict, todo[..i + 1], chunk, l).0.artifacts);
            && |rows| == |l.rows| + |todo|
            && (rows[|l.rows| + i].status.Ok? <==> Elements(todo[i].needs) <= before)
            && after == before + if rows[|l.rows| + i].status.Ok? then Elements(todo[i].makes) else {}
    decreases |todo|
  {
    var n := |todo| - 1;
    assert todo == todo[..n] + [todo[n]];
    HonestOneMore(todo[..n], todo[n], chunk, l);
    HonestOne(todo[n], chunk, RunStages(Honest, Strict, todo[..n], chunk, l).0);
    PlanLeavesNothingOut(todo[..n], chunk, l);
    if i == n {
      assert todo[..i + 1] == todo;
    } else {
      HonestAt(todo[..n], chunk, l, i);
      assert todo[..n][..i] == todo[..i] && todo[..n][..i + 1] == todo[..i + 1];
    }
  }

  /** What was given and what the stages make that the plan itself says would run. */
  function CountedOn(stages: seq<Stage>, given: set<string>): set<string> {
    if stages == [] then given
    else
      var n := |stages| - 1;
      CountedOn(stages[..n], given) + if Met(stages, given, n) then Elements(stages[n].makes) else {}
  }

  predicate PlanRight(todo: seq<Stage>, chunk: string, l: Log, n: nat)
    requires n <= |todo|
  {
    var rows := RunStages(Honest, Strict, todo, chunk, l).0.rows;
    |rows| == |l.rows| + |todo|
    && forall i :: 0 <= i < n ==> (rows[|l.rows| + i].status.Ok? <==> Met(todo, Present(l.artifacts), i))
  }

  lemma MetEarlier(todo: seq<Stage>, given: set<string>, n: nat, i: nat)
    requires i < n <= |todo|
    ensures Met(todo[..n], given, i) <==> Met(todo, given, i)
  {
    assert todo[..n][..i] == todo[..i];
  }

  lemma NothingRun(chunk: string, l: Log)
    ensures RunStages(Honest, Strict, [], chunk, l).0 == l
  {
  }

  lemma {:induction false} CountedOnIsThere(todo: seq<Stage>, chunk: string, l: Log, n: nat)
    requires n <= |todo| && PlanRight(todo, chunk, l, n)
    ensures Present(RunStages(Honest, Strict, todo[..n], chunk, l).0.artifacts) == CountedOn(todo[..n], Present(l.artifacts))
    decreases n
  {
    hide RunStages, Met;
    if n > 0 {
      CountedOnIsThere(todo, chunk, l, n - 1);
      HonestAt(todo, chunk, l, n - 1);
      assert todo[..n][..n - 1] == todo[..n - 1];
      MetEarlier(todo, Present(l.artifacts), n, n - 1);
    } else {
      assert todo[..0] == [];
      NothingRun(chunk, l);
    }
  }

  predicate CountsRight(todo: seq<Stage>, given: set<string>, i: nat)
    requires i < |todo|
  {
    Met(todo, given, i) ==> Elements(todo[i].needs) <= CountedOn(todo[..i], given)
  }

  lemma {:induction false} RightUpTo(todo: seq<Stage>, chunk: string, l: Log, n: nat)
    requires n <= |todo| && forall i :: 0 <= i < n ==> CountsRight(todo, Present(l.artifacts), i)
    ensures PlanRight(todo, chunk, l, n)
    decreases n
  {
    hide RunStages, CountedOn, Met;
    PlanLeavesNothingOut(todo, chunk, l);
    if n > 0 {
      RightUpTo(todo, chunk, l, n - 1);
      CountedOnIsThere(todo, chunk, l, n - 1);
      HonestAt(todo, chunk, l, n - 1);
      assert CountsRight(todo, Present(l.artifacts), n - 1);
    }
  }

  /** When the plan is right: the stages that run are those it says would, if and only if each of those finds
      its needs among what was given and what the earlier ones of those make. */
  lemma PlanIsRight(todo: seq<Stage>, chunk: string, l: Log)
    ensures PlanRight(todo, chunk, l, |todo|)
            <==> forall i :: 0 <= i < |todo| ==> CountsRight(todo, Present(l.artifacts), i)
  {
    hide RunStages;
    if PlanRight(todo, chunk, l, |todo|) {
      forall i | 0 <= i < |todo| ensures CountsRight(todo, Present(l.artifacts), i) {
        CountedOnIsThere(todo, chunk, l, i);
        HonestAt(todo, chunk, l, i);
      }
    } else if forall i :: 0 <= i < |todo| ==> CountsRight(todo, Present(l.artifacts), i) {
      RightUpTo(todo, chunk, l, |todo|);
    }
  }

  const NeedsW := Stage("first", PerJob, ["w"], ["x"], false)
  const NeedsOnlyX := Stage("second", PerJob, ["x"], [], false)

  /** It can be more: the plan counts on the outputs of a stage it says would not run. */
  lemma PlanCountsOnTheSkipped()
    ensures var todo, l := [NeedsW, NeedsOnlyX], Log(map[], 0, [], []);
            && !Met(todo, Present(l.artifacts), 0) && Met(todo, Present(l.artifacts), 1)
            && RunStages(Honest, Strict, todo, "", l).0.rows == [Row(NeedsW, "", Skipped), Row(NeedsOnlyX, "", Skipped)]
  {
    hide One, RunStages;
    var todo, l := [NeedsW, NeedsOnlyX], Log(map[], 0, [], []);
    assert Present(l.artifacts) == {};
    assert "w" in Elements(NeedsW.needs) && "x" in Elements(NeedsOnlyX.needs) by {
      assert "w" in NeedsW.needs && "x" in NeedsOnlyX.needs;
    }
    assert todo[..0] == [] && todo[..1] == [NeedsW] && [] + [NeedsW] == [NeedsW];
    ListMore([], NeedsW, {});
    assert Elements(NeedsW.makes) == {"x"};
    HonestOne(NeedsW, "", l);
    var r := One(Honest, Strict, NeedsW, "", l);
    HonestOne(NeedsOnlyX, "", r.0);
    TwoStages(NeedsW, NeedsOnlyX, "", l);
  }

  /** Two stages of which the first does not stop the run. */
  lemma TwoStages(first: Stage, second: Stage, chunk: string, l: Log)
    requires One(Honest, Strict, first, chunk, l).1.Through?
    requires One(Honest, Strict, second, chunk, One(Honest, Strict, first, chunk, l).0).1.Through?
    ensures RunStages(Honest, Strict, [first, second], chunk, l)
            == One(Honest, Strict, second, chunk, One(Honest, Strict, first, chunk, l).0)
  {
    hide One;
    assert [first, second][1..] == [second] && [second][1..] == [];
    NothingRun(chunk, One(Honest, Strict, second, chunk, One(Honest, Strict, first, chunk, l).0).0);
  }

  // -- where wiring says too little -------------------------------------------------------------

  const MakesX := Stage("make", PerJob, [], ["x"], false)
  const NeedsX := Stage("use", PerChunk, ["x"], ["y"], false)

  /** A chunked run does its chunk-scoped stages first wherever they stand in the list: a pipeline can
      pass wiring, skip a stage on every chunk, make none of its outputs and still be ok. */
  lemma WiringMissesTheOrder(first: string, second: string)
    ensures var r := Run(Honest, Strict, [MakesX, NeedsX], [first, second], Log(map[], 0, [], []));
            && Wired([MakesX, NeedsX], {})
            && r.1 == Some(Finished(true, [Row(NeedsX, first, Skipped), Row(NeedsX, second, Skipped), Row(MakesX, "", Ok)], false))
            && !Has(r.0.artifacts, "y")
  {
    var all, keys, l := [MakesX, NeedsX], [first, second], Log(map[], 0, [], []);
    SmallIsWired();
    assert Present(l.artifacts) == {};
    EverythingPlanned(all);
    OrderBody(first, second, l);
    assert "y" !in Present(Run(Honest, Strict, all, keys, l).0.artifacts);
  }

  lemma OrderBody(first: string, second: string, l: Log)
    requires l == Log(map[], 0, [], [])
    ensures var b := Body(Honest, Strict, [MakesX, NeedsX], [first, second], l);
            && b.1.Through? && Present(b.0.artifacts) == {"x"} && AllFine(b.0.rows)
            && b.0.rows + [] == [Row(NeedsX, first, Skipped), Row(NeedsX, second, Skipped), Row(MakesX, "", Ok)]
    ensures !ChunkBroke(Honest, Strict, [MakesX, NeedsX], [first, second], l)
  {
    hide RunChunks, RunStages, Scoped;
    SmallLists();
    ChunksSkip(first, second, Begun(3, l));
    var m := ChunkPart(Honest, Strict, [MakesX, NeedsX], [first, second], l);
    assert m == RunChunks(Honest, Strict, [NeedsX], [first, second], Begun(3, l));
    LastMakes(m.0);
  }

  lemma SmallLists()
    ensures Scoped([MakesX, NeedsX], PerChunk) == [NeedsX] && Scoped([MakesX, NeedsX], PerJob) == [MakesX]
  {
    assert [] + [MakesX] == [MakesX] && [MakesX] + [NeedsX] == [MakesX, NeedsX];
    ListMore([], MakesX, {});
    ListMore([MakesX], NeedsX, {});
  }

  lemma SmallIsWired()
    ensures Wired([MakesX, NeedsX], {})
  {
    var all := [MakesX, NeedsX];
    assert [] + [MakesX] == [MakesX] && [MakesX] + [NeedsX] == all;
    ListMore([], MakesX, {});
    ListMore([MakesX], NeedsX, {});
    assert all[..0] == [] && all[..1] == [MakesX];
    assert Met(all, {}, 0) && Met(all, {}, 1);
    assert [] + ["x"] == ["x"] && ["x"] + ["y"] == ["x", "y"];
  }

  lemma ListMore(stages: seq<Stage>, s: Stage, given: set<string>)
    ensures Scoped(stages + [s], s.scope) == Scoped(stages, s.scope) + [s]
    ensures forall scope :: scope != s.scope ==> Scoped(stages + [s], scope) == Scoped(stages, scope)
    ensures Made(stages + [s]) == Made(stages) + s.makes
    ensures Available(stages + [s], given) == Available(stages, given) + Elements(s.makes)
  {
    assert (stages + [s])[..|stages|] == stages;
  }

  lemma SkipsUse(key: string, l: Log)
    requires l.artifacts == map[]
    ensures var r := RunStages(Honest, Strict, [NeedsX], key, l);
            r.1.Through? && r.0.artifacts == map[] && r.0.rows == l.rows + [Row(NeedsX, key, Skipped)]
  {
    HonestOne(NeedsX, key, l);
    assert "x" in Elements(NeedsX.needs) by { assert "x" in NeedsX.needs; }
    assert [NeedsX][1..] == [];
  }

  lemma ChunkSkips(key: string, l: Log)
    requires l.artifacts == map[]
    ensures var r := RunChunk(Honest, Strict, [NeedsX], key, l);
            r.1.Through? && r.0.artifacts == map[] && r.0.rows == l.rows + [Row(NeedsX, key, Skipped)]
  {
    SkipsUse(key, Entered(Honest, key, l).0);
  }

  lemma ChunksSkip(first: string, second: string, l: Log)
    requires l.artifacts == map[] && l.rows == []
    ensures var r := RunChunks(Honest, Strict, [NeedsX], [first, second], l);
            && r.1.Through? && r.0.artifacts == map[]
            && r.0.rows == [Row(NeedsX, first, Skipped), Row(NeedsX, second, Skipped)]
  {
    ChunkSkips(first, l);
    var c := RunChunk(Honest, Strict, [NeedsX], first, l);
    ChunkSkips(second, c.0);
    assert [first, second][1..] == [second] && [second][1..] == [];
    assert RunChunks(Honest, Strict, [NeedsX], [second], c.0) == RunChunk(Honest, Strict, [NeedsX], second, c.0);
  }

  lemma LastMakes(l: Log)
    requires l.artifacts == map[]
    ensures var r := RunStages(Honest, Strict, [MakesX], "", l);
            r.1.Through? && Present(r.0.artifacts) == {"x"} && r.0.rows == l.rows + [Row(MakesX, "", Ok)]
  {
    HonestOne(MakesX, "", l);
    assert Elements(MakesX.makes) == {"x"};
    assert [MakesX][1..] == [];
  }
}

/** Resuming: skip the leading stages that are recorded as finished and still verify. */
module Resume {
  import opened Options
  import opened Stages
  import opened Events
  import opened Runners
  import opened WiringProofs

  datatype Report = Report(skip: seq<string>, startAt: Option<string>)

  datatype Trimmed = Plan(report: Report) | NoSuchStage | Escaped

  function Names(stages: seq<Stage>): seq<string> { seq(|stages|, i requires 0 <= i < |stages| => stages[i].name) }

  /** The record says the stage finished. */
  predicate Claimed(completed: map<string, State>, s: Stage) {
    s.name in completed && completed[s.name] in {Ended(Ok), Ended(Skipped)}
  }

  /** How many leading stages auto mode skips; nothing when a verification's exception escapes. */
  function Lead(w: World, stages: seq<Stage>, completed: map<string, State>, n: nat, a: Artifacts): Option<nat> {
    if stages == [] || !Claimed(completed, stages[0]) then Some(0)
    else
      var v := w.verify(n, stages[0], a);
      match v.reply
      case Escapes => None
      case Yes =>
        var more := Lead(w, stages[1..], completed, n + 1, v.after);
        if more.None? then None else Some(more.value + 1)
      case _ => Some(0)
  }

  method Trim(w: World, stages: seq<Stage>, ctx: Context, mode: string, completed: map<string, State>)
      returns (r: Trimmed)
    modifies ctx
    ensures mode == "never" ==> r == Plan(Report([], if stages == [] then None else Some(stages[0].name)))
    ensures mode !in ["never", "auto", ""] ==>
              if mode !in Names(stages) then r == NoSuchStage
              else exists i :: 0 <= i < |stages| && stages[i].name == mode && mode !in Names(stages[..i])
                     && r == Plan(Report(Names(stages[..i]), Some(mode)))
    ensures mode in ["auto", ""] ==>
              var k := Lead(w, stages, completed, old(ctx.calls), old(ctx.artifacts));
              if k.None? then r == Escaped
              else k.value <= |stages|
                   && r == Plan(Report(Names(stages[..k.value]), if k.value < |stages| then Some(stages[k.value].name) else None))
    ensures mode !in ["auto", ""] ==> ctx.artifacts == old(ctx.artifacts)
  {
    if mode == "never" { return Plan(Report([], if stages == [] then None else Some(stages[0].name))); }
    if mode != "auto" && mode != "" {
      r := StartAt(stages, mode);
    } else {
      r := SkipVerified(w, stages, ctx, completed);
    }
  }

  method StartAt(stages: seq<Stage>, mode: string) returns (r: Trimmed)
    ensures if mode !in Names(stages) then r == NoSuchStage
            else exists i :: 0 <= i < |stages| && stages[i].name == mode && mode !in Names(stages[..i])
                   && r == Plan(Report(Names(stages[..i]), Some(mode)))
  {
    var i := 0;
    while i < |stages| && stages[i].name != mode
      invariant i <= |stages| && mode !in Names(stages[..i])
    {
      assert Names(stages[..i + 1]) == Names(stages[..i]) + [stages[i].name];
      i := i + 1;
    }
    assert i == |stages| ==> stages[..i] == stages;
    assert i < |stages| ==> Names(stages)[i] == mode;
    return if i == |stages| then NoSuchStage else Plan(Report(Names(stages[..i]), Some(mode)));
  }

  method SkipVerified(w: World, stages: seq<Stage>, ctx: Context, completed: map<string, State>) returns (r: Trimmed)
    modifies ctx
    ensures var k := Lead(w, stages, completed, old(ctx.calls), old(ctx.artifacts));
            if k.None? then r == Escaped
            else k.value <= |stages|
                 && r == Plan(Report(Names(stages[..k.value]), if k.value < |stages| then Some(stages[k.value].name) else None))
  {
    var skip: seq<string> := [];
    ghost var whole := Lead(w, stages, completed, ctx.calls, ctx.artifacts);
    for i := 0 to |stages|
      invariant skip == Names(stages[..i])
      invariant var k := Lead(w, stages[i..], completed, ctx.calls, ctx.artifacts);
                whole == if k.None? then None else Some(k.value + i)
    {
      assert stages[i..][1..] == stages[i + 1..];
      if !Claimed(completed, stages[i]) { return Plan(Report(skip, Some(stages[i].name))); }
      var v := w.verify(ctx.calls, stages[i], ctx.artifacts);
      ctx.artifacts, ctx.calls := v.after, ctx.calls + 1;
      if v.reply.Escapes? { return Escaped; }
      if !v.reply.Yes? { return Plan(Report(skip, Some(stages[i].name))); }
      skip := skip + [stages[i].name];
    }
    assert stages[..|stages|] == stages;
    r := Plan(Report(skip, None));
  }

  function Dropping(stages: seq<Stage>, skip: seq<string>): seq<Stage> {
    if stages == [] then []
    else
      var last := stages[|stages| - 1];
      Dropping(stages[..|stages| - 1], skip) + if last.name in skip then [] else [last]
  }

  method Apply(stages: seq<Stage>, report: Report) returns (kept: seq<Stage>)
    ensures kept == Dropping(stages, report.skip)
  {
    if report.skip == [] {
      SkipNothing(stages);
      return stages;
    }
    kept := [];
    for i := 0 to |stages|
      invariant kept == Dropping(stages[..i], report.skip)
    {
      assert stages[..i + 1][..i] == stages[..i];
      if stages[i].name !in report.skip { kept := kept + [stages[i]]; }
    }
    assert stages[..|stages|] == stages;
  }

  lemma {:induction false} SkipNothing(stages: seq<Stage>)
    ensures Dropping(stages, []) == stages
    decreases |stages|
  {
    if stages != [] {
      SkipNothing(stages[..|stages| - 1]);
      assert stages == stages[..|stages| - 1] + [stages[|stages| - 1]];
    }
  }

  // -- what is skipped -----------------------------------------------------------------------------

  /** Verification only looks: it changes nothing, and asks the same of the same artifacts. */
  ghost predicate OnlyLooks(w: World) {
    && (forall n, s, a :: w.verify(n, s, a).after == a)
    && (forall n, m, s, a :: w.verify(n, s, a).reply == w.verify(m, s, a).reply)
  }

  /** The record has it as ok or skipped. */
  predicate Recorded(completed: map<string, State>, s: Stage) {
    s.name in completed && (completed[s.name] == Ended(Ok) || completed[s.name] == Ended(Skipped))
  }

  /** Recorded as finished, and its outputs pass now. */
  predicate StillDone(w: World, completed: map<string, State>, a: Artifacts, s: Stage) {
    Recorded(completed, s) && w.verify(0, s, a).reply.Yes?
  }

  /** Auto mode skips exactly the longest prefix of stages that are claimed and verified; a verification that
      raises does not pass, and only what `except Exception` lets through ends it without a plan. */
  lemma {:induction false} LongestVerifiedPrefix(w: World, stages: seq<Stage>, completed: map<string, State>, n: nat, a: Artifacts)
    requires OnlyLooks(w)
    ensures var k := Lead(w, stages, completed, n, a);
            k.Some? ==>
              && k.value <= |stages|
              && (forall i :: 0 <= i < k.value ==> StillDone(w, completed, a, stages[i]))
              && (k.value < |stages| ==> !StillDone(w, completed, a, stages[k.value]))
              && (k.value < |stages| && Recorded(completed, stages[k.value]) ==> !w.verify(0, stages[k.value], a).reply.Escapes?)
    ensures Lead(w, stages, completed, n, a).None? ==>
              exists i :: 0 <= i < |stages| && Recorded(completed, stages[i]) && w.verify(0, stages[i], a).reply.Escapes?
    decreases |stages|
  {
    if stages != [] && Claimed(completed, stages[0]) {
      assert w.verify(n, stages[0], a).reply == w.verify(0, stages[0], a).reply;
      if w.verify(n, stages[0], a).reply.Yes? {
        LongestVerifiedPrefix(w, stages[1..], completed, n + 1, a);
        var more := Lead(w, stages[1..], completed, n + 1, a);
        if more.Some? {
          assert forall i :: 0 < i < more.value + 1 ==> stages[i] == stages[1..][i - 1];
        } else {
          var i :| 0 <= i < |stages[1..]| && Recorded(completed, stages[1..][i]) && w.verify(0, stages[1..][i], a).reply.Escapes?;
          assert stages[i + 1] == stages[1..][i];
        }
      }
    }
  }

  // -- what is left ----------------------------------------------------------------------------------

  lemma {:induction false} WithoutLater(stages: seq<Stage>, later: seq<Stage>, skip: seq<string>)
    ensures Dropping(stages + later, skip) == Dropping(stages, skip) + Dropping(later, skip)
    decreases |later|
  {
    if later == [] {
      assert stages + later == stages;
    } else {
      WithoutLater(stages, later[..|later| - 1], skip);
      assert (stages + later)[..|stages + later| - 1] == stages + later[..|later| - 1];
    }
  }

  lemma {:induction false} WithoutAll(stages: seq<Stage>, skip: seq<string>)
    requires forall s <- stages :: s.name in skip
    ensures Dropping(stages, skip) == []
    decreases |stages|
  {
    if stages != [] { WithoutAll(stages[..|stages| - 1], skip); }
  }

  lemma {:induction false} WithoutIsAll(stages: seq<Stage>, skip: seq<string>)
    ensures |Dropping(stages, skip)| <= |stages|
    ensures Dropping(stages, skip) == stages <==> forall s <- stages :: s.name !in skip
    decreases |stages|
  {
    if stages != [] {
      var init, last := stages[..|stages| - 1], stages[|stages| - 1];
      WithoutIsAll(init, skip);
      var r := Dropping(init, skip);
      assert Dropping(stages, skip) == r + (if last.name in skip then [] else [last]);
      assert stages == init + [last];
      hide Dropping;
      if last.name in skip {
        assert |Dropping(stages, skip)| < |stages| && last in stages;
      } else {
        assert r + [last] == init + [last] <==> r == init by {
          if r + [last] == init + [last] { assert r == (r + [last])[..|r|] && |r| == |init|; }
        }
      }
    }
  }

  /** `apply` leaves exactly the suffix after the skipped stages if and only if none of the later ones
      bears a skipped name; a repeated name is dropped too. */
  lemma ApplyLeavesTheRest(stages: seq<Stage>, k: nat)
    requires k <= |stages|
    ensures Dropping(stages, Names(stages[..k])) == stages[k..]
            <==> forall s <- stages[k..] :: s.name !in Names(stages[..k])
  {
    hide Dropping;
    var skip := Names(stages[..k]);
    assert stages == stages[..k] + stages[k..];
    WithoutLater(stages[..k], stages[k..], skip);
    assert forall i :: 0 <= i < k ==> skip[i] == stages[..k][i].name;
    WithoutAll(stages[..k], skip);
    WithoutIsAll(stages[k..], skip);
  }

  lemma DistinctNamesLeaveTheRest(stages: seq<Stage>, k: nat)
    requires k <= |stages| && NamesDiffer(stages)
    ensures Dropping(stages, Names(stages[..k])) == stages[k..]
  {
    hide Dropping;
    forall s | s in stages[k..] ensures s.name !in Names(stages[..k]) {
      var j :| 0 <= j < |stages[k..]| && stages[k..][j] == s;
      assert s == stages[k + j];
    }
    ApplyLeavesTheRest(stages, k);
  }

  // -- wiring after a resume ----------------------------------------------------------------------------

  lemma {:induction false} MadeParts(first: seq<Stage>, rest: seq<Stage>)
    ensures Made(first + rest) == Made(first) + Made(rest)
    decreases |rest|
  {
    if rest == [] {
      assert first + rest == first;
    } else {
      var init, last, all := rest[..|rest| - 1], rest[|rest| - 1], first + rest;
      MadeParts(first, init);
      assert all[..|all| - 1] == first + init && all[|all| - 1] == last;
      assert Made(all) == Made(first + init) + last.makes;
      assert Made(rest) == Made(init) + last.makes;
    }
  }

  lemma {:induction false} AvailableIsPresent(stages: seq<Stage>, a: Artifacts)
    requires forall s <- stages :: HasAll(a, s.makes)
    ensures Available(stages, Present(a)) == Present(a)
    decreases |stages|
  {
    if stages != [] {
      var last := stages[|stages| - 1];
      AvailableIsPresent(stages[..|stages| - 1], a);
      assert HasAll(a, last.makes);
      assert forall key <- Elements(last.makes) :: key in last.makes;
    }
  }

  lemma SuffixStaysWired(stages: seq<Stage>, k: nat, a: Artifacts)
    requires k <= |stages| && Wired(stages, Present(a)) && forall s <- stages[..k] :: HasAll(a, s.makes)
    ensures Wired(stages[k..], Present(a))
  {
    assert stages == stages[..k] + stages[k..];
    AvailableIsPresent(stages[..k], a);
    MetAfter(stages[..k], stages[k..], Present(a), Present(a));
    MadeParts(stages[..k], stages[k..]);
    forall i, j | 0 <= i < j < |Made(stages[k..])| ensures Made(stages[k..])[i] != Made(stages[k..])[j] {
      var before := |Made(stages[..k])|;
      assert Made(stages)[before + i] == Made(stages[k..])[i] && Made(stages)[before + j] == Made(stages[k..])[j];
    }
  }

  /** A valid pipeline trimmed by the default verification is still a valid pipeline. */
  lemma TrimmedStaysWired(w: World, stages: seq<Stage>, completed: map<string, State>, n: nat, a: Artifacts)
    requires DefaultVerify(w) && NamesDiffer(stages) && Wired(stages, Present(a))
    ensures var k := Lead(w, stages, completed, n, a);
            && k.Some? && k.value <= |stages|
            && (forall s <- stages[..k.value] :: HasAll(a, s.makes))
            && Dropping(stages, Names(stages[..k.value])) == stages[k.value..]
            && Wired(stages[k.value..], Present(a))
  {
    NeverEscapes(w, stages, completed, n, a);
    LongestVerifiedPrefix(w, stages, completed, n, a);
    var k := Lead(w, stages, completed, n, a).value;
    forall s | s in stages[..k] ensures HasAll(a, s.makes) {
      var i :| 0 <= i < k && stages[i] == s;
      assert StillDone(w, completed, a, stages[i]);
    }
    DistinctNamesLeaveTheRest(stages, k);
    SuffixStaysWired(stages, k, a);
  }

  lemma {:induction false} NeverEscapes(w: World, stages: seq<Stage>, completed: map<string, State>, n: nat, a: Artifacts)
    requires DefaultVerify(w)
    ensures Lead(w, stages, completed, n, a).Some?
    decreases |stages|
  {
    if stages != [] { NeverEscapes(w, stages[1..], completed, n + 1, a); }
  }

  /** A resumed run that ends ok has every output of the whole pipeline, the skipped stages' included,
      and skipped nothing else. */
  lemma ResumedRunIsWhole(w: World, stages: seq<Stage>, completed: map<string, State>, keys: seq<string>, l: Log)
    requires Tame(w) && Required(stages) && NamesDiffer(stages) && l.rows == []
    requires Wired(stages, Present(l.artifacts))
    requires var k := Lead(w, stages, completed, l.calls, l.artifacts);
             k.Some? && k.value <= |stages| ==> MetAsRun(stages[k.value..], keys, Present(l.artifacts))
    ensures var k := Lead(w, stages, completed, l.calls, l.artifacts);
            && k.Some? && k.value <= |stages|
            && var r := Run(w, Strict, Dropping(stages, Names(stages[..k.value])), keys, l);
            && NoneSkipped(r.0.rows)
            && (r.1.Some? ==> r.1.value.Finished?)
            && (r.1.Some? && r.1.value.ok ==> forall s <- stages :: HasAll(r.0.artifacts, s.makes))
  {
    TrimmedStaysWired(w, stages, completed, l.calls, l.artifacts);
    SuffixRunIsWhole(w, stages, Lead(w, stages, completed, l.calls, l.artifacts).value, keys, l);
  }

  lemma SuffixRunIsWhole(w: World, stages: seq<Stage>, k: nat, keys: seq<string>, l: Log)
    requires Tame(w) && Required(stages) && l.rows == []
    requires k <= |stages| && Wired(stages[k..], Present(l.artifacts)) && MetAsRun(stages[k..], keys, Present(l.artifacts))
    requires forall s <- stages[..k] :: HasAll(l.artifacts, s.makes)
    ensures var r := Run(w, Strict, stages[k..], keys, l);
            && NoneSkipped(r.0.rows)
            && (r.1.Some? ==> r.1.value.Finished?)
            && (r.1.Some? && r.1.value.ok ==> forall s <- stages :: HasAll(r.0.artifacts, s.makes))
  {
    WiringIsSound(w, stages[k..], keys, l);
    var r := Run(w, Strict, stages[k..], keys, l);
    if r.1.Some? && r.1.value.ok {
      assert stages == stages[..k] + stages[k..];
      forall s | s in stages[..k] ensures HasAll(r.0.artifacts, s.makes) {
        assert forall key <- s.makes :: key in Present(l.artifacts);
      }
    }
  }
}

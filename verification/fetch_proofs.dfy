/** What the download loop keeps and where it ends, against any server, link and deadline. */
module FetchProofs {
  import opened Options
  import opened Fetch

  // -- the file is never corrupted ---------------------------------------------------------------

  /** An answer about a file whose content is C: the whole of it, or what follows the offset asked for
      (sections 14.2, 15.3.1, 15.3.7 of RFC 9110); it may be cut anywhere, and totals are told or not. */
  predicate HonestReply(C: Content, offset: nat, r: Reply) {
    r.Body? ==>
      && (r.status == 200 || r.status == 206)
      && (r.rangeTotal.Some? ==> r.rangeTotal.value == |C|)
      && (r.status == 200 ==> r.data <= C && (r.contentLength.Some? ==> r.contentLength.value == |C|))
      && (r.status == 206 ==>
            && 0 < offset <= |C| && r.data <= C[offset..]
            && (r.contentLength.Some? ==> r.contentLength.value == |C| - offset))
  }

  ghost predicate Honest(C: Content, world: World) {
    forall n: nat, offset: nat :: HonestReply(C, offset, world.reply(n, offset))
  }

  predicate PartOf(part: Option<Content>, C: Content) { part.Some? ==> part.value <= C }

  /** What a pass may leave, however it ends. */
  predicate Sound(w: Wanted, C: Content, pass: Pass) {
    match pass
    case Again(next) => PartOf(next.part, C)
    case Stop(outcome, part, delivered, total) =>
      && PartOf(part, C) && PartOf(delivered, C)
      && (outcome.Done? <==> delivered.Some?)
      && (outcome.Done? && total.Some? ==> |delivered.value| == |C|)
      && (outcome.Done? && w.size.Some? ==> |delivered.value| == w.size.value)
      && (outcome.Done? && w.sha.Some? ==> w.hash(delivered.value) == w.sha.value)
  }

  lemma AttemptKeepsPrefix(w: Wanted, C: Content, s: Progress, world: World, n: nat)
    requires Honest(C, world) && PartOf(s.part, C)
    ensures Sound(w, C, Attempt(w, s, world, n))
  {
    hide Took, HonestReply;
    var part := Kept(w, s.part);
    var b := world.reply(n, Size(part));
    assert HonestReply(C, Size(part), b);
    if b.Body? { TookKeepsPrefix(w, C, Progress(part, s.stalls, s.restarted), b); }
  }

  lemma TookKeepsPrefix(w: Wanted, C: Content, s: Progress, b: Reply)
    requires PartOf(s.part, C) && b.Body? && HonestReply(C, Size(s.part), b)
    ensures Sound(w, C, Took(w, s, b))
  {
    AppendKeepsPrefix(C, s.part, b);
  }

  lemma AppendKeepsPrefix(C: Content, part: Option<Content>, b: Reply)
    requires PartOf(part, C) && b.Body? && HonestReply(C, Size(part), b)
    ensures var from := if b.status == 200 then 0 else Size(part);
            && (if from > 0 then part.value else []) + b.data <= C
            && (TotalOf(b.rangeTotal, b.contentLength, from).Some? ==> TotalOf(b.rangeTotal, b.contentLength, from).value == |C|)
  {
    var from := if b.status == 200 then 0 else Size(part);
    if from > 0 {
      assert part.value == C[..from];
      assert C == C[..from] + C[from..];
    }
  }

  lemma {:induction false} RunKeepsPrefix(w: Wanted, C: Content, world: World, s: Progress, n: nat, limit: nat)
    requires n <= limit && Honest(C, world) && PartOf(s.part, C)
    ensures var r := Run(w, world, s, n, limit);
            Sound(w, C, Stop(r.outcome, r.part, r.delivered, r.total))
    decreases limit - n
  {
    if n < limit {
      AttemptKeepsPrefix(w, C, s, world, n);
      match Attempt(w, s, world, n)
      case Again(next) => RunKeepsPrefix(w, C, world, next, n + 1, limit);
      case Stop(_, _, _, _) =>
    }
  }

  /** Only C itself has C's digest. */
  ghost predicate NoCollision(w: Wanted, C: Content) { forall x: Content :: w.hash(x) == w.hash(C) ==> x == C }

  /** Through every mix of 206, 200, 416, errors and drops the `.part` stays a beginning of C; and a
      normal return that knows the size, the total or the digest leaves C itself. */
  lemma DownloadIsWhole(w: Wanted, C: Content, world: World, part: Option<Content>, limit: nat)
    requires Honest(C, world) && PartOf(part, C)
    ensures var r := Run(w, world, Progress(part, 0, false), 0, limit);
            && PartOf(r.part, C)
            && (r.outcome.Done? ==>
                  && r.delivered.Some? && r.delivered.value <= C
                  && (w.size == Some(|C|) || r.total.Some? || (w.sha == Some(w.hash(C)) && NoCollision(w, C))
                      ==> r.delivered.value == C))
  {
    RunKeepsPrefix(w, C, world, Progress(part, 0, false), 0, limit);
  }

  /** What an answer carries that tells nothing of the whole and lacks its last byte. */
  function Short(C: Content): World
    requires C != []
  {
    World((n, offset) => Body(200, None, None, C[..|C| - 1], Complete), n => false)
  }

  /** With nothing known of the whole, a stream that just ends is taken for it: for every content but the empty
      one there is an honest server of which the download is done and delivers less. */
  lemma UnknownTotalMayBeShort(w: Wanted, C: Content, part: Option<Content>, limit: nat)
    requires w.size.None? && w.sha.None? && C != [] && limit > 0
    ensures Honest(C, Short(C))
    ensures var r := Run(w, Short(C), Progress(part, 0, false), 0, limit);
            r.outcome.Done? && r.delivered == Some(C[..|C| - 1]) && r.delivered.value != C
  {
    var s, less := Progress(part, 0, false), C[..|C| - 1];
    assert [] + less == less;
    assert Took(w, s, Short(C).reply(0, Size(part))) == Finished(w, less, None);
    assert Attempt(w, s, Short(C), 0) == Stop(Done, None, Some(less), None);
  }

  // -- and the loop ends ----------------------------------------------------------------------

  ghost predicate RangeHonouring(world: World) {
    forall n: nat, offset: nat :: offset > 0 && world.reply(n, offset).Body? ==> world.reply(n, offset).status == 206
  }

  /** What is still to come of C: all of it when the `.part` will be thrown away. */
  function Missing(w: Wanted, C: Content, part: Option<Content>): nat {
    var size := Size(Kept(w, part)); if size <= |C| then |C| - size else 0
  }

  /** Not yet restarted, then bytes missing, then stalls left: folded into one number. */
  function Measure(w: Wanted, C: Content, s: Progress): nat
    requires s.stalls <= w.retries
  {
    (if s.restarted then 0 else |C| + 1) * (w.retries + 1) + Missing(w, C, s.part) * (w.retries + 1) + (w.retries + 1 - s.stalls)
  }

  lemma Scaled(a: nat, b: nat, q: nat)
    requires a <= b
    ensures a * q <= b * q && b * q - a * q == (b - a) * q
  {
  }

  /** A pass that goes round again has used up some of the measure. */
  lemma AttemptProgresses(w: Wanted, C: Content, s: Progress, world: World, n: nat)
    requires Honest(C, world) && RangeHonouring(world) && !world.late(n)
    requires w.size.None? || w.size.value == |C|
    requires s.stalls <= w.retries && Attempt(w, s, world, n).Again?
    ensures var next := Attempt(w, s, world, n).next; next.stalls <= w.retries && Measure(w, C, next) < Measure(w, C, s)
  {
    var next := Attempt(w, s, world, n).next;
    var part := Kept(w, s.part);
    var b := world.reply(n, Size(part));
    var q := w.retries + 1;
    assert HonestReply(C, Size(part), b);
    match b {
      case HttpError(_) =>
        assert next == Progress(None, s.stalls, true);
        Scaled(0, Missing(w, C, s.part), q);
        assert (|C| + 1) * q == |C| * q + q;
      case NoConnection =>
      case Body(_, _, _, _, _) => BodyProgresses(w, C, s, part, b, next);
    }
  }

  lemma BodyProgresses(w: Wanted, C: Content, s: Progress, part: Option<Content>, b: Reply, next: Progress)
    requires part == Kept(w, s.part) && b.Body? && HonestReply(C, Size(part), b) && (Size(part) > 0 ==> b.status == 206)
    requires w.size.None? || w.size.value == |C|
    requires s.stalls <= w.retries && Took(w, Progress(part, s.stalls, s.restarted), b) == Again(next)
    ensures next.stalls <= w.retries && Measure(w, C, next) < Measure(w, C, s)
  {
    var q := w.retries + 1;
    assert Size(next.part) == Size(part) + |b.data| <= |C|;
    assert Missing(w, C, next.part) == |C| - Size(part) - |b.data|;
    if b.data != [] {
      Scaled(Missing(w, C, next.part) + 1, Missing(w, C, s.part), q);
      assert (Missing(w, C, next.part) + 1) * q == Missing(w, C, next.part) * q + q;
    }
  }

  lemma {:induction false} RunEnds(w: Wanted, C: Content, world: World, s: Progress, n: nat, limit: nat)
    requires n <= limit && Honest(C, world) && RangeHonouring(world) && (forall k: nat :: !world.late(k))
    requires w.size.None? || w.size.value == |C|
    requires s.stalls <= w.retries && Measure(w, C, s) <= limit - n
    ensures !Run(w, world, s, n, limit).outcome.Pending?
    decreases limit - n
  {
    var pass := Attempt(w, s, world, n);
    if pass.Again? {
      AttemptProgresses(w, C, s, world, n);
      RunEnds(w, C, world, pass.next, n + 1, limit);
    } else {
      StopIsNotPending(w, s, world, n);
    }
  }

  lemma StopIsNotPending(w: Wanted, s: Progress, world: World, n: nat)
    requires Attempt(w, s, world, n).Stop?
    ensures !Attempt(w, s, world, n).outcome.Pending?
  {
  }

  /** Against a server that honours ranges, with no deadline and the right size or none, the loop ends
      within 2 (|C| + 1) (retries + 1) requests however connections drop, whatever `.part` it found. */
  lemma DownloadEnds(w: Wanted, C: Content, world: World, part: Option<Content>, limit: nat)
    requires Honest(C, world) && RangeHonouring(world) && (forall k: nat :: !world.late(k))
    requires w.size.None? || w.size.value == |C|
    ensures var r := Run(w, world, Progress(part, 0, false), 0, limit);
            && (limit >= 2 * (|C| + 1) * (w.retries + 1) ==> !r.outcome.Pending?)
            && (!r.outcome.Pending? ==> r.passes <= 2 * (|C| + 1) * (w.retries + 1))
  {
    hide Run, Honest, RangeHonouring;
    var s := Progress(part, 0, false);
    var bound := 2 * (|C| + 1) * (w.retries + 1);
    FirstMeasure(w, C, part);
    RunEnds(w, C, world, s, 0, bound);
    SameRun(w, world, s, 0, bound, limit);
  }

  lemma FirstMeasure(w: Wanted, C: Content, part: Option<Content>)
    ensures Measure(w, C, Progress(part, 0, false)) <= 2 * (|C| + 1) * (w.retries + 1)
  {
    var q := w.retries + 1;
    Scaled(Missing(w, C, part), |C|, q);
    assert (|C| + 1) * q == |C| * q + q;
    assert 2 * (|C| + 1) * q == 2 * ((|C| + 1) * q);
  }

  /** Watching longer changes nothing about a run that has ended. */
  lemma {:induction false} SameRun(w: Wanted, world: World, s: Progress, n: nat, a: nat, b: nat)
    requires n <= a && n <= b && !Run(w, world, s, n, a).outcome.Pending?
    ensures Run(w, world, s, n, b).outcome.Pending? || Run(w, world, s, n, b) == Run(w, world, s, n, a)
    ensures a <= b ==> Run(w, world, s, n, b) == Run(w, world, s, n, a)
    decreases a - n
  {
    if n < a && n < b {
      match Attempt(w, s, world, n)
      case Again(next) => SameRun(w, world, next, n + 1, a, b);
      case Stop(_, _, _, _) =>
    }
  }

  /** A server that ignores ranges and drops every stream after its first byte. */
  function Ignoring(C: Content): World
    requires C != []
  {
    World((n, offset) => Body(200, None, None, C[..1], Dropped), n => false)
  }

  /** The passes never come to a `.part` of the size wanted: there is none, or it is not that of one byte and
      not that of the `.part` found. */
  predicate NeverThere(w: Wanted, part: Option<Content>) {
    w.size.None? || (w.size.value != 1 && !(w.size.value > 0 && Size(part) == w.size.value))
  }

  lemma IgnoredOnce(w: Wanted, C: Content, part: Option<Content>, n: nat)
    requires C != [] && NeverThere(w, part)
    ensures Attempt(w, Progress(part, 0, false), Ignoring(C), n) == Again(Progress(Some(C[..1]), 0, false))
    ensures NeverThere(w, Some(C[..1]))
  {
    var s, one := Progress(Kept(w, part), 0, false), C[..1];
    assert [] + one == one;
    assert Took(w, s, Ignoring(C).reply(n, Size(s.part))) == Again(Progress(Some(one), 0, false));
  }

  lemma {:induction false} IgnoredOn(w: Wanted, C: Content, part: Option<Content>, n: nat, limit: nat)
    requires n <= limit && C != [] && NeverThere(w, part)
    ensures Run(w, Ignoring(C), Progress(part, 0, false), n, limit).outcome.Pending?
    decreases limit - n
  {
    hide Attempt, NeverThere;
    if n < limit {
      IgnoredOnce(w, C, part, n);
      IgnoredOn(w, C, Some(C[..1]), n + 1, limit);
    }
  }

  /** A `.part` of the size wanted ends the loop. */
  lemma ThereEnds(w: Wanted, C: Content, part: Option<Content>, n: nat)
    requires C != [] && w.size.Some? && w.size.value > 0 && Size(part) == w.size.value
    ensures Attempt(w, Progress(part, 0, false), Ignoring(C), n).Stop?
    ensures !Run(w, Ignoring(C), Progress(part, 0, false), n, n + 1).outcome.Pending?
  {
  }

  /** It keeps the loop going for ever, whatever the content and the `.part` found, if and only if no pass
      comes to the size wanted. */
  lemma IgnoringRangesNeverEnds(w: Wanted, C: Content, part: Option<Content>)
    requires C != []
    ensures Honest(C, Ignoring(C))
    ensures (forall limit: nat :: Run(w, Ignoring(C), Progress(part, 0, false), 0, limit).outcome.Pending?)
            <==> NeverThere(w, part)
  {
    if NeverThere(w, part) {
      forall limit: nat ensures Run(w, Ignoring(C), Progress(part, 0, false), 0, limit).outcome.Pending? {
        IgnoredOn(w, C, part, 0, limit);
      }
    } else if Size(part) == w.size.value {
      ThereEnds(w, C, part, 0);
    } else {
      OneByteEnds(w, C, part);
    }
  }

  lemma OneByteEnds(w: Wanted, C: Content, part: Option<Content>)
    requires C != [] && w.size == Some(1) && Size(part) != 1
    ensures !Run(w, Ignoring(C), Progress(part, 0, false), 0, 2).outcome.Pending?
  {
    var s, one := Progress(Kept(w, part), 0, false), C[..1];
    assert [] + one == one;
    assert Took(w, s, Ignoring(C).reply(0, Size(s.part))) == Again(Progress(Some(one), 0, false));
    assert Attempt(w, Progress(part, 0, false), Ignoring(C), 0) == Again(Progress(Some(one), 0, false));
    ThereEnds(w, C, Some(one), 1);
  }

  // -- and it goes on, and succeeds ---------------------------------------------------------------

  /** An answer with the offset it was asked from. */
  type Answer = (nat, Reply)

  /** The answers of the passes of a run, in order; a pass that is too late or has all it wants asks nothing. */
  function Replies(w: Wanted, world: World, s: Progress, n: nat, limit: nat): seq<Answer>
    requires n <= limit
    decreases limit - n
  {
    if n == limit then []
    else
      var pass := Attempt(w, s, world, n);
      Requests(w, s, world, n) + if pass.Again? then Replies(w, world, pass.next, n + 1, limit) else []
  }

  function Requests(w: Wanted, s: Progress, world: World, n: nat): seq<Answer> {
    var offset := Size(Kept(w, s.part));
    if world.late(n) || (w.size.Some? && offset == w.size.value && offset > 0) then []
    else [(offset, world.reply(n, offset))]
  }

  /** An answer that brings no byte of the content. */
  predicate Barren(a: Answer) { a.1.Body? ==> a.1.data == [] }

  predicate AllBarren(rs: seq<Answer>) { forall r <- rs :: Barren(r) }

  /** The last so many brought nothing. */
  predicate Dry(rs: seq<Answer>, n: nat) { |rs| >= n && AllBarren(rs[|rs| - n..]) }

  predicate GaveUp(outcome: Outcome) { outcome == Failed(Unreachable) || outcome == Failed(Cut) }

  lemma OnePass(w: Wanted, s: Progress, world: World, n: nat)
    requires s.stalls <= w.retries
    ensures var pass := Attempt(w, s, world, n);
            && (pass.Stop? && GaveUp(pass.outcome) ==> s.stalls == w.retries && |Requests(w, s, world, n)| == 1 && AllBarren(Requests(w, s, world, n)))
            && (pass.Again? ==> |Requests(w, s, world, n)| == 1 && pass.next.stalls <= w.retries
                                && if Barren(Requests(w, s, world, n)[0]) then pass.next.stalls <= s.stalls + 1
                                   else pass.next.stalls == 0)
  {
  }

  /** With s.stalls stalls before: the run gives up after as many barren answers as were left, or after a row of
      retries + 1. */
  lemma {:induction false} GivesUpLate(w: Wanted, world: World, s: Progress, n: nat, limit: nat)
    requires n <= limit && s.stalls <= w.retries && GaveUp(Run(w, world, s, n, limit).outcome)
    ensures var rs := Replies(w, world, s, n, limit);
            Dry(rs, w.retries + 1) || (|rs| + s.stalls >= w.retries + 1 && AllBarren(rs))
    decreases limit - n
  {
    hide Attempt, Requests, Barren;
    if n < limit {
      OnePass(w, s, world, n);
      var pass, rs := Attempt(w, s, world, n), Replies(w, world, s, n, limit);
      if pass.Again? {
        GivesUpLate(w, world, pass.next, n + 1, limit);
        var rest := Replies(w, world, pass.next, n + 1, limit);
        assert rs == Requests(w, s, world, n) + rest;
        DryMore(Requests(w, s, world, n)[0], rest, w.retries + 1);
      }
    }
  }

  lemma DryMore(r: Answer, rest: seq<Answer>, n: nat)
    ensures Dry(rest, n) ==> Dry([r] + rest, n)
    ensures Barren(r) && AllBarren(rest) ==> AllBarren([r] + rest)
    ensures AllBarren(rest) && |rest| >= n ==> Dry(rest, n)
  {
    if |rest| >= n { assert ([r] + rest)[1 + |rest| - n..] == rest[|rest| - n..]; }
  }

  /** A run ends for want of a connection, or cut off, only after retries + 1 answers in a row without a byte. */
  lemma GivesUpOnlyWhenDry(w: Wanted, world: World, part: Option<Content>, limit: nat)
    requires GaveUp(Run(w, world, Progress(part, 0, false), 0, limit).outcome)
    ensures Dry(Replies(w, world, Progress(part, 0, false), 0, limit), w.retries + 1)
  {
    GivesUpLate(w, world, Progress(part, 0, false), 0, limit);
  }

  /** A server that answers what it is asked, from some pass on: no error, no deadline, and the total told. */
  ghost predicate Answering(world: World, first: nat) {
    forall n: nat, offset: nat :: n >= first ==>
      && !world.late(n) && !world.reply(n, offset).HttpError?
      && (world.reply(n, offset).Body? ==>
            && !world.reply(n, offset).ending.PastDeadline?
            && (world.reply(n, offset).rangeTotal.Some? || world.reply(n, offset).contentLength.Some?))
  }

  /** What the caller asks for is C, as far as it says. */
  predicate AsksFor(w: Wanted, C: Content) {
    (w.size.Some? ==> w.size.value == |C|) && (w.sha.Some? ==> w.sha.value == w.hash(C))
  }

  lemma PassSucceeds(w: Wanted, C: Content, s: Progress, world: World, first: nat, n: nat)
    requires first <= n && Honest(C, world) && RangeHonouring(world) && Answering(world, first) && AsksFor(w, C) && PartOf(Kept(w, s.part), C)
    ensures var pass := Attempt(w, s, world, n);
            if pass.Again? then PartOf(pass.next.part, C)
            else GaveUp(pass.outcome) || (pass.outcome.Done? && pass.delivered == Some(C))
  {
    hide Took, HonestReply;
    var part := Kept(w, s.part);
    var b := world.reply(n, Size(part));
    assert HonestReply(C, Size(part), b);
    if w.size.Some? && Size(part) == w.size.value && Size(part) > 0 { assert part.value == C; }
    if b.Body? {
      TookKeepsPrefix(w, C, Progress(part, s.stalls, s.restarted), b);
      TookSucceeds(w, C, Progress(part, s.stalls, s.restarted), b);
    }
  }

  lemma TookSucceeds(w: Wanted, C: Content, s: Progress, b: Reply)
    requires b.Body? && HonestReply(C, Size(s.part), b) && AsksFor(w, C) && PartOf(s.part, C)
    requires !b.ending.PastDeadline? && (b.rangeTotal.Some? || b.contentLength.Some?)
    ensures var pass := Took(w, s, b);
            pass.Stop? ==> GaveUp(pass.outcome) || (pass.outcome.Done? && pass.delivered == Some(C))
  {
    AppendKeepsPrefix(C, s.part, b);
    var from := if b.status == 200 then 0 else Size(s.part);
    var have := (if from > 0 then s.part.value else []) + b.data;
    assert TotalOf(b.rangeTotal, b.contentLength, from) == Some(|C|);
    if |have| >= |C| { assert have == C; }
  }

  lemma {:induction false} RunSucceeds(w: Wanted, C: Content, world: World, first: nat, s: Progress, n: nat, limit: nat)
    requires first <= n <= limit && Honest(C, world) && RangeHonouring(world) && Answering(world, first) && AsksFor(w, C)
    requires PartOf(Kept(w, s.part), C)
    ensures var r := Run(w, world, s, n, limit);
            r.outcome.Pending? || GaveUp(r.outcome) || (r.outcome.Done? && r.delivered == Some(C))
    decreases limit - n
  {
    hide Attempt, Honest, RangeHonouring, AsksFor;
    if n < limit {
      PassSucceeds(w, C, s, world, first, n);
      match Attempt(w, s, world, n)
      case Again(next) => RunSucceeds(w, C, world, first, next, n + 1, limit);
      case Stop(_, _, _, _) =>
    }
  }

  /** From such a server, over connections that bring a byte at least once in retries + 1 answers, the content
      asked for is delivered, whatever beginning of it was there; with a size known, also if what was there is
      longer. */
  lemma DownloadSucceeds(w: Wanted, C: Content, world: World, part: Option<Content>, limit: nat)
    requires Honest(C, world) && RangeHonouring(world) && Answering(world, 0) && AsksFor(w, C)
    requires PartOf(part, C) || (w.size.Some? && Size(part) > |C|)
    requires limit >= 2 * (|C| + 1) * (w.retries + 1)
    requires !Dry(Replies(w, world, Progress(part, 0, false), 0, limit), w.retries + 1)
    ensures var r := Run(w, world, Progress(part, 0, false), 0, limit);
            r.outcome == Done && r.delivered == Some(C)
  {
    assert forall k: nat :: !world.late(k) by { NeverLate(world, 0); }
    assert PartOf(Kept(w, part), C);
    hide Honest, RangeHonouring, Answering, Run, Replies, Dry;
    DownloadEnds(w, C, world, part, limit);
    RunSucceeds(w, C, world, 0, Progress(part, 0, false), 0, limit);
    if GaveUp(Run(w, world, Progress(part, 0, false), 0, limit).outcome) { GivesUpOnlyWhenDry(w, world, part, limit); }
  }

  /** With no size known and a `.part` of whatever content that the server has nothing behind, the download starts
      over, and delivers the content. */
  lemma DownloadStartsOver(w: Wanted, C: Content, world: World, part: Content, limit: nat)
    requires Honest(C, world) && RangeHonouring(world) && Answering(world, 1) && !world.late(0) && AsksFor(w, C)
    requires w.size.None? && part != [] && world.reply(0, |part|) == HttpError(416)
    requires limit >= 2 * (|C| + 1) * (w.retries + 1)
    requires !Dry(Replies(w, world, Progress(Some(part), 0, false), 0, limit), w.retries + 1)
    ensures var r := Run(w, world, Progress(Some(part), 0, false), 0, limit);
            r.outcome == Done && r.delivered == Some(C)
  {
    assert forall k: nat :: !world.late(k) by { NeverLate(world, 1); }
    var s := Progress(Some(part), 0, false);
    assert Attempt(w, s, world, 0) == Again(Progress(None, 0, true));
    assert limit >= 1;
    assert Run(w, world, s, 0, limit) == Run(w, world, Progress(None, 0, true), 1, limit);
    hide Honest, RangeHonouring, Run, Replies, Dry;
    DownloadEnds(w, C, world, Some(part), limit);
    RunSucceeds(w, C, world, 1, Progress(None, 0, true), 1, limit);
    if GaveUp(Run(w, world, s, 0, limit).outcome) { GivesUpOnlyWhenDry(w, world, Some(part), limit); }
  }

  lemma NeverLate(world: World, first: nat)
    requires Answering(world, first)
    ensures forall k: nat :: k >= first ==> !world.late(k)
  {
    forall k: nat | k >= first ensures !world.late(k) { assert !world.reply(k, 0).HttpError?; }
  }

  // -- why it ends, and what stays ------------------------------------------------------------------

  predicate Refused(a: Answer) { a.1 == HttpError(401) || a.1 == HttpError(403) }

  predicate Errs(a: Answer) { a.1.HttpError? && !Refused(a) }

  /** The whole is told to be of another size than the one wanted. */
  predicate Contradicts(w: Wanted, a: Answer) {
    a.1.Body? && w.size.Some?
    && if a.1.rangeTotal.Some? then a.1.rangeTotal.value != w.size.value
       else a.1.contentLength.Some? && (if a.1.status == 200 then 0 else a.0) + a.1.contentLength.value != w.size.value
  }

  /** The deadline came while the body was read. */
  predicate RanOut(w: Wanted, a: Answer) { a.1.Body? && a.1.ending.PastDeadline? && !Contradicts(w, a) }

  /** The same of a body alone. */
  lemma OneBodyEnds(w: Wanted, s: Progress, b: Reply)
    requires b.Body?
    ensures var pass, a := Took(w, s, b), (Size(s.part), b);
            && !(Contradicts(w, a) && RanOut(w, a))
            && (pass.Stop? ==>
                  && pass.outcome != Failed(LinkExpired) && pass.outcome != Failed(HttpFailed)
                  && (pass.outcome == Failed(WrongTotal) <==> Contradicts(w, a))
                  && (pass.outcome == Failed(TimedOut) <==> RanOut(w, a))
                  && (pass.outcome == Failed(WrongSize) || pass.outcome == Failed(WrongHash) ==> pass.part.None?))
            && (pass.Again? ==> !Contradicts(w, a) && !RanOut(w, a))
  {
  }

  lemma OnePassEnds(w: Wanted, s: Progress, world: World, n: nat)
    ensures var pass, rs := Attempt(w, s, world, n), Requests(w, s, world, n);
            && |rs| <= 1
            && (rs != [] ==> !(Refused(rs[0]) && Errs(rs[0])) && !(Contradicts(w, rs[0]) && RanOut(w, rs[0])))
            && (pass.Stop? ==>
                  && (pass.outcome == Failed(LinkExpired) <==> rs != [] && Refused(rs[0]))
                  && (pass.outcome == Failed(HttpFailed) <==> rs != [] && Errs(rs[0]))
                  && (pass.outcome == Failed(WrongTotal) <==> rs != [] && Contradicts(w, rs[0]))
                  && (pass.outcome == Failed(TimedOut) <==> world.late(n) || (rs != [] && RanOut(w, rs[0])))
                  && (pass.outcome == Failed(WrongSize) || pass.outcome == Failed(WrongHash) ==> pass.part.None?))
            && (pass.Again? ==> rs != [] && !Refused(rs[0]) && !Contradicts(w, rs[0]) && !RanOut(w, rs[0]) && !world.late(n))
            && (pass.Again? && Errs(rs[0]) ==>
                  rs[0].1.code == 416 && !s.restarted && pass.next.restarted && w.size.None? && Size(s.part) > 0)
  {
    var part := Kept(w, s.part);
    var b := world.reply(n, Size(part));
    if b.Body? { OneBodyEnds(w, Progress(part, s.stalls, s.restarted), b); }
    hide Took;
  }

  /** What a run that ended says, and when: that the link was refused exactly when the last answer was 401 or 403,
      that it failed when that was another error, that the total is wrong when it tells another size than the
      one wanted, that time ran out when the last pass came too late or the deadline passed while it read.  A
      `.part` that fails the check of the whole is thrown away. */
  lemma {:induction false} EndsSayWhy(w: Wanted, world: World, s: Progress, n: nat, limit: nat)
    requires n < limit && !Run(w, world, s, n, limit).outcome.Pending?
    ensures var r, rs := Run(w, world, s, n, limit), Replies(w, world, s, n, limit);
            && r.passes > n
            && (r.outcome == Failed(LinkExpired) <==> rs != [] && !world.late(r.passes - 1) && Refused(rs[|rs| - 1]))
            && (r.outcome == Failed(TimedOut) <==> world.late(r.passes - 1) || (rs != [] && RanOut(w, rs[|rs| - 1])))
            && (r.outcome == Failed(WrongTotal) <==> rs != [] && !world.late(r.passes - 1) && Contradicts(w, rs[|rs| - 1]))
            && (r.outcome == Failed(HttpFailed) ==> rs != [] && Errs(rs[|rs| - 1]))
            && (r.outcome == Failed(WrongSize) || r.outcome == Failed(WrongHash) ==> r.part.None?)
    decreases limit - n
  {
    hide Attempt, Requests, Refused, Errs, Contradicts, RanOut;
    OnePassEnds(w, s, world, n);
    match Attempt(w, s, world, n)
    case Again(next) =>
      assert Run(w, world, s, n, limit) == Run(w, world, next, n + 1, limit);
      EndsSayWhy(w, world, next, n + 1, limit);
      assert Replies(w, world, s, n, limit) == Requests(w, s, world, n) + Replies(w, world, next, n + 1, limit);
    case Stop(_, _, _, _) =>
  }

  /** No answer asks for another start. */
  ghost predicate NoRestarts(world: World) { forall n: nat, offset: nat :: world.reply(n, offset) != HttpError(416) }

  /** What keeps the `.part`: every end but a check of the whole that fails. */
  predicate KeepsPart(outcome: Outcome) { !outcome.Done? && outcome != Failed(WrongSize) && outcome != Failed(WrongHash) }

  predicate Extends(more: Option<Content>, part: Option<Content>) {
    part.Some? ==> more.Some? && part.value <= more.value
  }

  lemma PassExtends(w: Wanted, s: Progress, world: World, n: nat)
    requires RangeHonouring(world) && NoRestarts(world) && (w.size.Some? ==> Size(s.part) <= w.size.value)
    ensures match Attempt(w, s, world, n)
            case Again(next) => Extends(next.part, s.part)
            case Stop(outcome, part, delivered, _) =>
              (KeepsPart(outcome) ==> Extends(part, s.part)) && (outcome.Done? ==> Extends(delivered, s.part))
  {
    var b := world.reply(n, Size(s.part));
    assert Kept(w, s.part) == s.part;
    if b.Body? && Size(s.part) == 0 && s.part.Some? { assert s.part.value == []; }
  }

  /** Against a server that honours ranges nothing of the `.part` is fetched twice: the run ends with all of it,
      unless a check of the whole fails or the size wanted is exceeded. */
  lemma {:induction false} NothingIsFetchedAgain(w: Wanted, world: World, s: Progress, n: nat, limit: nat)
    requires n <= limit && RangeHonouring(world) && NoRestarts(world) && w.size.None?
    ensures var r := Run(w, world, s, n, limit);
            (KeepsPart(r.outcome) ==> Extends(r.part, s.part)) && (r.outcome.Done? ==> Extends(r.delivered, s.part))
    decreases limit - n
  {
    hide Attempt, RangeHonouring, NoRestarts;
    if n < limit {
      PassExtends(w, s, world, n);
      match Attempt(w, s, world, n)
      case Again(next) => NothingIsFetchedAgain(w, world, next, n + 1, limit);
      case Stop(_, _, _, _) =>
    }
  }
}

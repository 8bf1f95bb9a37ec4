/** Paging through an event log with one writer that may die at any byte of an append, and restart. */
module Paging {
  import opened Events

  /** What happens to the log and to a client that keeps the last number it has seen: an append, of
      which `extent` reaches the file; a page read; or a page read while an append is under way. */
  datatype Step =
    | Write(event: Event, extent: Extent)
    | Read(limit: nat)
    | ReadDuring(event: Event, extent: Extent, limit: nat)

  datatype State = State(file: File, got: seq<Record>)

  function Numbered(f: File, ev: Event): Record { Record(NextSeq(f), ev) }

  function Page(got: seq<Record>, f: File, limit: nat): seq<Record> { got + Since(Readable(f), LastNumber(got), limit) }

  function Next(s: State, step: Step): State {
    match step
    case Write(ev, extent) => s.(file := Append(s.file, Numbered(s.file, ev), extent))
    case Read(limit) => s.(got := Page(s.got, s.file, limit))
    case ReadDuring(ev, extent, limit) =>
      State(Append(s.file, Numbered(s.file, ev), All),
            Page(s.got, Append(s.file, Numbered(s.file, ev), extent), limit))
  }

  function StateAfter(h: seq<Step>): State {
    if h == [] then State(File([], Empty), []) else Next(StateAfter(h[..|h| - 1]), h[|h| - 1])
  }

  predicate Increasing(rs: seq<Record>) {
    && (forall i, j :: 0 <= i < j < |rs| ==> rs[i].seqNo < rs[j].seqNo)
    && (forall r <- rs :: r.seqNo > 0)
  }

  /** The bytes that reach the file join a record that was only missing its newline. */
  predicate Glues(f: File, extent: Extent) { f.tail.Whole? && !extent.Zero? }

  lemma AppendReads(f: File, ev: Event, extent: Extent)
    ensures var r := Numbered(f, ev);
            Readable(Append(f, r, extent))
            == if Glues(f, extent) then ReadableLines(f.lines)
               else if f.tail.Empty? && (extent.All? || extent.AllButNewline?) then Readable(f) + [r]
               else Readable(f)
  {
    var r := Numbered(f, ev);
    var line := if f.tail.Empty? then Good(r) else Garbage;
    assert (f.lines + [line])[..|f.lines|] == f.lines;
  }

  lemma AppendIncreases(f: File, ev: Event, extent: Extent)
    requires Increasing(Readable(f))
    ensures Increasing(Readable(Append(f, Numbered(f, ev), extent)))
  {
    AppendReads(f, ev, extent);
    assert ReadableLines(f.lines) <= Readable(f);
    var rs, r := Readable(f), Numbered(f, ev);
    forall i | 0 <= i < |rs| ensures rs[i].seqNo < r.seqNo { }
  }

  /** Whatever dies when, the numbers of the events that can be read strictly increase. */
  lemma {:induction false} NumbersIncrease(h: seq<Step>)
    ensures Increasing(Readable(StateAfter(h).file))
    decreases |h|
  {
    if h != [] {
      var s, step := StateAfter(h[..|h| - 1]), h[|h| - 1];
      NumbersIncrease(h[..|h| - 1]);
      if step.Write? { AppendIncreases(s.file, step.event, step.extent); }
      if step.ReadDuring? { AppendIncreases(s.file, step.event, All); }
    }
  }

  // -- pages ------------------------------------------------------------------------------------------

  lemma {:induction false} AfterIsRest(rs: seq<Record>, k: nat, n: nat)
    requires Increasing(rs) && k <= |rs| && n == LastNumber(rs[..k])
    ensures Beyond(rs, n) == rs[k..]
    decreases |rs|
  {
    if k == |rs| {
      NoneAfter(rs, n);
    } else {
      var init := rs[..|rs| - 1];
      assert init[..k] == rs[..k];
      AfterIsRest(init, k, n);
      assert rs[k..] == init[k..] + [rs[|rs| - 1]];
    }
  }

  lemma {:induction false} NoneAfter(rs: seq<Record>, n: nat)
    requires forall r <- rs :: r.seqNo <= n
    ensures Beyond(rs, n) == []
    decreases |rs|
  {
    if rs != [] { NoneAfter(rs[..|rs| - 1], n); }
  }

  function Least(a: nat, b: nat): nat { if a <= b then a else b }

  /** A page takes the next events, as many as asked for. */
  lemma PageTakesNext(got: seq<Record>, f: File, limit: nat)
    requires Increasing(Readable(f)) && got <= Readable(f)
    ensures |Page(got, f, limit)| == Least(|got| + (if limit == 0 then 1 else limit), |Readable(f)|)
    ensures Page(got, f, limit) <= Readable(f)
  {
    hide Beyond, ReadableLines, Increasing;
    AfterIsRest(Readable(f), |got|, LastNumber(got));
  }

  // -- nothing lost -----------------------------------------------------------------------------------

  /** An append destroys an event the client was already given. */
  predicate Swallows(s: State, step: Step) {
    match step
    case Write(_, extent) => Glues(s.file, extent) && s.got == Readable(s.file)
    case Read(_) => false
    case ReadDuring(_, extent, _) =>
      && Glues(s.file, All)
      && (s.got == Readable(s.file) || (extent.Zero? && Page(s.got, s.file, step.limit) == Readable(s.file)))
  }

  predicate Kept(s: State) { s.got <= Readable(s.file) }

  lemma WriteKeeps(s: State, ev: Event, extent: Extent)
    requires Kept(s)
    ensures Kept(Next(s, Write(ev, extent))) <==> !Swallows(s, Write(ev, extent))
  {
    AppendReads(s.file, ev, extent);
  }

  lemma ReadDuringKeeps(s: State, ev: Event, extent: Extent, limit: nat)
    requires Increasing(Readable(s.file)) && Kept(s)
    ensures Kept(Next(s, ReadDuring(ev, extent, limit))) <==> !Swallows(s, ReadDuring(ev, extent, limit))
  {
    hide Append, NextSeq, ReadableLines, Beyond;
    var r := Numbered(s.file, ev);
    AppendReads(s.file, ev, extent);
    AppendReads(s.file, ev, All);
    AppendIncreases(s.file, ev, extent);
    var middle, end := Readable(Append(s.file, r, extent)), Readable(Append(s.file, r, All));
    if !s.file.tail.Whole? {
      PageTakesNext(s.got, Append(s.file, r, extent), limit);
      assert middle <= end;
    } else if extent.Zero? {
      PageTakesNext(s.got, s.file, limit);
      Shorter(Page(s.got, s.file, limit), Readable(s.file));
    } else {
      PageOfGlued(s, Append(s.file, r, extent), limit);
    }
  }

  /** A client that has the lost event gets nothing more; any other gets what is still there. */
  lemma PageOfGlued(s: State, f: File, limit: nat)
    requires Increasing(Readable(s.file)) && Increasing(Readable(f)) && Kept(s)
    requires s.file.tail.Whole? && Readable(f) == ReadableLines(s.file.lines)
    ensures Page(s.got, f, limit) <= Readable(f) <==> s.got != Readable(s.file)
  {
    hide ReadableLines, Beyond;
    var rs := Readable(s.file);
    assert Readable(f) == rs[..|rs| - 1];
    Shorter(s.got, rs);
    if s.got == rs {
      NoneAfter(Readable(f), LastNumber(s.got));
    } else {
      PageTakesNext(s.got, f, limit);
    }
  }

  lemma Shorter(a: seq<Record>, rs: seq<Record>)
    requires a <= rs && rs != []
    ensures a == rs || a <= rs[..|rs| - 1]
    ensures !(rs <= rs[..|rs| - 1])
  {
    if |a| < |rs| { assert a == rs[..|rs| - 1][..|a|]; }
  }

  lemma StepKeeps(s: State, step: Step)
    requires Increasing(Readable(s.file)) && Kept(s)
    ensures Kept(Next(s, step)) <==> !Swallows(s, step)
  {
    match step
    case Write(ev, extent) => WriteKeeps(s, ev, extent);
    case Read(limit) => PageTakesNext(s.got, s.file, limit);
    case ReadDuring(ev, extent, limit) => ReadDuringKeeps(s, ev, extent, limit);
  }

  predicate NeverSwallows(h: seq<Step>) {
    h != [] ==> NeverSwallows(h[..|h| - 1]) && !Swallows(StateAfter(h[..|h| - 1]), h[|h| - 1])
  }

  /** At every moment, what the client has been given begins what can be read. */
  predicate AlwaysKept(h: seq<Step>) { Kept(StateAfter(h)) && (h != [] ==> AlwaysKept(h[..|h| - 1])) }

  /** A client's pages always begin what can be read, each event once and in order, if and only if no
      append ever joins bytes to a last event, whole but for its newline, that the client already has. */
  lemma {:induction false} PagesAreFaithful(h: seq<Step>)
    ensures AlwaysKept(h) <==> NeverSwallows(h)
    decreases |h|
  {
    if h != [] {
      var init := h[..|h| - 1];
      PagesAreFaithful(init);
      NumbersIncrease(init);
      if AlwaysKept(init) { StepKeeps(StateAfter(init), h[|h| - 1]); }
    }
  }

  /** So long as that holds, an empty page means everything has been delivered. */
  lemma EmptyPageMeansAll(h: seq<Step>, limit: nat)
    requires NeverSwallows(h)
    ensures var s := StateAfter(h); Since(Readable(s.file), LastNumber(s.got), limit) == [] <==> s.got == Readable(s.file)
  {
    PagesAreFaithful(h);
    NumbersIncrease(h);
    PageTakesNext(StateAfter(h).got, StateAfter(h).file, limit);
  }

  /** It can fail: the writer dies before a newline, the event is read, the next append spoils its line,
      and its number is given to an event the client will never see. */
  lemma NumberIsReused(first: Event, second: Event, third: Event)
    requires first != third
    ensures var h := [Write(first, AllButNewline), Read(500), Write(second, All), Write(third, All), Read(500)];
            StateAfter(h).got == [Record(1, first)] && Readable(StateAfter(h).file) == [Record(1, third)]
  {
    hide StateAfter, NextSeq, ReadableLines, Beyond, Append, Increasing;
    var r3 := Record(1, third);
    var h4 := [Write(first, AllButNewline), Read(500), Write(second, All), Write(third, All)];
    NumberAgain(first, second, third);
    assert h4 + [Read(500)]
        == [Write(first, AllButNewline), Read(500), Write(second, All), Write(third, All), Read(500)];
    Then(h4, Read(500));
    NoneAfter([r3], 1);
  }

  lemma NumberAgain(first: Event, second: Event, third: Event)
    ensures var s := StateAfter([Write(first, AllButNewline), Read(500), Write(second, All), Write(third, All)]);
            s.got == [Record(1, first)] && Readable(s.file) == [Record(1, third)]
  {
    hide StateAfter, NextSeq, ReadableLines, Beyond, Append, Increasing;
    var h3 := [Write(first, AllButNewline), Read(500), Write(second, All)];
    SpoiltLine(first, second);
    assert h3 + [Write(third, All)] == [Write(first, AllButNewline), Read(500), Write(second, All), Write(third, All)];
    Then(h3, Write(third, All));
    NextAfterGarbage();
    AppendReads(File([Garbage], Empty), third, All);
  }

  lemma NextAfterGarbage()
    ensures NextSeq(File([Garbage], Empty)) == 1 && Readable(File([Garbage], Empty)) == []
  {
    GarbageReads();
  }

  lemma SpoiltLine(first: Event, second: Event)
    ensures StateAfter([Write(first, AllButNewline), Read(500), Write(second, All)])
            == State(File([Garbage], Empty), [Record(1, first)])
  {
    hide StateAfter, Beyond;
    var r1, h1 := Record(1, first), [Write(first, AllButNewline)];
    TornEnd(first);
    Then(h1, Read(500));
    PageTakesNext([], File([], Whole(r1)), 500);
    assert h1 + [Read(500)] + [Write(second, All)] == [Write(first, AllButNewline), Read(500), Write(second, All)];
    Then(h1 + [Read(500)], Write(second, All));
  }

  lemma TornEnd(first: Event)
    ensures StateAfter([Write(first, AllButNewline)]) == State(File([], Whole(Record(1, first))), [])
  {
    Then([], Write(first, AllButNewline));
    assert [] + [Write(first, AllButNewline)] == [Write(first, AllButNewline)];
  }

  lemma GarbageReads()
    ensures Readable(File([Garbage], Empty)) == []
  {
    assert [Garbage][..0] == [];
  }

  lemma Then(h: seq<Step>, step: Step)
    ensures StateAfter(h + [step]) == Next(StateAfter(h), step)
  {
    assert (h + [step])[..|h|] == h;
  }
}

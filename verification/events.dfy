/** The event log of a job: an append-only file a crash may tear, and the snapshot folded from it. */
module Events {
  import opened Options
  import opened Stages

  datatype JobState = Queued | InProgress | Done | JobFailed
  datatype State = Running | Ended(status: Status)

  /** One event. `progress` and `jobState` are the details the snapshot looks at. */
  datatype Event = Event(
    stage: string, chunk: string, state: State, index: int, total: nat, progress: bool, jobState: Option<JobState>)

  // -- the snapshot -----------------------------------------------------------------------------

  /** `grid` is the per-chunk table, keyed by chunk and stage; `stages` holds the last writer. */
  datatype Snapshot = Snapshot(
    job: JobState, index: int, total: nat, stages: map<string, State>, grid: map<(string, string), State>)

  const NoSnapshot := Snapshot(Queued, 0, 0, map[], map[])

  /** A progress event must not put a stage that ended back to running. */
  function Merged(prev: Option<State>, ev: Event): State {
    if prev.Some? && prev.value.Ended? && ev.state.Running? && ev.progress then prev.value else ev.state
  }

  function Find<K, V>(m: map<K, V>, k: K): Option<V> { if k in m then Some(m[k]) else None }

  function Refresh(s: Snapshot, ev: Event): Snapshot {
    Snapshot(
      if ev.jobState.Some? then ev.jobState.value else if ev.state == Ended(Failed) then JobFailed else s.job,
      ev.index,
      ev.total,
      if ev.stage == "" then s.stages else s.stages[ev.stage := Merged(Find(s.stages, ev.stage), ev)],
      if ev.stage == "" || ev.chunk == "" then s.grid
      else s.grid[(ev.chunk, ev.stage) := Merged(Find(s.grid, (ev.chunk, ev.stage)), ev)])
  }

  /** The stages and chunks a reader is told went wrong. */
  function Failures(s: Snapshot): set<(string, string)> {
    (set cell | cell in s.grid && s.grid[cell] in {Ended(Failed), Ended(Unverified)} :: cell)
    + (set name | name in s.stages && s.stages[name] in {Ended(Failed), Ended(Unverified)}
                  && name !in InSomeChunk(s) :: ("", name))
  }

  function InSomeChunk(s: Snapshot): set<string> { set cell | cell in s.grid :: cell.1 }

  // -- the file ---------------------------------------------------------------------------------

  /** A record, numbered. */
  datatype Record = Record(seqNo: nat, event: Event)

  datatype Line = Good(record: Record) | Garbage

  /** What follows the last newline: nothing, a piece of a record, or a record without its newline. */
  datatype Tail = Empty | Torn | Whole(record: Record)

  datatype File = File(lines: seq<Line>, tail: Tail)

  function ReadableLines(lines: seq<Line>): seq<Record> {
    if lines == [] then []
    else ReadableLines(lines[..|lines| - 1]) + (match lines[|lines| - 1] case Good(r) => [r] case Garbage => [])
  }

  /** What a reader can parse: a last line counts even without its newline. */
  function Readable(f: File): seq<Record> {
    ReadableLines(f.lines) + (if f.tail.Whole? then [f.tail.record] else [])
  }

  function NextSeq(f: File): nat {
    LastNumber(Readable(f)) + 1
  }

  function LastNumber(rs: seq<Record>): nat { if rs == [] then 0 else rs[|rs| - 1].seqNo }

  /** How much of an append reaches the file before the writer dies. */
  datatype Extent = Zero | Piece | AllButNewline | All

  /** Appending to a file with a tail makes one line of both, which nobody can parse. */
  function Append(f: File, r: Record, extent: Extent): File {
    match extent
    case Zero => f
    case Piece => f.(tail := Torn)
    case AllButNewline => f.(tail := if f.tail.Empty? then Whole(r) else Torn)
    case All => File(f.lines + [if f.tail.Empty? then Good(r) else Garbage], Empty)
  }

  /** The first `limit` records after number `n`; never fewer than one, whatever the limit. */
  function Since(rs: seq<Record>, n: nat, limit: nat): seq<Record> {
    var after := Beyond(rs, n);
    var k := if limit == 0 then 1 else limit;
    if |after| <= k then after else after[..k]
  }

  function Beyond(rs: seq<Record>, n: nat): seq<Record> {
    if rs == [] then []
    else Beyond(rs[..|rs| - 1], n) + (if rs[|rs| - 1].seqNo > n then [rs[|rs| - 1]] else [])
  }

  // -- the code ---------------------------------------------------------------------------------

  class EventLog {
    var file: File
    var snapshot: Snapshot

    constructor ()
      ensures file == File([], Empty) && snapshot == NoSnapshot
    {
      file, snapshot := File([], Empty), NoSnapshot;
    }

    method NextNumber() returns (n: nat)
      ensures n == NextSeq(file)
    {
      var last := 0;
      for i := 0 to |file.lines| + 1
        invariant last == LastNumber(ReadTo(file, i))
      {
        ReadNext(file, i);
        if LineAt(file, i).Good? { last := LineAt(file, i).record.seqNo; }
      }
      n := last + 1;
    }

    method Emit(ev: Event)
      modifies this
      ensures file == Append(old(file), Record(NextSeq(old(file)), ev), All)
      ensures snapshot == Refresh(old(snapshot), ev)
    {
      var n := NextNumber();
      file := Append(file, Record(n, ev), All);
      snapshot := Refresh(snapshot, ev);
    }

    method Page(n: nat, limit: nat) returns (out: seq<Record>)
      ensures out == Since(Readable(file), n, limit)
    {
      assert ReadTo(file, 0) == [];
      hide ReadableLines;
      out := [];
      for i := 0 to |file.lines| + 1
        invariant out == Beyond(ReadTo(file, i), n)
        invariant |out| < if limit == 0 then 1 else limit
      {
        AfterNext(file, i, n);
        var line := LineAt(file, i);
        if line.Good? && line.record.seqNo > n {
          out := out + [line.record];
          if |out| >= limit {
            PageFull(file, i + 1, n, limit);
            return;
          }
        }
      }
    }
  }

  // -- reading line by line -----------------------------------------------------------------------

  /** A line of the file, the one after the last newline included. */
  function LineAt(f: File, i: nat): Line
    requires i <= |f.lines|
  {
    if i < |f.lines| then f.lines[i] else if f.tail.Whole? then Good(f.tail.record) else Garbage
  }

  /** What has been parsed after `i` lines. */
  function ReadTo(f: File, i: nat): seq<Record>
    requires i <= |f.lines| + 1
  {
    if i <= |f.lines| then ReadableLines(f.lines[..i]) else Readable(f)
  }

  lemma ReadNext(f: File, i: nat)
    requires i <= |f.lines|
    ensures ReadTo(f, i + 1) == ReadTo(f, i) + (match LineAt(f, i) case Good(r) => [r] case Garbage => [])
  {
    if i < |f.lines| {
      assert f.lines[..i + 1][..i] == f.lines[..i];
    } else {
      assert f.lines[..i] == f.lines;
    }
  }

  lemma AfterNext(f: File, i: nat, n: nat)
    requires i <= |f.lines|
    ensures Beyond(ReadTo(f, i + 1), n)
            == Beyond(ReadTo(f, i), n)
               + (match LineAt(f, i) case Good(r) => if r.seqNo > n then [r] else [] case Garbage => [])
  {
    ReadNext(f, i);
    match LineAt(f, i)
    case Good(r) => AfterMore(ReadTo(f, i), r, n);
    case Garbage => assert ReadTo(f, i) + [] == ReadTo(f, i);
  }

  /** A page that is full does not depend on the rest of the file. */
  lemma PageFull(f: File, i: nat, n: nat, limit: nat)
    requires i <= |f.lines| + 1 && |Beyond(ReadTo(f, i), n)| == if limit == 0 then 1 else limit
    ensures Beyond(ReadTo(f, i), n) == Since(Readable(f), n, limit)
  {
    ReadGrows(f, i);
    AfterPrefix(ReadTo(f, i), Readable(f), n);
  }

  lemma {:induction false} ReadGrows(f: File, i: nat)
    requires i <= |f.lines| + 1
    ensures ReadTo(f, i) <= Readable(f)
    decreases |f.lines| + 1 - i
  {
    if i <= |f.lines| {
      ReadNext(f, i);
      ReadGrows(f, i + 1);
    }
  }

  lemma AfterMore(rs: seq<Record>, r: Record, n: nat)
    ensures Beyond(rs + [r], n) == Beyond(rs, n) + (if r.seqNo > n then [r] else [])
  {
    assert (rs + [r])[..|rs|] == rs;
  }

  lemma {:induction false} AfterPrefix(rs: seq<Record>, all: seq<Record>, n: nat)
    requires rs <= all
    ensures Beyond(rs, n) <= Beyond(all, n)
    decreases |all|
  {
    if |rs| < |all| {
      AfterPrefix(rs, all[..|all| - 1], n);
    } else {
      assert rs == all;
    }
  }
}

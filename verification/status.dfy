/** The reporter: turns what the runner does into events, and so into the snapshot. */
module Reporting {
  import opened Options
  import opened Stages
  import opened Events

  /** The reporter's counters and the chunk that is resident. */
  datatype Counters = Counters(index: nat, total: nat, chunk: string)

  function Counted(c: Counters, a: Act): Counters {
    match a
    case JobStart(total) => Counters(0, total, c.chunk)
    case ChunkStart(key) => c.(chunk := key)
    case ChunkDone(_) => c.(chunk := "")
    case StageStart(_) => c.(index := c.index + 1)
    case _ => c
  }

  /** The event an act comes to, given the counters after it; the hooks are not reported.  A sink for
      progress is bound before its stage is counted, so its events carry the index before. */
  function EventOf(c: Counters, a: Act): Option<Event> {
    match a
    case JobStart(total) => Some(Event("", "", Running, 0, total, false, Some(InProgress)))
    case ChunkStart(key) => Some(Event("", key, Running, c.index, c.total, false, None))
    case ChunkDone(key) => Some(Event("", key, Running, c.index, c.total, false, None))
    case StageStart(s) => Some(Event(s.name, c.chunk, Running, c.index, c.total, false, None))
    case Progress(s) => Some(Event(s.name, c.chunk, Running, c.index - 1, c.total, true, None))
    case StageDone(s, status) => Some(Event(s.name, c.chunk, Ended(status), c.index, c.total, false, None))
    case JobDone(ok) =>
      Some(Event("", "", Ended(if ok then Ok else Failed), c.index, c.total, false, Some(if ok then Done else JobFailed)))
    case _ => None
  }

  datatype View = View(counters: Counters, snapshot: Snapshot)

  const NoView := View(Counters(0, 0, ""), NoSnapshot)

  function See(v: View, a: Act): View {
    var c := Counted(v.counters, a);
    var ev := EventOf(c, a);
    View(c, if ev.Some? then Refresh(v.snapshot, ev.value) else v.snapshot)
  }

  /** What the reporter and the snapshot have come to after these acts. */
  function Seen(acts: seq<Act>): View {
    if acts == [] then NoView else See(Seen(acts[..|acts| - 1]), acts[|acts| - 1])
  }

  lemma SeenMore(acts: seq<Act>, a: Act)
    ensures Seen(acts + [a]) == See(Seen(acts), a)
  {
    assert (acts + [a])[..|acts|] == acts;
  }

  /** One act more, from counters and a snapshot that fit the acts before. */
  lemma SeenFits(acts: seq<Act>, a: Act, c: Counters, s: Snapshot)
    requires Seen(acts) == View(c, s)
    ensures Seen(acts + [a]) == See(View(c, s), a)
  {
    SeenMore(acts, a);
  }

  /** Where a stage's progress goes: bound to it when the runner asks for it. */
  datatype Sink = Sink(name: string, index: int, total: nat, chunk: string)

  class EventReporter {
    var index: nat
    var total: nat
    var chunk: string
    const log: EventLog
    /** All the runner has done since the reporter was made. */
    ghost var acts: seq<Act>

    ghost predicate Valid()
      reads this, log
    {
      Seen(acts) == View(Counters(index, total, chunk), log.snapshot)
    }

    constructor ()
      ensures Valid() && acts == []
      ensures fresh(log)
    {
      index, total, chunk, acts := 0, 0, "", [];
      log := new EventLog();
    }

    method JobStart(n: nat)
      requires Valid()
      modifies this, log
      ensures Valid() && acts == old(acts) + [Act.JobStart(n)]
    {
      hide Seen;
      total, index := n, 0;
      log.Emit(Event("", "", Running, 0, n, false, Some(InProgress)));
      SeenFits(acts, Act.JobStart(n), Counters(old(index), old(total), old(chunk)), old(log.snapshot));
      acts := acts + [Act.JobStart(n)];
    }

    method ChunkStart(key: string)
      requires Valid()
      modifies this, log
      ensures Valid() && acts == old(acts) + [Act.ChunkStart(key)]
    {
      hide Seen;
      chunk := key;
      log.Emit(Event("", key, Running, index, total, false, None));
      SeenFits(acts, Act.ChunkStart(key), Counters(old(index), old(total), old(chunk)), old(log.snapshot));
      acts := acts + [Act.ChunkStart(key)];
    }

    method ChunkDone(key: string)
      requires Valid()
      modifies this, log
      ensures Valid() && acts == old(acts) + [Act.ChunkDone(key)]
    {
      hide Seen;
      log.Emit(Event("", key, Running, index, total, false, None));
      chunk := "";
      SeenFits(acts, Act.ChunkDone(key), Counters(old(index), old(total), old(chunk)), old(log.snapshot));
      acts := acts + [Act.ChunkDone(key)];
    }

    method ProgressFor(s: Stage) returns (sink: Sink)
      ensures sink == Sink(s.name, index, total, chunk)
    {
      sink := Sink(s.name, index, total, chunk);
    }

    method StageStart(s: Stage)
      requires Valid()
      modifies this, log
      ensures Valid() && acts == old(acts) + [Act.StageStart(s)]
      ensures index == old(index) + 1 && total == old(total) && chunk == old(chunk)
    {
      hide Seen;
      index := index + 1;
      log.Emit(Event(s.name, chunk, Running, index, total, false, None));
      SeenFits(acts, Act.StageStart(s), Counters(old(index), old(total), old(chunk)), old(log.snapshot));
      acts := acts + [Act.StageStart(s)];
    }

    method Progress(ghost s: Stage, sink: Sink)
      requires Valid() && sink == Sink(s.name, index - 1, total, chunk)
      modifies this`acts, log
      ensures Valid() && acts == old(acts) + [Act.Progress(s)]
    {
      hide Seen;
      log.Emit(Event(sink.name, sink.chunk, Running, sink.index, sink.total, true, None));
      SeenFits(acts, Act.Progress(s), Counters(old(index), old(total), old(chunk)), old(log.snapshot));
      acts := acts + [Act.Progress(s)];
    }

    method StageDone(s: Stage, status: Status)
      requires Valid()
      modifies this, log
      ensures Valid() && acts == old(acts) + [Act.StageDone(s, status)]
    {
      hide Seen;
      log.Emit(Event(s.name, chunk, Ended(status), index, total, false, None));
      SeenFits(acts, Act.StageDone(s, status), Counters(old(index), old(total), old(chunk)), old(log.snapshot));
      acts := acts + [Act.StageDone(s, status)];
    }

    method JobDone(ok: bool)
      requires Valid()
      modifies this, log
      ensures Valid() && acts == old(acts) + [Act.JobDone(ok)]
    {
      hide Seen;
      log.Emit(Event("", "", Ended(if ok then Ok else Failed), index, total, false,
                     Some(if ok then Done else JobFailed)));
      SeenFits(acts, Act.JobDone(ok), Counters(old(index), old(total), old(chunk)), old(log.snapshot));
      acts := acts + [Act.JobDone(ok)];
    }

    /** A hook the reporter is not told of. */
    ghost method Note(a: Act)
      requires Valid() && (a.Enter? || a.Leave?)
      modifies this`acts
      ensures Valid() && acts == old(acts) + [a]
    {
      hide Seen;
      SeenFits(acts, a, Counters(old(index), old(total), old(chunk)), old(log.snapshot));
      acts := acts + [a];
    }
  }
}

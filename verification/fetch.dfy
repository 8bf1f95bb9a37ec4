/** The resumable download: a `.part` file continued with Range requests over connections that drop,
    links that expire and servers that ignore the range. */
module Fetch {
  import opened Options

  type Content = seq<bv8>

  /** What a request comes to.  `data` is what could be read of the body before it ended. */
  datatype Reply =
    | HttpError(code: nat)
    | NoConnection
    | Body(status: nat, rangeTotal: Option<nat>, contentLength: Option<nat>, data: Content, ending: Ending)
  datatype Ending = Complete | Dropped | PastDeadline

  /** The world outside: the answer to the n-th pass's request from a given offset on, and whether the
      deadline has passed when that pass begins. */
  datatype World = World(reply: (nat, nat) -> Reply, late: nat -> bool)

  datatype Why = LinkExpired | TimedOut | HttpFailed | Unreachable | WrongTotal | Cut | WrongSize | WrongHash
  datatype Outcome = Done | Failed(why: Why) | Pending

  /** What the caller asks for; `hash` is SHA-256. */
  datatype Wanted = Wanted(size: Option<nat>, sha: Option<int>, retries: nat, hash: Content -> int)

  // -- one pass of the loop, on values ---------------------------------------------------------

  datatype Progress = Progress(part: Option<Content>, stalls: nat, restarted: bool)
  datatype Pass = Again(next: Progress) | Stop(outcome: Outcome, part: Option<Content>, delivered: Option<Content>, total: Option<nat>)

  function Size(part: Option<Content>): nat { if part.Some? then |part.value| else 0 }

  function Finished(w: Wanted, got: Content, total: Option<nat>): Pass {
    if w.size.Some? && |got| != w.size.value then Stop(Failed(WrongSize), None, None, total)
    else if w.sha.Some? && w.hash(got) != w.sha.value then Stop(Failed(WrongHash), None, None, total)
    else Stop(Done, None, Some(got), total)
  }

  /** What finishing comes to does not depend on the total that was told. */
  lemma TotalTold(w: Wanted, got: Content, total: Option<nat>)
    ensures Finished(w, got, None).Stop? && Finished(w, got, total) == Finished(w, got, None).(total := total)
  {
  }

  /** The `.part` the pass works on: one longer than the size wanted is thrown away. */
  function Kept(w: Wanted, part: Option<Content>): Option<Content> {
    if w.size.Some? && Size(part) > w.size.value then None else part
  }

  function Attempt(w: Wanted, s: Progress, world: World, n: nat): Pass {
    var part := Kept(w, s.part);
    var offset := Size(part);
    if world.late(n) then Stop(Failed(TimedOut), s.part, None, None)
    else if w.size.Some? && offset == w.size.value && offset > 0 then Finished(w, part.value, None)
    else
      match world.reply(n, offset)
      case HttpError(code) =>
        if code == 401 || code == 403 then Stop(Failed(LinkExpired), part, None, None)
        else if code == 416 && offset > 0 && !s.restarted && w.size.None? then Again(Progress(None, s.stalls, true))
        else Stop(Failed(HttpFailed), part, None, None)
      case NoConnection => Stalled(w, Progress(part, s.stalls, s.restarted), false, Unreachable, None)
      case Body(_, _, _, _, _) => Took(w, Progress(part, s.stalls, s.restarted), world.reply(n, offset))
  }

  /** A body was read, into the `.part` or, when the range was ignored, in place of it. */
  function Took(w: Wanted, s: Progress, b: Reply): Pass
    requires b.Body?
  {
    var from := if b.status == 200 then 0 else Size(s.part);
    var total := TotalOf(b.rangeTotal, b.contentLength, from);
    if w.size.Some? && total.Some? && total.value != w.size.value then Stop(Failed(WrongTotal), s.part, None, total)
    else
      var have := (if from > 0 then s.part.value else []) + b.data;
      if b.ending.PastDeadline? then Stop(Failed(TimedOut), Some(have), None, total)
      else if b.ending.Dropped? || (total.Some? && |have| < total.value) then
        Stalled(w, s.(part := Some(have)), b.data != [], Cut, total)
      else Finished(w, have, total)
  }

  /** The size of the whole, as the headers tell it. */
  function TotalOf(rangeTotal: Option<nat>, contentLength: Option<nat>, from: nat): Option<nat> {
    if rangeTotal.Some? then rangeTotal
    else if contentLength.Some? then Some(from + contentLength.value)
    else None
  }

  /** Try again, unless that was one stall too many in a row. */
  function Stalled(w: Wanted, s: Progress, moved: bool, why: Why, total: Option<nat>): Pass {
    var stalls := if moved then 0 else s.stalls + 1;
    if stalls > w.retries then Stop(Failed(why), s.part, None, total) else Again(s.(stalls := stalls))
  }

  datatype Result = Result(outcome: Outcome, part: Option<Content>, delivered: Option<Content>, total: Option<nat>, passes: nat)

  /** The loop, watched for at most `limit` passes. */
  function Run(w: Wanted, world: World, s: Progress, n: nat, limit: nat): (r: Result)
    requires n <= limit
    ensures n <= r.passes <= limit
    decreases limit - n, 1
  {
    if n == limit then Result(Pending, s.part, None, None, n) else Onward(w, world, Attempt(w, s, world, n), n + 1, limit)
  }

  function Onward(w: Wanted, world: World, pass: Pass, n: nat, limit: nat): (r: Result)
    requires n <= limit
    ensures n <= r.passes <= limit
    decreases limit - n, 2
  {
    match pass
    case Again(next) => Run(w, world, next, n, limit)
    case Stop(outcome, part, delivered, total) => Result(outcome, part, delivered, total, n)
  }

  // -- the code ---------------------------------------------------------------------------------

  class Download {
    var part: Option<Content>
    var dest: Option<Content>

    /** Checks the `.part` and gives it the real name; a wrong one is thrown away. */
    method Finish(w: Wanted) returns (r: Outcome)
      requires part.Some?
      modifies this
      ensures var p := Finished(w, old(part).value, None);
              r == p.outcome && part == p.part && dest == if p.delivered.Some? then p.delivered else old(dest)
    {
      var got := part.value;
      if w.size.Some? && |got| != w.size.value {
        part := None;
        return Failed(WrongSize);
      }
      if w.sha.Some? {
        if w.hash(got) != w.sha.value {
          part := None;
          return Failed(WrongHash);
        }
      }
      dest, part := Some(got), None;
      return Done;
    }

    /** One time round the loop: `end` is how it returned or raised, None when it goes round again. */
    method Try(w: Wanted, world: World, n: nat, stalls0: nat, restarted0: bool)
      returns (end: Option<Outcome>, total: Option<nat>, stalls: nat, restarted: bool)
      modifies this
      ensures match Attempt(w, Progress(old(part), stalls0, restarted0), world, n)
              case Again(next) => end == None && Progress(part, stalls, restarted) == next && dest == old(dest)
              case Stop(outcome, p, delivered, t) =>
                end == Some(outcome) && part == p && total == t && dest == if delivered.Some? then delivered else old(dest)
    {
      stalls, restarted, total := stalls0, restarted0, None;
      if world.late(n) { return Some(Failed(TimedOut)), None, stalls, restarted; }
      var offset := Size(part);
      if w.size.Some? && offset > w.size.value {
        part := None;
        offset := 0;
      }
      if w.size.Some? && offset == w.size.value && offset > 0 {
        var r := Finish(w);
        return Some(r), None, stalls, restarted;
      }
      match world.reply(n, offset) {
        case HttpError(code) =>
          if code == 401 || code == 403 { return Some(Failed(LinkExpired)), None, stalls, restarted; }
          if code == 416 && offset > 0 && !restarted {
            if w.size.None? {
              part := None;
              restarted := true;
              return None, None, stalls, restarted;
            }
          }
          return Some(Failed(HttpFailed)), None, stalls, restarted;
        case NoConnection =>
          stalls := stalls + 1;
          if stalls > w.retries { return Some(Failed(Unreachable)), None, stalls, restarted; }
          return None, None, stalls, restarted;
        case Body(_, _, _, _, _) =>
          end, total, stalls := Read(w, world.reply(n, offset), offset, stalls, restarted);
      }
    }

    /** The response: its status, its totals, its body, and how that ended. */
    method Read(w: Wanted, b: Reply, offset0: nat, stalls0: nat, ghost restarted: bool)
      returns (end: Option<Outcome>, total: Option<nat>, stalls: nat)
      requires b.Body? && offset0 == Size(part)
      modifies this
      ensures match Took(w, Progress(old(part), stalls0, restarted), b)
              case Again(next) => end == None && Progress(part, stalls, restarted) == next && dest == old(dest)
              case Stop(outcome, p, delivered, t) =>
                end == Some(outcome) && part == p && total == t && dest == if delivered.Some? then delivered else old(dest)
    {
      hide Finished;
      var offset := offset0;
      stalls, total := stalls0, None;
      var whole := offset > 0 && b.status == 200;      // the range was ignored: the body is the whole file
      if whole { offset := 0; }
      if b.rangeTotal.Some? {
        total := b.rangeTotal;
      } else if b.contentLength.Some? {
        total := Some(offset + b.contentLength.value);
      }
      if w.size.Some? && total.Some? && total.value != w.size.value { return Some(Failed(WrongTotal)), total, stalls; }
      var before := if whole || part.None? then [] else part.value;
      assert before == if offset > 0 then part.value else [];
      part := Some(before + b.data);
      if b.ending.PastDeadline? { return Some(Failed(TimedOut)), total, stalls; }
      if b.ending.Dropped? || (total.Some? && Size(part) < total.value) {
        stalls := if b.data != [] then 0 else stalls + 1;
        if stalls > w.retries { return Some(Failed(Cut)), total, stalls; }
        return None, total, stalls;
      }
      TotalTold(w, part.value, total);
      var r := Finish(w);
      return Some(r), total, stalls;
    }

    /** Fetches into `dest`, watched for at most `limit` passes; `total` is what the last reply told. */
    method HttpDownload(w: Wanted, world: World, limit: nat) returns (r: Outcome, total: Option<nat>, passes: nat)
      modifies this
      ensures var run := Run(w, world, Progress(old(part), 0, false), 0, limit);
              && r == run.outcome && part == run.part && total == run.total && passes == run.passes
              && dest == if run.delivered.Some? then run.delivered else old(dest)
    {
      var stalls, restarted := 0, false;
      passes := 0;
      ghost var run := Run(w, world, Progress(part, 0, false), 0, limit);
      while passes < limit
        invariant passes <= limit && dest == old(dest)
        invariant run == Run(w, world, Progress(part, stalls, restarted), passes, limit)
      {
        ghost var pass := Attempt(w, Progress(part, stalls, restarted), world, passes);
        assert run == Onward(w, world, pass, passes + 1, limit);
        var end: Option<Outcome>;
        end, total, stalls, restarted := Try(w, world, passes, stalls, restarted);
        passes := passes + 1;
        if end.Some? { return end.value, total, passes; }
      }
      return Pending, None, passes;
    }
  }
}

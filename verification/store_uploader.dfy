/** Putting files back into the store: a queue and one thread, each path handed over once. */
module StoreUploads {
  import opened Options

  /** The loop's thread: not started, waiting, with the head of the queue, having settled it, or ended by
      an exception. */
  datatype Loop = NotStarted | Waiting | Busy(path: string) | Popping(fails: bool) | Dead

  /** The queue and the record; `handed` is the history of what was given to the store upload. */
  datatype State = State(q: seq<string>, done: set<string>, loop: Loop, handed: seq<string>)

  const Initial := State([], {}, NotStarted, [])

  /** An add; the loop taking the head; its upload settled, or not, before an exception; the `finally`. */
  datatype Action = Add(path: string) | Take | Settle(fails: bool) | Blow | Pop

  predicate Enabled(s: State, a: Action) {
    match a
    case Add(_) => true
    case Take => s.loop.Waiting? && s.q != []
    case Settle(_) => s.loop.Busy?
    case Blow => s.loop.Busy?
    case Pop => s.loop.Popping? && s.q != []
  }

  function Next(s: State, a: Action): State
    requires Enabled(s, a)
  {
    match a
    case Add(path) =>
      if path in s.done || path in s.q then s
      else s.(q := s.q + [path], loop := if s.loop.NotStarted? then Waiting else s.loop)
    case Take => s.(loop := Busy(s.q[0]), handed := s.handed + [s.q[0]])
    case Settle(fails) => s.(done := s.done + {s.loop.path}, loop := Popping(fails))
    case Blow => s.(loop := Popping(true))
    case Pop => s.(q := s.q[1..], loop := if s.loop.fails then Dead else Waiting)
  }

  predicate Runs(t: seq<State>, acts: seq<Action>) {
    && |t| == |acts| + 1 && t[0] == Initial
    && forall n :: 0 <= n < |acts| ==> Enabled(t[n], acts[n]) && t[n + 1] == Next(t[n], acts[n])
  }

  predicate Distinct(xs: seq<string>) { forall i, j :: 0 <= i < j < |xs| ==> xs[i] != xs[j] }

  /** What is queued behind the head has not been handed over, unless nothing ever will be again. */
  predicate Good(s: State) {
    && Distinct(s.q) && Distinct(s.handed)
    && (s.loop.Busy? ==> s.q != [] && s.q[0] == s.loop.path && s.loop.path in s.handed)
    && (s.loop.Popping? ==> s.q != [] && s.q[0] in s.handed)
    && (s.loop.NotStarted? ==> s.q == [] && s.handed == [])
    && (s.loop.Waiting? ==> forall p <- s.q :: p !in s.handed)
    && (s.loop.Busy? || s.loop.Popping? ==> forall p <- s.q[1..] :: p !in s.handed)
    && (forall p <- s.handed :: p in s.done || s.loop.Dead? || (s.loop.Busy? && p == s.loop.path)
                                || (s.loop.Popping? && s.loop.fails && s.q != [] && p == s.q[0]))
  }

  lemma StepIsGood(s: State, a: Action)
    requires Good(s) && Enabled(s, a)
    ensures Good(Next(s, a))
  {
    if a.Take? { assert s.q[0] in s.q && s.q[0] !in s.handed; }
    if a.Pop? { assert s.q == [s.q[0]] + s.q[1..]; }
  }

  lemma {:induction false} RunIsGood(t: seq<State>, acts: seq<Action>, n: nat)
    requires Runs(t, acts) && n < |t|
    ensures Good(t[n])
    decreases n
  {
    hide Enabled, Next;
    if n > 0 {
      RunIsGood(t, acts, n - 1);
      StepIsGood(t[n - 1], acts[n - 1]);
    }
  }

  /** Each path is handed to the store upload once at most, however often and whenever it is added. */
  lemma HandedOnce(t: seq<State>, acts: seq<Action>, n: nat)
    requires Runs(t, acts) && n < |t|
    ensures Distinct(t[n].handed)
  {
    RunIsGood(t, acts, n);
  }

  /** An exception out of an upload ends the thread for good: what is added afterwards stays queued. */
  lemma {:induction false} NothingAfterAnException(t: seq<State>, acts: seq<Action>, n: nat, m: nat)
    requires Runs(t, acts) && n <= m < |t| && t[n].loop.Dead?
    ensures t[m].loop.Dead? && t[m].handed == t[n].handed && t[n].q <= t[m].q
    decreases m
  {
    if m > n { NothingAfterAnException(t, acts, n, m - 1); }
  }

  /** While the thread lives, what was added is settled, in hand or waiting its turn. */
  lemma {:induction false} NothingIsForgotten(t: seq<State>, acts: seq<Action>, n: nat, m: nat, path: string)
    requires Runs(t, acts) && n < m < |t| && acts[n] == Add(path) && !t[m].loop.Dead?
    ensures path in t[m].done || path in t[m].q
    decreases m
  {
    if m > n + 1 {
      NothingIsForgotten(t, acts, n, m - 1, path);
      RunIsGood(t, acts, m - 1);
    }
  }

  // -- what is never handed over --------------------------------------------------------------------

  /** A file that is gone when its upload is noted raises behind the record: the thread ends, and a path added
      afterwards stays queued. */
  lemma TheThreadDies(a: string, b: string) returns (t: seq<State>)
    requires a != b
    ensures Runs(t, [Add(a), Take, Settle(true), Pop, Add(b)])
    ensures t[5] == State([b], {a}, Dead, [a])
  {
    var s1, s2 := State([a], {}, Waiting, []), State([a], {}, Busy(a), [a]);
    var s3, s4 := State([a], {a}, Popping(true), [a]), State([], {a}, Dead, [a]);
    t := [Initial, s1, s2, s3, s4, State([b], {a}, Dead, [a])];
  }

  /** The state after these actions; none when one of them cannot be taken. */
  function Follow(s: State, acts: seq<Action>): Option<State>
    decreases |acts|
  {
    if acts == [] then Some(s)
    else if !Enabled(s, acts[0]) then None
    else Follow(Next(s, acts[0]), acts[1..])
  }

  predicate Hands(s: State, acts: seq<Action>, path: string) {
    Follow(s, acts).Some? && path in Follow(s, acts).value.handed
  }

  /** The thread has ended, or is about to. */
  predicate Doomed(s: State) { s.loop.Dead? || (s.loop.Popping? && s.loop.fails) }

  lemma {:induction false} NothingMore(s: State, acts: seq<Action>)
    requires Doomed(s) && Follow(s, acts).Some?
    ensures Follow(s, acts).value.handed == s.handed
    decreases |acts|
  {
    if acts != [] { NothingMore(Next(s, acts[0]), acts[1..]); }
  }

  lemma FollowStep(s: State, a: Action, rest: seq<Action>)
    requires Enabled(s, a)
    ensures Follow(s, [a] + rest) == Follow(Next(s, a), rest)
  {
    assert ([a] + rest)[1..] == rest;
  }

  /** A queued path can still have its turn. */
  lemma {:induction false} ItsTurn(s: State, path: string) returns (acts: seq<Action>)
    requires Good(s) && path in s.q && path !in s.handed && !Doomed(s)
    ensures Hands(s, acts, path)
    decreases |s.q|, if s.loop.Waiting? then 2 else if s.loop.Busy? then 1 else 0
  {
    var a := if s.loop.Waiting? then Take else if s.loop.Busy? then Settle(false) else Pop;
    StepIsGood(s, a);
    var s' := Next(s, a);
    var rest: seq<Action> := [];
    if a.Take? && s.q[0] == path {
      assert Follow(s', []) == Some(s');
    } else {
      assert s.q == [s.q[0]] + s.q[1..];
      rest := ItsTurn(s', path);
    }
    FollowStep(s, a, rest);
    acts := [a] + rest;
  }

  /** In any run, a queued path that was not handed over never will be, whatever comes, if and only if the
      thread has ended or the exception that ends it is on its way out. */
  lemma NeverHandedOver(t: seq<State>, acts: seq<Action>, n: nat, path: string)
    requires Runs(t, acts) && n < |t| && path in t[n].q && path !in t[n].handed
    ensures (forall more :: !Hands(t[n], more, path)) <==> Doomed(t[n])
  {
    RunIsGood(t, acts, n);
    if Doomed(t[n]) {
      forall more ensures !Hands(t[n], more, path) {
        if Follow(t[n], more).Some? { NothingMore(t[n], more); }
      }
    } else {
      var more := ItsTurn(t[n], path);
      assert Hands(t[n], more, path);
    }
  }
}

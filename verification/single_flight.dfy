/** One download per path at a time: whoever asks while one is under way waits for it. */
module SingleFlight {
  import opened Options

  /** What the one download of a flight came to: an error or none.  `_fetch_one` catches every exception. */
  datatype Flight = UnderWay | Came(error: Option<string>)

  /** A slot: `error` and `isSet` are the shared list, the rest is its history. */
  datatype Slot = Slot(path: string, leader: nat, error: Option<string>, isSet: bool, flight: Flight)

  /** Where a caller of `fetch_one` stands. */
  datatype Pc =
    | Asking
    | Fetching(slot: nat) | Storing(slot: nat, error: Option<string>) | Popping(slot: nat) | Setting(slot: nat)
    | Waiting(slot: nat)
    | Returned(slot: nat, error: Option<string>)

  datatype Caller = Caller(path: string, pc: Pc)

  datatype State = State(inflight: map<string, nat>, slots: seq<Slot>, callers: seq<Caller>)

  const Initial := State(map[], [], [])

  datatype Action = Arrive(path: string) | Step(c: nat, error: Option<string>)

  function At(s: State, c: nat, pc: Pc): State
    requires c < |s.callers|
  {
    s.(callers := s.callers[c := s.callers[c].(pc := pc)])
  }

  function Put(s: State, k: nat, slot: Slot): State
    requires k < |s.slots|
  {
    s.(slots := s.slots[k := slot])
  }

  /** The slots a caller points at are there. */
  predicate InRange(s: State, pc: Pc) { pc.Asking? || pc.slot < |s.slots| }

  predicate Enabled(s: State, a: Action) {
    match a
    case Arrive(_) => true
    case Step(c, _) =>
      && c < |s.callers| && InRange(s, s.callers[c].pc)
      && !s.callers[c].pc.Returned?
      && (s.callers[c].pc.Waiting? ==> s.slots[s.callers[c].pc.slot].isSet)
  }

  function Next(s: State, a: Action): State
    requires Enabled(s, a)
  {
    match a
    case Arrive(path) => s.(callers := s.callers + [Caller(path, Asking)])
    case Step(c, error) => Stepped(s, c, error)
  }

  function Stepped(s: State, c: nat, error: Option<string>): State
    requires Enabled(s, Step(c, error))
  {
    var path := s.callers[c].path;
    match s.callers[c].pc
    case Asking =>
      if path in s.inflight then At(s, c, Waiting(s.inflight[path]))
      else At(s.(slots := s.slots + [Slot(path, c, None, false, UnderWay)], inflight := s.inflight[path := |s.slots|]),
              c, Fetching(|s.slots|))
    case Fetching(k) =>
      At(Put(s, k, s.slots[k].(flight := Came(error))), c, Storing(k, error))
    case Storing(k, e) => At(Put(s, k, s.slots[k].(error := e)), c, Popping(k))
    case Popping(k) => At(s.(inflight := s.inflight - {path}), c, Setting(k))
    case Setting(k) =>
      At(Put(s, k, s.slots[k].(isSet := true)), c, Returned(k, s.slots[k].error))
    case Waiting(k) => At(s, c, Returned(k, s.slots[k].error))
    case _ => s
  }

  predicate Runs(t: seq<State>, acts: seq<Action>) {
    && |t| == |acts| + 1 && t[0] == Initial
    && forall n :: 0 <= n < |acts| ==> Enabled(t[n], acts[n]) && t[n + 1] == Next(t[n], acts[n])
  }

  // -- what every step keeps -------------------------------------------------------------------------

  predicate Leads(pc: Pc) { pc.Fetching? || pc.Storing? || pc.Popping? || pc.Setting? }

  predicate Registered(pc: Pc) { pc.Fetching? || pc.Storing? || pc.Popping? }

  /** Where a leader stands fits its slot. */
  predicate LeaderFits(s: State, c: nat)
    requires c < |s.callers|
  {
    var pc := s.callers[c].pc;
    Leads(pc) ==>
      && pc.slot < |s.slots|
      && s.slots[pc.slot].leader == c && s.slots[pc.slot].path == s.callers[c].path && !s.slots[pc.slot].isSet
      && (Registered(pc) ==> s.callers[c].path in s.inflight && s.inflight[s.callers[c].path] == pc.slot)
      && (pc.Fetching? ==> s.slots[pc.slot].flight.UnderWay?)
      && (pc.Fetching? || pc.Storing? ==> s.slots[pc.slot].error.None?)
      && (pc.Storing? ==> s.slots[pc.slot].flight == Came(pc.error))
      && (pc.Popping? || pc.Setting? ==> Settled(s.slots[pc.slot]))
  }

  /** The shared error is the flight's outcome. */
  predicate Settled(slot: Slot) { slot.flight == Came(slot.error) }

  predicate FollowerFits(s: State, c: nat)
    requires c < |s.callers|
  {
    var pc := s.callers[c].pc;
    && ((pc.Waiting? || pc.Returned?) ==> pc.slot < |s.slots| && s.slots[pc.slot].path == s.callers[c].path)
    && (pc.Returned? ==> s.slots[pc.slot].isSet && pc.error == s.slots[pc.slot].error)
  }

  predicate Good(s: State) {
    && (forall c :: 0 <= c < |s.callers| ==> LeaderFits(s, c))
    && (forall c :: 0 <= c < |s.callers| ==> FollowerFits(s, c))
    && (forall slot <- s.slots :: slot.isSet ==> Settled(slot))
    && (forall path <- s.inflight :: s.inflight[path] < |s.slots| && s.slots[s.inflight[path]].path == path)
  }

  lemma StepIsGood(s: State, a: Action)
    requires Good(s) && Enabled(s, a)
    ensures Good(Next(s, a))
  {
    if a.Step? {
      var s' := Stepped(s, a.c, a.error);
      LeadersStay(s, s', a.c, a.error);
      FollowersStay(s, s', a.c, a.error);
      SlotsStay(s, s', a.c, a.error);
    } else {
      var s' := Next(s, a);
      forall d | 0 <= d < |s'.callers| ensures LeaderFits(s', d) && FollowerFits(s', d) {
        assert d < |s.callers| ==> LeaderFits(s, d) && FollowerFits(s, d);
      }
    }
  }

  lemma LeaderStays(s: State, s': State, c: nat, error: Option<string>)
    requires Good(s) && Enabled(s, Step(c, error)) && s' == Stepped(s, c, error)
    ensures LeaderFits(s', c)
  {
    hide FollowerFits;
    assert LeaderFits(s, c);
  }

  lemma LeadersStay(s: State, s': State, c: nat, error: Option<string>)
    requires Good(s) && Enabled(s, Step(c, error)) && s' == Stepped(s, c, error)
    ensures forall d :: 0 <= d < |s'.callers| ==> LeaderFits(s', d)
  {
    hide FollowerFits;
    LeaderStays(s, s', c, error);
    forall d | 0 <= d < |s'.callers| && d != c ensures LeaderFits(s', d) {
      assert LeaderFits(s, c) && LeaderFits(s, d);
    }
  }

  lemma FollowersStay(s: State, s': State, c: nat, error: Option<string>)
    requires Good(s) && Enabled(s, Step(c, error)) && s' == Stepped(s, c, error)
    ensures forall d :: 0 <= d < |s'.callers| ==> FollowerFits(s', d)
  {
    forall d | 0 <= d < |s'.callers| ensures FollowerFits(s', d) {
      assert LeaderFits(s, c) && FollowerFits(s, c) && FollowerFits(s, d);
    }
  }

  lemma SlotsStay(s: State, s': State, c: nat, error: Option<string>)
    requires Good(s) && Enabled(s, Step(c, error)) && s' == Stepped(s, c, error)
    ensures forall slot <- s'.slots :: slot.isSet ==> Settled(slot)
    ensures forall path <- s'.inflight :: s'.inflight[path] < |s'.slots| && s'.slots[s'.inflight[path]].path == path
  {
    assert LeaderFits(s, c);
  }

  lemma {:induction false} RunIsGood(t: seq<State>, acts: seq<Action>, n: nat)
    requires Runs(t, acts) && n < |t|
    ensures Good(t[n])
    decreases n
  {
    hide Enabled, Next;
    if n > 0 {
      RunIsGood(t, acts, n - 1);
      StepIsGood(t[n - 1], acts[n - 1]);
    }
  }

  // -- the theorems -----------------------------------------------------------------------------------

  /** At most one download of a path is under way, however many callers there are. */
  lemma OneFlightPerPath(t: seq<State>, acts: seq<Action>, n: nat, c: nat, d: nat)
    requires Runs(t, acts) && n < |t| && c < |t[n].callers| && d < |t[n].callers|
    requires t[n].callers[c].pc.Fetching? && t[n].callers[d].pc.Fetching? && t[n].callers[c].path == t[n].callers[d].path
    ensures c == d
  {
    RunIsGood(t, acts, n);
    assert LeaderFits(t[n], c) && LeaderFits(t[n], d);
  }

  /** Every caller that returns has the outcome of the one download of its flight, of its own path. */
  lemma WaitersShareTheOutcome(t: seq<State>, acts: seq<Action>, n: nat, c: nat)
    requires Runs(t, acts) && n < |t| && c < |t[n].callers| && t[n].callers[c].pc.Returned?
    ensures var pc := t[n].callers[c].pc;
            && pc.slot < |t[n].slots|
            && var slot := t[n].slots[pc.slot];
            && slot.path == t[n].callers[c].path
            && slot.isSet && slot.flight == Came(pc.error)
  {
    RunIsGood(t, acts, n);
    assert FollowerFits(t[n], c);
    assert t[n].slots[t[n].callers[c].pc.slot] in t[n].slots;
  }

  /** A path is registered only while its leader downloads, notes the outcome or is about to take it out. */
  predicate PathIsLed(s: State, path: string)
    requires path in s.inflight
  {
    && s.inflight[path] < |s.slots|
    && var leader := s.slots[s.inflight[path]].leader;
    && leader < |s.callers| && s.callers[leader].path == path
    && Registered(s.callers[leader].pc) && s.callers[leader].pc.slot == s.inflight[path]
  }

  lemma StepKeepsPathsLed(s: State, a: Action)
    requires Good(s) && Enabled(s, a) && forall path <- s.inflight :: PathIsLed(s, path)
    ensures forall path <- Next(s, a).inflight :: PathIsLed(Next(s, a), path)
  {
    hide FollowerFits;
    var s' := Next(s, a);
    if a.Step? { assert LeaderFits(s, a.c); }
    forall path | path in s'.inflight ensures PathIsLed(s', path) {
      if path in s.inflight { assert PathIsLed(s, path); }
    }
  }

  lemma {:induction false} PathsLedAllAlong(t: seq<State>, acts: seq<Action>, n: nat)
    requires Runs(t, acts) && n < |t|
    ensures forall path <- t[n].inflight :: PathIsLed(t[n], path)
    decreases n
  {
    hide Enabled, Next;
    if n > 0 {
      PathsLedAllAlong(t, acts, n - 1);
      RunIsGood(t, acts, n - 1);
      StepKeepsPathsLed(t[n - 1], acts[n - 1]);
    }
  }

  /** Who asks for a path joins a flight of it if and only if one is not over, and else starts the next. */
  lemma JoinsWhatIsUnderWay(t: seq<State>, acts: seq<Action>, n: nat, c: nat)
    requires Runs(t, acts) && n < |acts| && acts[n].Step? && acts[n].c == c < |t[n].callers| && t[n].callers[c].pc.Asking?
    ensures var path := t[n].callers[c].path;
            && c < |t[n + 1].callers|
            && (t[n + 1].callers[c].pc.Waiting?
                <==> exists d :: 0 <= d < |t[n].callers| && t[n].callers[d].path == path && Registered(t[n].callers[d].pc))
            && (!t[n + 1].callers[c].pc.Waiting? ==> t[n + 1].callers[c].pc == Fetching(|t[n].slots|))
  {
    RunIsGood(t, acts, n);
    PathsLedAllAlong(t, acts, n);
    var path := t[n].callers[c].path;
    if path in t[n].inflight { assert PathIsLed(t[n], path); }
    forall d | 0 <= d < |t[n].callers| && t[n].callers[d].path == path && Registered(t[n].callers[d].pc)
      ensures path in t[n].inflight
    {
      assert LeaderFits(t[n], d);
    }
  }

  /** A flight someone waits for is being downloaded or about to wake them: nobody waits in vain. */
  predicate HasLeader(s: State, k: nat)
    requires k < |s.slots|
  {
    s.slots[k].isSet
    || (s.slots[k].leader < |s.callers| && Leads(s.callers[s.slots[k].leader].pc) && s.callers[s.slots[k].leader].pc.slot == k)
  }

  lemma StepKeepsLeaders(s: State, a: Action)
    requires Good(s) && Enabled(s, a) && forall k :: 0 <= k < |s.slots| ==> HasLeader(s, k)
    ensures forall k :: 0 <= k < |Next(s, a).slots| ==> HasLeader(Next(s, a), k)
  {
    var s' := Next(s, a);
    if a.Step? {
      assert LeaderFits(s, a.c);
      forall k | 0 <= k < |s'.slots| ensures HasLeader(s', k) {
        if k < |s.slots| { assert HasLeader(s, k); }
      }
    } else {
      forall k | 0 <= k < |s'.slots| ensures HasLeader(s', k) { assert HasLeader(s, k); }
    }
  }

  lemma {:induction false} NobodyWaitsInVain(t: seq<State>, acts: seq<Action>, n: nat, k: nat)
    requires Runs(t, acts) && n < |t| && k < |t[n].slots|
    ensures HasLeader(t[n], k)
    ensures !t[n].slots[k].isSet ==> Enabled(t[n], Step(t[n].slots[k].leader, None))
    decreases n
  {
    LeadersAllAlong(t, acts, n);
    RunIsGood(t, acts, n);
    assert HasLeader(t[n], k);
    if !t[n].slots[k].isSet { assert LeaderFits(t[n], t[n].slots[k].leader); }
  }

  lemma {:induction false} LeadersAllAlong(t: seq<State>, acts: seq<Action>, n: nat)
    requires Runs(t, acts) && n < |t|
    ensures forall k :: 0 <= k < |t[n].slots| ==> HasLeader(t[n], k)
    decreases n
  {
    if n > 0 {
      LeadersAllAlong(t, acts, n - 1);
      RunIsGood(t, acts, n - 1);
      StepKeepsLeaders(t[n - 1], acts[n - 1]);
    }
  }
}

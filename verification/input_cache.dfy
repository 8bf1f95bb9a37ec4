/** The worker's input cache: files under a byte budget, the least recently used going first. */
module InputCaching {
  import opened Options

  type Data = seq<bv8>

  // -- the cache as a list, the latest use first -----------------------------------------------------

  datatype Entry = Entry(key: string, data: Data)

  function Total(l: seq<Entry>): nat { if l == [] then 0 else |l[0].data| + Total(l[1..]) }

  function Lookup(l: seq<Entry>, key: string): Option<Data> {
    if l == [] then None else if l[0].key == key then Some(l[0].data) else Lookup(l[1..], key)
  }

  function Without(l: seq<Entry>, key: string): seq<Entry> {
    if l == [] then [] else if l[0].key == key then Without(l[1..], key) else [l[0]] + Without(l[1..], key)
  }

  function Use(l: seq<Entry>, key: string): seq<Entry> {
    var found := Lookup(l, key);
    if found.None? then l else [Entry(key, found.value)] + Without(l, key)
  }

  /** The latest entries, as many as fit. */
  function Fit(l: seq<Entry>, budget: nat): seq<Entry> {
    if l == [] || |l[0].data| > budget then [] else [l[0]] + Fit(l[1..], budget - |l[0].data|)
  }

  predicate Accepts(budget: int, data: Data) { budget > 0 && |data| <= budget }

  function Stored(l: seq<Entry>, budget: int, key: string, data: Data): seq<Entry> {
    if Accepts(budget, data) then Fit([Entry(key, data)] + Without(l, key), budget) else l
  }

  // -- the code: files with modification times -------------------------------------------------------

  datatype File = File(data: Data, mtime: nat)

  type Files = map<string, File>

  /** `order` has some of the files, the youngest first. */
  predicate ByAge(files: Files, order: seq<string>) {
    order != [] ==>
      && order[0] in files
      && ByAge(files, order[1..])
      && forall key <- order[1..] :: key in files && files[key].mtime < files[order[0]].mtime
  }

  function Entries(files: Files, order: seq<string>): seq<Entry>
    requires ByAge(files, order)
  {
    if order == [] then [] else [Entry(order[0], files[order[0]].data)] + Entries(files, order[1..])
  }

  function Others(order: seq<string>, key: string): seq<string> {
    if order == [] then [] else if order[0] == key then Others(order[1..], key) else [order[0]] + Others(order[1..], key)
  }

  ghost predicate Ordered(files: Files, order: seq<string>) {
    ByAge(files, order) && forall key :: key in order <==> key in files
  }

  class InputCache {
    const budget: int
    var files: Files
    /** The clock, past every modification time. */
    var now: nat
    /** The files, youngest first. */
    ghost var order: seq<string>

    ghost predicate Valid()
      reads this
    {
      Ordered(files, order) && forall key <- files :: files[key].mtime < now
    }

    /** The abstract list. */
    ghost function Contents(): seq<Entry>
      requires Valid()
      reads this
    {
      Entries(files, order)
    }

    constructor (bytes: int)
      ensures Valid() && Contents() == [] && budget == bytes
    {
      budget, files, now, order := bytes, map[], 0, [];
    }

    method Get(key: string) returns (hit: Option<Data>)
      requires Valid()
      modifies this
      ensures Valid()
      ensures hit == if budget <= 0 then None else Lookup(old(Contents()), key)
      ensures Contents() == if hit.None? then old(Contents()) else Use(old(Contents()), key)
    {
      if budget <= 0 { return None; }
      LookupReads(files, order, key);
      if key !in files { return None; }
      hit := Some(files[key].data);
      Write(key, files[key].data);
    }

    method Put(key: string, data: Data)
      requires Valid()
      modifies this
      ensures Valid()
      ensures Contents() == Stored(old(Contents()), budget, key, data)
    {
      if budget <= 0 || |data| > budget { return; }
      Write(key, data);
      Evict();
    }

    /** The file is there with these bytes, and modified now. */
    method Write(key: string, data: Data)
      requires Valid()
      modifies this
      ensures Valid() && Contents() == [Entry(key, data)] + Without(old(Contents()), key)
    {
      WriteMoves(files, order, key, File(data, now));
      files := files[key := File(data, now)];
      order, now := [key] + Others(order, key), now + 1;
    }

    method Evict()
      requires Valid() && budget >= 0
      modifies this`files, this`order
      ensures Valid() && Contents() == Fit(old(Contents()), budget)
    {
      var list := Listing();
      var total := Sum(list);
      ghost var whole := Fit(Contents(), budget);
      var i := 0;
      while i < |list| && total > budget
        invariant Valid() && i <= |list| && IsReverse(list[i..], order)
        invariant total == Total(Contents()) && Fit(Contents(), budget) == whole
        decreases |list| - i
      {
        ghost var before := Contents();
        DropOldest(files, order, list[i..]);
        FitDropsLast(before, budget);
        total := total - |files[list[i]].data|;
        files := files - {list[i]};
        order := order[..|order| - 1];
        assert list[i..][1..] == list[i + 1..];
        i := i + 1;
      }
      FitKeepsAll(Contents(), budget);
    }

    /** The files sorted by modification time, oldest first. */
    method Listing() returns (list: seq<string>)
      requires Valid()
      ensures IsReverse(list, order)
    {
      var left := files.Keys;
      ghost var ahead := order;
      list := [];
      while left != {}
        invariant ByAge(files, ahead) && forall key :: key in left <==> key in ahead
        invariant ahead <= order && IsReverse(list, order[|ahead|..])
        decreases |left|
      {
        var next := Oldest(left, ahead);
        LastIsOldest(files, ahead);
        LastIsOnce(files, ahead);
        ReverseMore(list, order, |ahead|);
        list, left, ahead := list + [next], left - {next}, ahead[..|ahead| - 1];
      }
      NoneIsNone(left, ahead);
    }

    method Oldest(left: set<string>, ghost ahead: seq<string>) returns (next: string)
      requires ByAge(files, ahead) && left != {} && forall key :: key in left <==> key in ahead
      ensures ahead != [] && next == ahead[|ahead| - 1]
    {
      NoneIsNone(left, ahead);
      LastIsLeast(files, ahead);
      assert ahead[|ahead| - 1] in left;
      next :| next in left && forall key <- left :: files[next].mtime <= files[key].mtime;
    }

    method Sum(list: seq<string>) returns (total: nat)
      requires Valid() && IsReverse(list, order)
      ensures total == Total(Contents())
    {
      total := 0;
      assert order[..|order|] == order;
      for i := 0 to |list|
        invariant ByAge(files, order[..|order| - i])
        invariant total + Total(Entries(files, order[..|order| - i])) == Total(Contents())
      {
        var ahead := order[..|order| - i];
        LastIsOldest(files, ahead);
        assert ahead[..|ahead| - 1] == order[..|order| - (i + 1)];
        total := total + |files[list[i]].data|;
      }
    }
  }

  lemma NoneIsNone(left: set<string>, ahead: seq<string>)
    requires forall key :: key in left <==> key in ahead
    ensures left == {} <==> ahead == []
  {
    if ahead != [] { assert ahead[0] in ahead; }
    if left != {} {
      var key :| key in left;
      assert key in ahead;
    }
  }

  predicate IsReverse(a: seq<string>, b: seq<string>) {
    |a| == |b| && forall i :: 0 <= i < |a| ==> a[i] == b[|b| - 1 - i]
  }

  lemma ReverseMore(list: seq<string>, order: seq<string>, n: nat)
    requires 0 < n <= |order| && IsReverse(list, order[n..])
    ensures IsReverse(list + [order[n - 1]], order[n - 1..])
  {
  }

  // -- from files to the list ---------------------------------------------------------------------------

  lemma {:induction false} LookupReads(files: Files, order: seq<string>, key: string)
    requires ByAge(files, order)
    ensures Lookup(Entries(files, order), key) == if key in order then Some(files[key].data) else None
    decreases |order|
  {
    if order != [] { LookupReads(files, order[1..], key); }
  }

  lemma {:induction false} OthersAre(order: seq<string>, key: string)
    ensures forall k :: k in Others(order, key) <==> k in order && k != key
    decreases |order|
  {
    if order != [] { OthersAre(order[1..], key); }
  }

  /** The files but one, seen through a map in which only that one differs. */
  lemma {:induction false} OthersRead(files: Files, now: Files, order: seq<string>, key: string)
    requires ByAge(files, order)
    requires forall k <- order :: k != key ==> k in now && now[k] == files[k]
    ensures ByAge(now, Others(order, key))
    ensures Entries(now, Others(order, key)) == Without(Entries(files, order), key)
    decreases |order|
  {
    if order != [] {
      OthersRead(files, now, order[1..], key);
      OthersAre(order[1..], key);
    }
  }

  /** Writing or touching a file makes it the youngest. */
  lemma WriteMoves(files: Files, order: seq<string>, key: string, f: File)
    requires Ordered(files, order) && forall k <- files :: files[k].mtime < f.mtime
    ensures var moved, now := [key] + Others(order, key), files[key := f];
            && Ordered(now, moved)
            && Entries(now, moved) == [Entry(key, f.data)] + Without(Entries(files, order), key)
  {
    OthersAre(order, key);
    OthersRead(files, files[key := f], order, key);
    assert ([key] + Others(order, key))[1..] == Others(order, key);
  }

  /** All but the last. */
  lemma {:induction false} LastIsOldest(files: Files, order: seq<string>)
    requires ByAge(files, order)
    ensures order != [] ==>
              var init, last := order[..|order| - 1], order[|order| - 1];
              && ByAge(files, init) && last in files
              && (forall key <- init :: key in files && files[last].mtime < files[key].mtime)
              && Entries(files, order) == Entries(files, init) + [Entry(last, files[last].data)]
              && Total(Entries(files, order)) == Total(Entries(files, init)) + |files[last].data|
    decreases |order|
  {
    if |order| > 1 {
      LastIsOldest(files, order[1..]);
      var init := order[..|order| - 1];
      assert order[1..][..|order| - 2] == init[1..];
      assert order[1..][|order| - 2] == order[|order| - 1] && order[|order| - 1] in order[1..];
    } else if |order| == 1 {
      assert order[..0] == [] && order[1..] == [];
    }
  }

  lemma LastIsLeast(files: Files, order: seq<string>)
    requires ByAge(files, order) && order != []
    ensures var last := order[|order| - 1];
            last in files && forall key <- order :: key in files && (key == last || files[last].mtime < files[key].mtime)
  {
    LastIsOldest(files, order);
    assert order == order[..|order| - 1] + [order[|order| - 1]];
  }

  lemma LastIsOnce(files: Files, order: seq<string>)
    requires ByAge(files, order) && order != []
    ensures forall key :: key in order[..|order| - 1] <==> key in order && key != order[|order| - 1]
  {
    LastIsOldest(files, order);
    assert order == order[..|order| - 1] + [order[|order| - 1]];
  }

  lemma {:induction false} SameEntries(files: Files, rest: Files, order: seq<string>)
    requires ByAge(files, order) && forall key <- order :: key in rest && rest[key] == files[key]
    ensures ByAge(rest, order) && Entries(rest, order) == Entries(files, order)
    decreases |order|
  {
    if order != [] { SameEntries(files, rest, order[1..]); }
  }

  lemma DropOldest(files: Files, order: seq<string>, list: seq<string>)
    requires Ordered(files, order) && IsReverse(list, order) && list != []
    ensures var init, rest := order[..|order| - 1], files - {list[0]};
            && list[0] in files && Ordered(rest, init) && IsReverse(list[1..], init)
            && Entries(files, order) == Entries(rest, init) + [Entry(list[0], files[list[0]].data)]
            && Total(Entries(files, order)) == Total(Entries(rest, init)) + |files[list[0]].data|
  {
    LastIsOldest(files, order);
    var init, rest := order[..|order| - 1], files - {list[0]};
    assert order == init + [list[0]];
    SameEntries(files, rest, init);
  }

  // -- what Fit leaves ----------------------------------------------------------------------------

  /** It is a beginning of the list, it fits, and no longer one does. */
  lemma {:induction false} FitIsLongest(l: seq<Entry>, budget: nat)
    ensures Fit(l, budget) <= l && Total(Fit(l, budget)) <= budget
    ensures forall k :: |Fit(l, budget)| < k <= |l| ==> Total(l[..k]) > budget
    decreases |l|
  {
    if l != [] && |l[0].data| <= budget {
      var rest := budget - |l[0].data|;
      FitIsLongest(l[1..], rest);
      forall k | |Fit(l, budget)| < k <= |l| ensures Total(l[..k]) > budget {
        assert l[..k][1..] == l[1..][..k - 1];
      }
    }
  }

  lemma {:induction false} FitKeepsAll(l: seq<Entry>, budget: nat)
    requires Total(l) <= budget || l == []
    ensures Fit(l, budget) == l
    decreases |l|
  {
    if l != [] { FitKeepsAll(l[1..], budget - |l[0].data|); }
  }

  lemma {:induction false} FitDropsLast(l: seq<Entry>, budget: nat)
    requires Total(l) > budget
    ensures l != [] && Fit(l, budget) == Fit(l[..|l| - 1], budget)
    decreases |l|
  {
    if |l| > 1 && |l[0].data| <= budget {
      FitDropsLast(l[1..], budget - |l[0].data|);
      assert l[..|l| - 1][1..] == l[1..][..|l| - 2];
    }
  }

  // -- every history -----------------------------------------------------------------------------------

  datatype Op = Get(key: string) | Put(key: string, data: Data)

  function CacheAfter(budget: int, h: seq<Op>): seq<Entry> {
    if h == [] then []
    else
      var l := CacheAfter(budget, h[..|h| - 1]);
      match h[|h| - 1]
      case Get(key) => if budget <= 0 then l else Use(l, key)
      case Put(key, data) => Stored(l, budget, key, data)
  }

  /** What was last put under a key and accepted, as if nothing were ever evicted. */
  function LastPut(budget: int, h: seq<Op>): map<string, Data> {
    if h == [] then map[]
    else
      var m := LastPut(budget, h[..|h| - 1]);
      var op := h[|h| - 1];
      if op.Put? && Accepts(budget, op.data) then m[op.key := op.data] else m
  }

  predicate DistinctKeys(l: seq<Entry>) {
    l != [] ==> (forall e <- l[1..] :: e.key != l[0].key) && DistinctKeys(l[1..])
  }

  predicate Matches(l: seq<Entry>, m: map<string, Data>) { forall e <- l :: e.key in m && m[e.key] == e.data }

  predicate Sound(budget: int, l: seq<Entry>, m: map<string, Data>) {
    DistinctKeys(l) && Total(l) <= (if budget > 0 then budget else 0) && Matches(l, m)
  }

  lemma {:induction false} WithoutKeeps(l: seq<Entry>, key: string)
    requires DistinctKeys(l)
    ensures forall e :: e in Without(l, key) <==> e in l && e.key != key
    ensures DistinctKeys(Without(l, key))
    decreases |l|
  {
    if l != [] { WithoutKeeps(l[1..], key); }
  }

  lemma {:induction false} WithoutWeighs(l: seq<Entry>, key: string)
    requires DistinctKeys(l)
    ensures Total(Without(l, key)) + (if Lookup(l, key).Some? then |Lookup(l, key).value| else 0) == Total(l)
    decreases |l|
  {
    if l != [] {
      WithoutWeighs(l[1..], key);
      if l[0].key == key { NotAhead(l[1..], key); }
    }
  }

  lemma {:induction false} NotAhead(l: seq<Entry>, key: string)
    requires forall e <- l :: e.key != key
    ensures Without(l, key) == l && Lookup(l, key).None?
    decreases |l|
  {
    if l != [] {
      assert l[0].key != key && forall e <- l[1..] :: e in l;
      NotAhead(l[1..], key);
      assert [l[0]] + l[1..] == l;
    }
  }

  lemma {:induction false} LookupIsThere(l: seq<Entry>, key: string)
    ensures Lookup(l, key).Some? ==> Entry(key, Lookup(l, key).value) in l
    decreases |l|
  {
    if l != [] { LookupIsThere(l[1..], key); }
  }

  lemma {:induction false} PrefixIsDistinct(l: seq<Entry>, k: nat)
    requires k <= |l| && DistinctKeys(l)
    ensures DistinctKeys(l[..k])
    decreases k
  {
    if k > 0 {
      PrefixIsDistinct(l[1..], k - 1);
      assert l[..k][1..] == l[1..][..k - 1];
    }
  }

  lemma UseIsSound(budget: int, l: seq<Entry>, m: map<string, Data>, key: string)
    requires Sound(budget, l, m)
    ensures Sound(budget, Use(l, key), m)
  {
    var found := Lookup(l, key);
    if found.Some? {
      WithoutKeeps(l, key);
      WithoutWeighs(l, key);
      LookupIsThere(l, key);
      assert ([Entry(key, found.value)] + Without(l, key))[1..] == Without(l, key);
    }
  }

  lemma StoredIsSound(budget: int, l: seq<Entry>, m: map<string, Data>, key: string, data: Data)
    requires Sound(budget, l, m) && Accepts(budget, data)
    ensures Sound(budget, Stored(l, budget, key, data), m[key := data])
    ensures Lookup(Stored(l, budget, key, data), key) == Some(data)
  {
    WithoutKeeps(l, key);
    var all := [Entry(key, data)] + Without(l, key);
    assert all[1..] == Without(l, key);
    FitIsLongest(all, budget);
    PrefixIsDistinct(all, |Fit(all, budget)|);
    assert Fit(all, budget) == all[..|Fit(all, budget)|];
  }

  /** After any history: within budget, and whatever is there is what was last accepted for its key. */
  lemma {:induction false} CacheIsSound(budget: int, h: seq<Op>)
    ensures Sound(budget, CacheAfter(budget, h), LastPut(budget, h))
    decreases |h|
  {
    if h != [] {
      CacheIsSound(budget, h[..|h| - 1]);
      var l, m := CacheAfter(budget, h[..|h| - 1]), LastPut(budget, h[..|h| - 1]);
      match h[|h| - 1]
      case Get(key) => UseIsSound(budget, l, m, key);
      case Put(key, data) => if Accepts(budget, data) { StoredIsSound(budget, l, m, key, data); }
    }
  }

  /** A hit gives exactly the bytes last accepted for its key, and a put that is accepted is a hit next. */
  lemma HitsAreLastPut(budget: int, h: seq<Op>, key: string, data: Data)
    ensures Lookup(CacheAfter(budget, h), key).Some? ==>
              key in LastPut(budget, h) && Lookup(CacheAfter(budget, h), key).value == LastPut(budget, h)[key]
    ensures var now := CacheAfter(budget, h + [Put(key, data)]);
            if budget > 0 && |data| <= budget then Lookup(now, key) == Some(data) else now == CacheAfter(budget, h)
  {
    CacheIsSound(budget, h);
    LookupIsThere(CacheAfter(budget, h), key);
    assert (h + [Put(key, data)])[..|h|] == h;
    if Accepts(budget, data) { StoredIsSound(budget, CacheAfter(budget, h), LastPut(budget, h), key, data); }
  }

  // -- the least recently used goes first --------------------------------------------------------------

  /** An accepted put of the key, or a hit on it. */
  predicate Touches(budget: int, l: seq<Entry>, op: Op, key: string) {
    match op
    case Put(k, data) => k == key && Accepts(budget, data)
    case Get(k) => k == key && budget > 0 && Lookup(l, key).Some?
  }

  /** When the key was last touched; 0 if never. */
  function LastTouch(budget: int, h: seq<Op>, key: string): nat {
    if h == [] then 0
    else if Touches(budget, CacheAfter(budget, h[..|h| - 1]), h[|h| - 1], key) then |h|
    else LastTouch(budget, h[..|h| - 1], key)
  }

  lemma {:induction false} TouchedByThen(budget: int, h: seq<Op>, key: string)
    ensures LastTouch(budget, h, key) <= |h|
    decreases |h|
  {
    if h != [] { TouchedByThen(budget, h[..|h| - 1], key); }
  }

  /** Later and later last touches, from the end to the front. */
  predicate ByTouch(budget: int, h: seq<Op>, l: seq<Entry>) {
    forall i, j :: 0 <= i < j < |l| ==> LastTouch(budget, h, l[i].key) > LastTouch(budget, h, l[j].key)
  }

  /** What Without leaves is there in the same order. */
  lemma {:induction false} WithoutIsPart(l: seq<Entry>, key: string) returns (at: seq<nat>)
    ensures IsPart(Without(l, key), l, at)
    ensures forall i :: 0 <= i < |at| ==> l[at[i]].key != key
    decreases |l|
  {
    if l == [] {
      at := [];
    } else {
      var rest := WithoutIsPart(l[1..], key);
      assert Without(l, key) == if l[0].key == key then Without(l[1..], key) else [l[0]] + Without(l[1..], key);
      hide Without;
      PartOfRest(Without(l[1..], key), l, rest);
      var moved := seq(|rest|, i requires 0 <= i < |rest| => rest[i] + 1);
      at := if l[0].key == key then moved else [0] + moved;
    }
  }

  /** The entries of part are those of the list at these places, one behind the other. */
  predicate IsPart(part: seq<Entry>, l: seq<Entry>, at: seq<nat>) {
    && |at| == |part|
    && (forall i :: 0 <= i < |at| ==> at[i] < |l| && part[i] == l[at[i]])
    && forall i, j :: 0 <= i < j < |at| ==> at[i] < at[j]
  }

  lemma PartOfRest(part: seq<Entry>, l: seq<Entry>, rest: seq<nat>)
    requires l != [] && IsPart(part, l[1..], rest)
    ensures var moved := seq(|rest|, i requires 0 <= i < |rest| => rest[i] + 1);
            IsPart(part, l, moved) && IsPart([l[0]] + part, l, [0] + moved)
  {
  }

  lemma {:induction false} TouchedToFront(budget: int, h: seq<Op>, l: seq<Entry>, e: Entry, op: Op)
    requires l == CacheAfter(budget, h) && ByTouch(budget, h, l) && Touches(budget, l, op, e.key)
    ensures ByTouch(budget, h + [op], [e] + Without(l, e.key))
  {
    var at := WithoutIsPart(l, e.key);
    var h', l' := h + [op], [e] + Without(l, e.key);
    assert h'[..|h|] == h;
    forall i, j | 0 <= i < j < |l'| ensures LastTouch(budget, h', l'[i].key) > LastTouch(budget, h', l'[j].key) {
      var b := l[at[j - 1]];
      assert l'[j] == b && b.key != e.key && !Touches(budget, l, op, b.key);
      TouchedByThen(budget, h, b.key);
      if i > 0 { assert l'[i] == l[at[i - 1]] && !Touches(budget, l, op, l'[i].key); }
    }
  }

  /** After any history the entries stand by their last use, the latest first: so what does not fit is the
      least recently used. */
  lemma {:induction false} LatestFirst(budget: int, h: seq<Op>)
    ensures ByTouch(budget, h, CacheAfter(budget, h))
    decreases |h|
  {
    if h != [] {
      var init, op := h[..|h| - 1], h[|h| - 1];
      var l := CacheAfter(budget, init);
      LatestFirst(budget, init);
      assert h == init + [op];
      match op
      case Get(key) =>
        if budget > 0 && Lookup(l, key).Some? {
          TouchedToFront(budget, init, l, Entry(key, Lookup(l, key).value), op);
        } else {
          Untouched(budget, init, op);
        }
      case Put(key, data) =>
        if Accepts(budget, data) {
          TouchedToFront(budget, init, l, Entry(key, data), op);
          FitIsLongest([Entry(key, data)] + Without(l, key), budget);
        } else {
          Untouched(budget, init, op);
        }
    }
  }

  lemma Untouched(budget: int, h: seq<Op>, op: Op)
    requires ByTouch(budget, h, CacheAfter(budget, h))
    requires forall key :: !Touches(budget, CacheAfter(budget, h), op, key)
    ensures ByTouch(budget, h + [op], CacheAfter(budget, h))
  {
    assert (h + [op])[..|h|] == h;
  }

  /** A get loses nothing, and a put nothing while it all fits. */
  lemma KeptWhileItFits(budget: int, h: seq<Op>, op: Op, e: Entry)
    requires e in CacheAfter(budget, h)
    requires op.Put? ==> e.key != op.key && Total(CacheAfter(budget, h)) + |op.data| <= budget
    ensures e in CacheAfter(budget, h + [op])
  {
    var l := CacheAfter(budget, h);
    CacheIsSound(budget, h);
    assert (h + [op])[..|h|] == h;
    match op
    case Get(key) =>
      WithoutKeeps(l, key);
      EntryIsLookedUp(l, e);
    case Put(key, data) =>
      WithoutKeeps(l, key);
      WithoutWeighs(l, key);
      if Accepts(budget, data) { FitKeepsAll([Entry(key, data)] + Without(l, key), budget); }
  }

  lemma {:induction false} EntryIsLookedUp(l: seq<Entry>, e: Entry)
    requires DistinctKeys(l) && e in l
    ensures Lookup(l, e.key) == Some(e.data)
    decreases |l|
  {
    if l[0] != e {
      assert e in l[1..];
      EntryIsLookedUp(l[1..], e);
    }
  }
}

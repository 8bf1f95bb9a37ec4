/** Dividing work into chunks that fit on a disk, without ever splitting a group. */
module Chunks {

  datatype Item = Item(key: string, rel: string, size: nat, group: string)
  datatype Chunk = Chunk(index: nat, items: seq<Item>, bytes: nat, groups: nat)

  /** Items that must stay together; an item without a group is one on its own, named by its path. */
  datatype Group = Group(name: string, items: seq<Item>)

  function GroupName(it: Item): string { if it.group != "" then it.group else it.rel }

  // -- weights and lists ------------------------------------------------------------------------

  function Bytes(items: seq<Item>): nat { if items == [] then 0 else Bytes(items[..|items| - 1]) + items[|items| - 1].size }

  function Weight(gs: seq<Group>): nat { if gs == [] then 0 else Weight(gs[..|gs| - 1]) + Bytes(gs[|gs| - 1].items) }

  function Items(gs: seq<Group>): seq<Item> { if gs == [] then [] else Items(gs[..|gs| - 1]) + gs[|gs| - 1].items }

  function Joined(parts: seq<seq<Group>>): seq<Group> {
    if parts == [] then [] else Joined(parts[..|parts| - 1]) + parts[|parts| - 1]
  }

  function Weights(parts: seq<seq<Group>>): nat {
    if parts == [] then 0 else Weights(parts[..|parts| - 1]) + Weight(parts[|parts| - 1])
  }

  lemma LastApart<T>(a: seq<T>, b: seq<T>)
    requires b != []
    ensures b == b[..|b| - 1] + [b[|b| - 1]]
    ensures a + b == (a + b[..|b| - 1]) + [b[|b| - 1]]
  {
  }

  lemma AddGroup(part: seq<Group>, g: Group)
    ensures Weight(part + [g]) == Weight(part) + Bytes(g.items) && Items(part + [g]) == Items(part) + g.items
  {
    assert (part + [g])[..|part|] == part;
  }

  lemma {:induction false} WeightOfJoin(a: seq<Group>, b: seq<Group>)
    ensures Weight(a + b) == Weight(a) + Weight(b)
    ensures Items(a + b) == Items(a) + Items(b)
    decreases |b|
  {
    if b == [] {
      assert a + b == a;
    } else {
      hide Weight, Items;
      var init, last := b[..|b| - 1], b[|b| - 1];
      WeightOfJoin(a, init);
      LastApart(a, b);
      AddGroup(a + init, last);
      AddGroup(init, last);
    }
  }

  lemma {:induction false} WeightOfParts(parts: seq<seq<Group>>)
    ensures Weight(Joined(parts)) == Weights(parts)
    decreases |parts|
  {
    if parts != [] {
      WeightOfParts(parts[..|parts| - 1]);
      WeightOfJoin(Joined(parts[..|parts| - 1]), parts[|parts| - 1]);
    }
  }

  // -- grouping -----------------------------------------------------------------------------------

  /** The items of a group, in the order they came. */
  function Members(items: seq<Item>, name: string): seq<Item> {
    if items == [] then []
    else
      var rest, last := Members(items[..|items| - 1], name), items[|items| - 1];
      if GroupName(last) == name then rest + [last] else rest
  }

  /** `gs` holds each group of the items once, and whole. */
  predicate Grouped(items: seq<Item>, gs: seq<Group>) {
    && (forall i, j :: 0 <= i < j < |gs| ==> gs[i].name != gs[j].name)
    && (forall i :: 0 <= i < |gs| ==> gs[i].items == Members(items, gs[i].name) && gs[i].items != [])
    && multiset(Items(gs)) == multiset(items)
  }

  lemma {:induction false} MembersAreNamed(items: seq<Item>, name: string)
    ensures forall it <- Members(items, name) :: GroupName(it) == name
    decreases |items|
  {
    if items != [] { MembersAreNamed(items[..|items| - 1], name); }
  }

  lemma InItsMultiset(items: seq<Item>, it: Item)
    requires it in items
    ensures it in multiset(items)
  {
    var p :| 0 <= p < |items| && items[p] == it;
    assert items == items[..p] + [it] + items[p + 1..];
  }

  lemma OutOfItsMultiset(items: seq<Item>, it: Item)
    requires it in multiset(items)
    ensures it in items
  {
  }

  lemma {:induction false} NoMembers(items: seq<Item>, gs: seq<Group>, name: string)
    requires Grouped(items, gs) && forall i :: 0 <= i < |gs| ==> gs[i].name != name
    ensures Members(items, name) == []
  {
    if Members(items, name) != [] {
      var it := Members(items, name)[0];
      MembersAreNamed(items, name);
      MembersAreItems(items, name);
      InItsMultiset(items, it);
      OutOfItsMultiset(Items(gs), it);
      var i := ItemsComeFrom(gs, it);
      MembersAreNamed(items, gs[i].name);
    }
  }

  lemma {:induction false} MembersAreItems(items: seq<Item>, name: string)
    ensures forall it <- Members(items, name) :: it in items
    decreases |items|
  {
    if items != [] { MembersAreItems(items[..|items| - 1], name); }
  }

  lemma {:induction false} ItemsComeFrom(gs: seq<Group>, it: Item) returns (i: nat)
    requires it in Items(gs)
    ensures i < |gs| && it in gs[i].items
    decreases |gs|
  {
    if it in gs[|gs| - 1].items { i := |gs| - 1; } else { i := ItemsComeFrom(gs[..|gs| - 1], it); }
  }

  lemma {:induction false} ItemsAfterAppend(gs: seq<Group>, k: nat, it: Item)
    requires k < |gs|
    ensures multiset(Items(gs[k := Group(gs[k].name, gs[k].items + [it])])) == multiset(Items(gs)) + multiset{it}
    decreases |gs|
  {
    var gs' := gs[k := Group(gs[k].name, gs[k].items + [it])];
    var n := |gs| - 1;
    if k == n {
      assert gs'[..n] == gs[..n];
    } else {
      assert gs'[..n] == gs[..n][k := Group(gs[k].name, gs[k].items + [it])];
      ItemsAfterAppend(gs[..n], k, it);
    }
  }

  lemma NewGroup(items: seq<Item>, gs: seq<Group>, it: Item)
    requires Grouped(items, gs) && forall i :: 0 <= i < |gs| ==> gs[i].name != GroupName(it)
    ensures Grouped(items + [it], gs + [Group(GroupName(it), [it])])
  {
    hide Members, Items;
    var gs' := gs + [Group(GroupName(it), [it])];
    NoMembers(items, gs, GroupName(it));
    AddGroup(gs, Group(GroupName(it), [it]));
    forall i | 0 <= i < |gs'| ensures gs'[i].items == Members(items + [it], gs'[i].name) {
      OneMoreMember(items, it, gs'[i].name);
    }
  }

  lemma OldGroup(items: seq<Item>, gs: seq<Group>, it: Item, k: nat)
    requires Grouped(items, gs) && k < |gs| && gs[k].name == GroupName(it)
    ensures Grouped(items + [it], gs[k := Group(gs[k].name, gs[k].items + [it])])
  {
    hide Members, Items;
    var gs' := gs[k := Group(gs[k].name, gs[k].items + [it])];
    ItemsAfterAppend(gs, k, it);
    forall i | 0 <= i < |gs'| ensures gs'[i].items == Members(items + [it], gs'[i].name) {
      OneMoreMember(items, it, gs[i].name);
    }
    assert forall i :: 0 <= i < |gs| ==> gs'[i].name == gs[i].name;
  }

  // -- the order of the groups ---------------------------------------------------------------------

  /** One group's first item comes before any of the other's. */
  predicate ComesFirst(items: seq<Item>, name: string, other: string) {
    exists p :: 0 <= p < |items| && GroupName(items[p]) == name && NotUpTo(items, p, other)
  }

  predicate NotUpTo(items: seq<Item>, p: nat, name: string)
    requires p < |items|
  {
    forall q :: 0 <= q <= p ==> GroupName(items[q]) != name
  }

  /** The groups in the order of their first items. */
  predicate InOrder(items: seq<Item>, gs: seq<Group>) {
    forall i, j :: 0 <= i < j < |gs| ==> ComesFirst(items, gs[i].name, gs[j].name)
  }

  lemma ComesFirstStays(items: seq<Item>, it: Item, name: string, other: string)
    requires ComesFirst(items, name, other)
    ensures ComesFirst(items + [it], name, other)
  {
    var p :| 0 <= p < |items| && GroupName(items[p]) == name && NotUpTo(items, p, other);
    assert GroupName((items + [it])[p]) == name && NotUpTo(items + [it], p, other);
  }

  lemma MemberIsAt(items: seq<Item>, name: string) returns (p: nat)
    requires Members(items, name) != []
    ensures p < |items| && GroupName(items[p]) == name
  {
    var it := Members(items, name)[0];
    MembersAreNamed(items, name);
    MembersAreItems(items, name);
    assert it in items;
    p :| 0 <= p < |items| && items[p] == it;
  }

  lemma {:induction false} NoneUpTo(items: seq<Item>, name: string, p: nat)
    requires p < |items| && Members(items, name) == []
    ensures NotUpTo(items, p, name)
    decreases |items|
  {
    if p < |items| - 1 { NoneUpTo(items[..|items| - 1], name, p); } else if p > 0 { NoneUpTo(items[..p], name, p - 1); }
  }

  lemma OldGroupInOrder(items: seq<Item>, gs: seq<Group>, it: Item, k: nat, g: Group)
    requires InOrder(items, gs) && k < |gs| && g.name == gs[k].name
    ensures InOrder(items + [it], gs[k := g])
  {
    var now := gs[k := g];
    forall i, j | 0 <= i < j < |gs| ensures ComesFirst(items + [it], now[i].name, now[j].name) {
      ComesFirstStays(items, it, gs[i].name, gs[j].name);
    }
  }

  lemma NewGroupInOrder(items: seq<Item>, gs: seq<Group>, it: Item, g: Group)
    requires Grouped(items, gs) && InOrder(items, gs) && forall i :: 0 <= i < |gs| ==> gs[i].name != g.name
    ensures InOrder(items + [it], gs + [g])
  {
    NoMembers(items, gs, g.name);
    var now := gs + [g];
    forall i, j | 0 <= i < j < |gs| + 1 ensures ComesFirst(items + [it], now[i].name, now[j].name) {
      if j == |gs| {
        var p := MemberIsAt(items, gs[i].name);
        NoneUpTo(items, g.name, p);
        assert GroupName(items[p]) == gs[i].name;
      }
      ComesFirstStays(items, it, gs[i].name, now[j].name);
    }
  }

  lemma OneComesFirst(items: seq<Item>, a: string, b: string)
    requires ComesFirst(items, a, b)
    ensures !ComesFirst(items, b, a)
  {
    var p :| 0 <= p < |items| && GroupName(items[p]) == a && NotUpTo(items, p, b);
    forall q | 0 <= q < |items| && GroupName(items[q]) == b ensures !NotUpTo(items, q, a) {
      assert p <= q;
    }
  }

  lemma NameIsThere(items: seq<Item>, gs: seq<Group>, name: string) returns (k: nat)
    requires Grouped(items, gs) && Members(items, name) != []
    ensures k < |gs| && gs[k].name == name
  {
    if forall i :: 0 <= i < |gs| ==> gs[i].name != name { NoMembers(items, gs, name); }
    k :| k < |gs| && gs[k].name == name;
  }

  /** Group i is the same in both when those before it are. */
  lemma SameGroup(items: seq<Item>, a: seq<Group>, b: seq<Group>, i: nat)
    requires Grouped(items, a) && InOrder(items, a) && Grouped(items, b) && InOrder(items, b)
    requires i < |a| && i < |b| && forall j :: 0 <= j < i ==> a[j] == b[j]
    ensures a[i] == b[i]
  {
    if a[i].name != b[i].name {
      var k := NameIsThere(items, b, a[i].name);
      var l := NameIsThere(items, a, b[i].name);
      assert k > i && l > i;
      OneComesFirst(items, a[i].name, b[i].name);
    }
  }

  lemma {:induction false} SameGroups(items: seq<Item>, a: seq<Group>, b: seq<Group>, n: nat)
    requires Grouped(items, a) && InOrder(items, a) && Grouped(items, b) && InOrder(items, b)
    requires n <= |a| && n <= |b|
    ensures a[..n] == b[..n]
  {
    hide Grouped, InOrder;
    if n > 0 {
      SameGroups(items, a, b, n - 1);
      assert forall j :: 0 <= j < n - 1 ==> a[j] == a[..n - 1][j] && b[j] == b[..n - 1][j];
      SameGroup(items, a, b, n - 1);
    }
  }

  lemma NotFewer(items: seq<Item>, a: seq<Group>, b: seq<Group>)
    requires Grouped(items, a) && Grouped(items, b) && a <= b
    ensures a == b
  {
    if |a| < |b| { var _ := NameIsThere(items, a, b[|a|].name); }
  }

  /** The grouping of some items is the only one, order and all. */
  lemma GroupingIsUnique(items: seq<Item>, a: seq<Group>, b: seq<Group>)
    requires Grouped(items, a) && InOrder(items, a) && Grouped(items, b) && InOrder(items, b)
    ensures a == b
  {
    if |a| <= |b| {
      SameGroups(items, a, b, |a|);
      NotFewer(items, a, b);
    } else {
      SameGroups(items, a, b, |b|);
      NotFewer(items, b, a);
    }
  }

  lemma OneMoreMember(items: seq<Item>, it: Item, name: string)
    ensures Members(items + [it], name) == Members(items, name) + if GroupName(it) == name then [it] else []
  {
    assert (items + [it])[..|items|] == items;
  }

  lemma NoGroups()
    ensures Grouped([], []) && InOrder([], [])
  {
  }

  /** `by_group`: an ordered dict from group name to its items. */
  method GroupItems(items: seq<Item>) returns (gs: seq<Group>)
    ensures Grouped(items, gs) && InOrder(items, gs)
  {
    hide Members, Items, ComesFirst;
    gs := [];
    NoGroups();
    for n := 0 to |items|
      invariant Grouped(items[..n], gs) && InOrder(items[..n], gs)
    {
      var it := items[n];
      var k := 0;
      while k < |gs| && gs[k].name != GroupName(it)
        invariant k <= |gs| && forall j :: 0 <= j < k ==> gs[j].name != GroupName(it)
      {
        k := k + 1;
      }
      assert items[..n + 1] == items[..n] + [it];
      if k == |gs| {
        NewGroup(items[..n], gs, it);
        NewGroupInOrder(items[..n], gs, it, Group(GroupName(it), [it]));
        gs := gs + [Group(GroupName(it), [it])];
      } else {
        OldGroup(items[..n], gs, it, k);
        OldGroupInOrder(items[..n], gs, it, k, Group(gs[k].name, gs[k].items + [it]));
        gs := gs[k := Group(gs[k].name, gs[k].items + [it])];
      }
    }
    assert items[..|items|] == items;
  }

  // -- packing --------------------------------------------------------------------------------

  /** A division of the groups, in their order: a chunk of several groups fits the budget, and no chunk
      could have taken the first group of the next one. */
  predicate NextFit(gs: seq<Group>, budget: nat, parts: seq<seq<Group>>) {
    && Joined(parts) == gs
    && (forall k :: 0 <= k < |parts| ==> parts[k] != [])
    && (forall k :: 0 <= k < |parts| && |parts[k]| > 1 ==> Weight(parts[k]) <= budget)
    && (forall k :: 0 <= k < |parts| - 1 ==> Weight(parts[k]) + Bytes(parts[k + 1][0].items) > budget)
  }

  /** The chunks are those of a division. */
  predicate Describes(chunks: seq<Chunk>, parts: seq<seq<Group>>) {
    |chunks| == |parts| && forall k :: 0 <= k < |chunks| ==> chunks[k] == ChunkOf(k, parts[k])
  }

  function ChunkOf(index: nat, part: seq<Group>): Chunk { Chunk(index, Items(part), Weight(part), |part|) }

  /** The groups seen so far: those of the finished chunks, and those of the chunk being filled. */
  predicate Filling(budget: nat, parts: seq<seq<Group>>, part: seq<Group>) {
    && NextFit(Joined(parts), budget, parts)
    && (|part| > 1 ==> Weight(part) <= budget)
    && (parts != [] && part != [] ==> Weight(parts[|parts| - 1]) + Bytes(part[0].items) > budget)
  }

  lemma CloseChunk(budget: nat, parts: seq<seq<Group>>, part: seq<Group>)
    requires Filling(budget, parts, part) && part != []
    ensures Filling(budget, parts + [part], []) && Joined(parts + [part]) == Joined(parts) + part
  {
    assert (parts + [part])[..|parts|] == parts;
  }

  lemma DescribeMore(chunks: seq<Chunk>, parts: seq<seq<Group>>, part: seq<Group>)
    requires Describes(chunks, parts)
    ensures Describes(chunks + [ChunkOf(|chunks|, part)], parts + [part])
  {
  }

  lemma FillChunk(budget: nat, parts: seq<seq<Group>>, part: seq<Group>, g: Group)
    requires Filling(budget, parts, part)
    requires part != [] ==> Weight(part) + Bytes(g.items) <= budget
    requires part == [] && parts != [] ==> Weight(parts[|parts| - 1]) + Bytes(g.items) > budget
    ensures Filling(budget, parts, part + [g])
  {
    AddGroup(part, g);
  }

  /** The chunks of these groups, in order, and of these items. */
  ghost predicate IsPacked(gs: seq<Group>, budget: nat, chunks: seq<Chunk>) {
    exists parts :: NextFit(gs, budget, parts) && Describes(chunks, parts)
  }

  ghost predicate IsPlan(items: seq<Item>, budget: nat, chunks: seq<Chunk>) {
    exists gs :: Grouped(items, gs) && InOrder(items, gs) && IsPacked(gs, budget, chunks)
  }

  method Plan(items: seq<Item>, budget: nat) returns (chunks: seq<Chunk>)
    ensures IsPlan(items, budget, chunks)
  {
    hide Grouped, InOrder, IsPacked;
    var byGroup := GroupItems(items);
    GroupsAreFull(items, byGroup);
    chunks := Pack(byGroup, budget);
  }

  lemma GroupsAreFull(items: seq<Item>, gs: seq<Group>)
    requires Grouped(items, gs)
    ensures forall k :: 0 <= k < |gs| ==> gs[k].items != []
  {
  }

  /** After n groups. */
  predicate Packing(byGroup: seq<Group>, n: nat, budget: nat, chunks: seq<Chunk>, parts: seq<seq<Group>>, part: seq<Group>) {
    && n <= |byGroup| && Joined(parts) + part == byGroup[..n]
    && Describes(chunks, parts) && Filling(budget, parts, part)
  }

  lemma PackClose(byGroup: seq<Group>, n: nat, budget: nat, chunks: seq<Chunk>, parts: seq<seq<Group>>, part: seq<Group>)
    requires Packing(byGroup, n, budget, chunks, parts, part) && part != []
    ensures Packing(byGroup, n, budget, chunks + [ChunkOf(|chunks|, part)], parts + [part], [])
  {
    DescribeMore(chunks, parts, part);
    CloseChunk(budget, parts, part);
  }

  lemma PackFill(byGroup: seq<Group>, n: nat, budget: nat, chunks: seq<Chunk>, parts: seq<seq<Group>>, part: seq<Group>)
    requires Packing(byGroup, n, budget, chunks, parts, part) && n < |byGroup|
    requires var b := Bytes(byGroup[n].items);
             && (part != [] ==> Weight(part) + b <= budget)
             && (part == [] && parts != [] ==> Weight(parts[|parts| - 1]) + b > budget)
    ensures Packing(byGroup, n + 1, budget, chunks, parts, part + [byGroup[n]])
  {
    FillChunk(budget, parts, part, byGroup[n]);
    assert byGroup[..n + 1] == byGroup[..n] + [byGroup[n]];
  }

  lemma PackDone(byGroup: seq<Group>, budget: nat, chunks: seq<Chunk>, parts: seq<seq<Group>>)
    requires Packing(byGroup, |byGroup|, budget, chunks, parts, [])
    ensures NextFit(byGroup, budget, parts) && Describes(chunks, parts)
  {
    assert byGroup[..|byGroup|] == byGroup;
  }

  predicate PackInv(byGroup: seq<Group>, n: nat, budget: nat, chunks: seq<Chunk>, parts: seq<seq<Group>>,
                    part: seq<Group>, cur: Chunk)
  {
    && Packing(byGroup, n, budget, chunks, parts, part)
    && cur == ChunkOf(0, part) && (cur.items == [] <==> part == []) && (part == [] ==> parts == [])
  }

  lemma PackStart(byGroup: seq<Group>, budget: nat)
    ensures PackInv(byGroup, 0, budget, [], [], [], Chunk(0, [], 0, 0))
  {
  }

  lemma OneGroup(g: Group)
    ensures Items([g]) == g.items && Weight([g]) == Bytes(g.items)
  {
    AddGroup([], g);
    assert [] + [g] == [g] && [] + g.items == g.items;
  }

  /** The next group opens a chunk. */
  lemma PackNext(byGroup: seq<Group>, n: nat, budget: nat, chunks: seq<Chunk>, parts: seq<seq<Group>>,
                 part: seq<Group>, cur: Chunk)
    requires PackInv(byGroup, n, budget, chunks, parts, part, cur) && n < |byGroup| && byGroup[n].items != []
    requires cur.items != [] && cur.bytes + Bytes(byGroup[n].items) > budget
    ensures var g := byGroup[n];
            PackInv(byGroup, n + 1, budget, chunks + [cur.(index := |chunks|)], parts + [part], [g],
                    Chunk(0, g.items, Bytes(g.items), 1))
  {
    hide Packing, Bytes, Weight, Items;
    var g := byGroup[n];
    PackClose(byGroup, n, budget, chunks, parts, part);
    PackFill(byGroup, n, budget, chunks + [cur.(index := |chunks|)], parts + [part], []);
    OneGroup(g);
    assert [] + [g] == [g];
  }

  /** The next group joins the chunk being filled. */
  lemma PackJoin(byGroup: seq<Group>, n: nat, budget: nat, chunks: seq<Chunk>, parts: seq<seq<Group>>,
                 part: seq<Group>, cur: Chunk)
    requires PackInv(byGroup, n, budget, chunks, parts, part, cur) && n < |byGroup| && byGroup[n].items != []
    requires cur.items == [] || cur.bytes + Bytes(byGroup[n].items) <= budget
    ensures var g := byGroup[n];
            PackInv(byGroup, n + 1, budget, chunks, parts, part + [g],
                    Chunk(0, cur.items + g.items, cur.bytes + Bytes(g.items), cur.groups + 1))
  {
    hide Packing, Bytes, Weight, Items;
    PackFill(byGroup, n, budget, chunks, parts, part);
    AddGroup(part, byGroup[n]);
  }

  lemma PackStep(byGroup: seq<Group>, n: nat, budget: nat, chunks: seq<Chunk>, parts: seq<seq<Group>>,
                 part: seq<Group>, cur: Chunk)
    requires PackInv(byGroup, n, budget, chunks, parts, part, cur) && n < |byGroup| && byGroup[n].items != []
    ensures var g := byGroup[n];
            if cur.items != [] && cur.bytes + Bytes(g.items) > budget then
              PackInv(byGroup, n + 1, budget, chunks + [cur.(index := |chunks|)], parts + [part], [g],
                      Chunk(0, g.items, Bytes(g.items), 1))
            else
              PackInv(byGroup, n + 1, budget, chunks, parts, part + [g],
                      Chunk(0, cur.items + g.items, cur.bytes + Bytes(g.items), cur.groups + 1))
  {
    hide PackInv, Bytes;
    if cur.items != [] && cur.bytes + Bytes(byGroup[n].items) > budget {
      PackNext(byGroup, n, budget, chunks, parts, part, cur);
    } else {
      PackJoin(byGroup, n, budget, chunks, parts, part, cur);
    }
  }

  method Pack(byGroup: seq<Group>, budget: nat) returns (chunks: seq<Chunk>)
    requires forall k :: 0 <= k < |byGroup| ==> byGroup[k].items != []
    ensures IsPacked(byGroup, budget, chunks)
  {
    hide Packing, NextFit, Describes, Bytes, Weight, Items;
    chunks := [];
    ghost var parts: seq<seq<Group>> := [];
    PackStart(byGroup, budget);
    ghost var part: seq<Group> := [];
    var cur: seq<Item>, curBytes: nat, curGroups: nat := [], 0, 0;
    for n := 0 to |byGroup|
      invariant PackInv(byGroup, n, budget, chunks, parts, part, Chunk(0, cur, curBytes, curGroups))
    {
      var g := byGroup[n];
      var gbytes := Bytes(g.items);
      PackStep(byGroup, n, budget, chunks, parts, part, Chunk(0, cur, curBytes, curGroups));
      if cur != [] && curBytes + gbytes > budget {
        chunks := chunks + [Chunk(|chunks|, cur, curBytes, curGroups)];
        parts, part := parts + [part], [];
        cur, curBytes, curGroups := [], 0, 0;
      }
      assert cur == [] ==> cur + g.items == g.items && part + [g] == [g];
      part := part + [g];
      cur, curBytes, curGroups := cur + g.items, curBytes + gbytes, curGroups + 1;
    }
    if cur != [] {
      PackClose(byGroup, |byGroup|, budget, chunks, parts, part);
      chunks := chunks + [Chunk(|chunks|, cur, curBytes, curGroups)];
      parts := parts + [part];
    }
    PackDone(byGroup, budget, chunks, parts);
  }

  // -- what a plan is worth ---------------------------------------------------------------------

  function AllItems(chunks: seq<Chunk>): seq<Item> {
    if chunks == [] then [] else AllItems(chunks[..|chunks| - 1]) + chunks[|chunks| - 1].items
  }

  lemma {:induction false} ChunksHoldItems(chunks: seq<Chunk>, parts: seq<seq<Group>>)
    requires Describes(chunks, parts)
    ensures AllItems(chunks) == Items(Joined(parts))
    decreases |chunks|
  {
    if chunks != [] {
      ChunksHoldItems(chunks[..|chunks| - 1], parts[..|parts| - 1]);
      WeightOfJoin(Joined(parts[..|parts| - 1]), parts[|parts| - 1]);
    }
  }

  lemma {:induction false} JoinedAt(parts: seq<seq<Group>>, k: nat, j: nat) returns (i: nat)
    requires k < |parts| && j < |parts[k]|
    ensures i < |Joined(parts)| && Joined(parts)[i] == parts[k][j]
    ensures |Joined(parts[..k])| <= i < |Joined(parts[..k + 1])|
    decreases |parts|
  {
    var n := |parts| - 1;
    if k == n {
      i := |Joined(parts[..n])| + j;
      assert parts[..n + 1] == parts;
    } else {
      i := JoinedAt(parts[..n], k, j);
      assert parts[..n][..k] == parts[..k] && parts[..n][..k + 1] == parts[..k + 1];
    }
  }

  lemma {:induction false} JoinedGrows(parts: seq<seq<Group>>, a: nat, b: nat)
    requires a <= b <= |parts|
    ensures |Joined(parts[..a])| <= |Joined(parts[..b])|
    decreases b
  {
    if a < b {
      JoinedGrows(parts, a, b - 1);
      assert parts[..b][..b - 1] == parts[..b - 1];
    }
  }

  /** They must stay together: of one group, or without one and of one path; a path may be a group's name. */
  predicate Together(x: Item, y: Item) {
    if x.group == "" && y.group == "" then x.rel == y.rel
    else if x.group == "" then x.rel == y.group
    else if y.group == "" then y.rel == x.group
    else x.group == y.group
  }

  /** What a chunk weighs is what its items do. */
  lemma {:induction false} BytesAdd(a: seq<Item>, b: seq<Item>)
    ensures Bytes(a + b) == Bytes(a) + Bytes(b)
    ensures forall it: Item :: Bytes([it]) == it.size
    decreases |b|
  {
    forall it: Item ensures Bytes([it]) == it.size { assert [it][..0] == []; }
    if b == [] {
      assert a + b == a;
    } else {
      BytesAdd(a, b[..|b| - 1]);
      LastApart(a, b);
      assert (a + b)[..|a + b| - 1] == a + b[..|b| - 1];
    }
  }

  /** A plan keeps every item, once; items of one group are never in two chunks; and only groups that fit
      together share one. */
  lemma PlanConserves(items: seq<Item>, budget: nat, chunks: seq<Chunk>)
    requires IsPlan(items, budget, chunks)
    ensures multiset(AllItems(chunks)) == multiset(items)
    ensures forall a, b, x, y :: 0 <= a < b < |chunks| && x in chunks[a].items && y in chunks[b].items ==>
              !Together(x, y)
    ensures forall k :: 0 <= k < |chunks| ==> chunks[k].groups > 0 && (chunks[k].groups > 1 ==> chunks[k].bytes <= budget)
  {
    hide Grouped, InOrder, NextFit, Describes;
    var gs: seq<Group> :| Grouped(items, gs) && InOrder(items, gs) && IsPacked(gs, budget, chunks);
    var parts: seq<seq<Group>> :| NextFit(gs, budget, parts) && Describes(chunks, parts);
    PartsConserve(items, gs, budget, parts, chunks);
  }

  lemma TogetherIsGroup(x: Item, y: Item)
    ensures Together(x, y) <==> GroupName(x) == GroupName(y)
  {
  }

  lemma {:induction false} WeightIsBytes(gs: seq<Group>)
    ensures Weight(gs) == Bytes(Items(gs))
    decreases |gs|
  {
    if gs != [] {
      WeightIsBytes(gs[..|gs| - 1]);
      BytesAdd(Items(gs[..|gs| - 1]), gs[|gs| - 1].items);
    }
  }

  /** What the plan tells of a chunk: its place, and the bytes of its items. */
  lemma PlanTells(items: seq<Item>, budget: nat, chunks: seq<Chunk>, k: nat)
    requires IsPlan(items, budget, chunks) && k < |chunks|
    ensures chunks[k].index == k && chunks[k].bytes == Bytes(chunks[k].items)
  {
    hide Grouped, InOrder, NextFit;
    var gs: seq<Group> :| Grouped(items, gs) && InOrder(items, gs) && IsPacked(gs, budget, chunks);
    var parts: seq<seq<Group>> :| NextFit(gs, budget, parts) && Describes(chunks, parts);
    WeightIsBytes(parts[k]);
  }

  lemma PartsConserve(items: seq<Item>, gs: seq<Group>, budget: nat, parts: seq<seq<Group>>, chunks: seq<Chunk>)
    requires Grouped(items, gs) && NextFit(gs, budget, parts) && Describes(chunks, parts)
    ensures multiset(AllItems(chunks)) == multiset(items)
    ensures forall a, b, x, y :: 0 <= a < b < |chunks| && x in chunks[a].items && y in chunks[b].items ==>
              !Together(x, y)
    ensures forall k :: 0 <= k < |chunks| ==> chunks[k].groups > 0 && (chunks[k].groups > 1 ==> chunks[k].bytes <= budget)
  {
    ChunksHoldItems(chunks, parts);
    forall a, b, x, y | 0 <= a < b < |chunks| && x in chunks[a].items && y in chunks[b].items
      ensures !Together(x, y)
    {
      TogetherIsGroup(x, y);
      hide Together, GroupName;
      var i := ItemsComeFrom(parts[a], x);
      var j := ItemsComeFrom(parts[b], y);
      var p := JoinedAt(parts, a, i);
      var q := JoinedAt(parts, b, j);
      JoinedGrows(parts, a + 1, b);
      assert gs[p].name != gs[q].name;
      MembersAreNamed(items, gs[p].name);
      MembersAreNamed(items, gs[q].name);
    }
  }

  lemma OneMorePart(parts: seq<seq<Group>>, part: seq<Group>)
    ensures Joined(parts + [part]) == Joined(parts) + part
  {
    assert (parts + [part])[..|parts|] == parts;
  }

  lemma {:induction false} JoinedParts(a: seq<seq<Group>>, b: seq<seq<Group>>)
    ensures Joined(a + b) == Joined(a) + Joined(b)
    decreases |b|
  {
    if b == [] {
      assert a + b == a;
    } else {
      hide Joined;
      var init, last := b[..|b| - 1], b[|b| - 1];
      JoinedParts(a, init);
      LastApart(a, b);
      OneMorePart(a + init, last);
      OneMorePart(init, last);
    }
  }

  lemma NoParts()
    ensures forall part: seq<Group> :: Joined([]) + part == part
  {
  }

  lemma JoinedFront(parts: seq<seq<Group>>)
    requires parts != []
    ensures Joined(parts) == parts[0] + Joined(parts[1..])
  {
    hide Joined;
    JoinedParts([parts[0]], parts[1..]);
    assert parts == [parts[0]] + parts[1..];
    assert [] + [parts[0]] == [parts[0]];
    OneMorePart([], parts[0]);
    NoParts();
  }

  lemma WeightOfPrefix(part: seq<Group>, k: nat)
    requires k < |part|
    ensures Weight(part[..k]) + Bytes(part[k].items) <= Weight(part)
  {
    assert part == part[..k] + part[k..];
    WeightOfJoin(part[..k], part[k..]);
    FirstGroupWeighs(part[k..]);
  }

  /** NextFit leaves the packer no choice: a division that has it is the one the loop finds. */
  lemma {:induction false} NextFitIsUnique(gs: seq<Group>, budget: nat, a: seq<seq<Group>>, b: seq<seq<Group>>)
    requires NextFit(gs, budget, a) && NextFit(gs, budget, b)
    ensures a == b
    decreases |gs|
  {
    if a != [] { JoinedFront(a); }
    if b != [] { JoinedFront(b); }
    if a != [] && b != [] {
      NotShorter(gs, budget, a, b);
      NotShorter(gs, budget, b, a);
      assert a[0] == gs[..|a[0]|] == b[0];
      NextFitIsUnique(gs[|a[0]|..], budget, a[1..], b[1..]);
    }
  }

  /** So the items leave no choice at all: a plan is the only one of its budget. */
  lemma PlanIsUnique(items: seq<Item>, budget: nat, a: seq<Chunk>, b: seq<Chunk>)
    requires IsPlan(items, budget, a) && IsPlan(items, budget, b)
    ensures a == b
  {
    hide Grouped, InOrder, NextFit;
    var gs: seq<Group> :| Grouped(items, gs) && InOrder(items, gs) && IsPacked(gs, budget, a);
    var hs: seq<Group> :| Grouped(items, hs) && InOrder(items, hs) && IsPacked(hs, budget, b);
    GroupingIsUnique(items, gs, hs);
    var p: seq<seq<Group>> :| NextFit(gs, budget, p) && Describes(a, p);
    var q: seq<seq<Group>> :| NextFit(hs, budget, q) && Describes(b, q);
    NextFitIsUnique(gs, budget, p, q);
  }

  lemma NotShorter(gs: seq<Group>, budget: nat, a: seq<seq<Group>>, b: seq<seq<Group>>)
    requires NextFit(gs, budget, a) && NextFit(gs, budget, b) && a != [] && b != []
    ensures |a[0]| >= |b[0]|
  {
    JoinedFront(a);
    JoinedFront(b);
    var k := |a[0]|;
    if k < |b[0]| {
      if a[1..] != [] { JoinedFront(a[1..]); }
      assert gs[k] == b[0][k] && gs[..k] == b[0][..k] == a[0];
      assert gs[k] == a[1][0];
      WeightOfPrefix(b[0], k);
    }
  }

  // -- how many chunks ----------------------------------------------------------------------------

  function Product(n: nat, x: nat): nat { if n == 0 then 0 else Product(n - 1, x) + x }

  lemma {:induction false} ProductIs(n: nat, x: nat)
    ensures Product(n, x) == n * x
  {
    if n > 0 {
      ProductIs(n - 1, x);
      assert n * x == (n - 1) * x + x;
    }
  }

  /** Two neighbouring chunks are together more than the budget. */
  lemma {:induction false} PairsOverflow(parts: seq<seq<Group>>, budget: nat, pairs: nat)
    requires forall k :: 0 <= k < |parts| ==> parts[k] != []
    requires forall k :: 0 <= k < |parts| - 1 ==> Weight(parts[k]) + Bytes(parts[k + 1][0].items) > budget
    requires 2 * pairs <= |parts|
    ensures Weights(parts) >= Product(pairs, budget + 1)
    decreases pairs
  {
    hide Bytes, Weight;
    if pairs > 0 {
      var n := |parts|;
      PairsOverflow(parts[..n - 2], budget, pairs - 1);
      assert parts[..n - 1][..n - 2] == parts[..n - 2];
      FirstGroupWeighs(parts[n - 1]);
    }
  }

  lemma FirstGroupWeighs(part: seq<Group>)
    requires part != []
    ensures Weight(part) >= Bytes(part[0].items)
  {
    assert part == part[..1] + part[1..];
    WeightOfJoin(part[..1], part[1..]);
    assert Weight(part[..1]) == Weight(part[..1][..0]) + Bytes(part[..1][0].items);
  }

  /** Some other division of the groups: group i goes to part `to[i]`. */
  function Load(gs: seq<Group>, to: seq<nat>, p: nat): nat
    requires |to| == |gs|
  {
    if gs == [] then 0
    else Load(gs[..|gs| - 1], to[..|to| - 1], p) + (if to[|to| - 1] == p then Bytes(gs[|gs| - 1].items) else 0)
  }

  predicate Divides(gs: seq<Group>, to: seq<nat>, m: nat, budget: nat) {
    && |to| == |gs| && (forall i :: 0 <= i < |to| ==> to[i] < m)
    && forall p :: 0 <= p < m ==> Load(gs, to, p) <= budget
  }

  function Loads(gs: seq<Group>, to: seq<nat>, m: nat): nat
    requires |to| == |gs|
  {
    if m == 0 then 0 else Loads(gs, to, m - 1) + Load(gs, to, m - 1)
  }

  lemma {:induction false} LoadsWithout(gs: seq<Group>, to: seq<nat>, m: nat)
    requires |to| == |gs| > 0
    ensures var last := |gs| - 1;
            Loads(gs, to, m) == Loads(gs[..last], to[..last], m) + (if to[last] < m then Bytes(gs[last].items) else 0)
    decreases m
  {
    if m > 0 { LoadsWithout(gs, to, m - 1); }
  }

  lemma {:induction false} NoLoad(m: nat)
    ensures Loads([], [], m) == 0
    decreases m
  {
    if m > 0 { NoLoad(m - 1); }
  }

  lemma {:induction false} LoadsAreWeight(gs: seq<Group>, to: seq<nat>, m: nat)
    requires |to| == |gs| && forall i :: 0 <= i < |to| ==> to[i] < m
    ensures Loads(gs, to, m) == Weight(gs)
    decreases |gs|
  {
    if gs == [] {
      assert to == [];
      NoLoad(m);
    } else {
      LoadsWithout(gs, to, m);
      LoadsAreWeight(gs[..|gs| - 1], to[..|to| - 1], m);
    }
  }

  lemma {:induction false} LoadsBound(gs: seq<Group>, to: seq<nat>, m: nat, budget: nat)
    requires |to| == |gs| && forall p :: 0 <= p < m ==> Load(gs, to, p) <= budget
    ensures Loads(gs, to, m) <= Product(m, budget)
    decreases m
  {
    hide Load;
    if m > 0 { LoadsBound(gs, to, m - 1, budget); }
  }

  /** Whenever the same groups can be divided into m parts that fit, a plan has at most 2m - 1 chunks. */
  lemma AtMostTwiceTheBest(gs: seq<Group>, budget: nat, chunks: seq<Chunk>, to: seq<nat>, m: nat)
    requires IsPacked(gs, budget, chunks) && Divides(gs, to, m, budget) && m > 0
    ensures |chunks| <= 2 * m - 1
  {
    var parts: seq<seq<Group>> :| NextFit(gs, budget, parts) && Describes(chunks, parts);
    var pairs := |parts| / 2;
    PairsOverflow(parts, budget, pairs);
    WeightOfParts(parts);
    LoadsAreWeight(gs, to, m);
    LoadsBound(gs, to, m, budget);
    ProductIs(m, budget);
    ProductIs(pairs, budget + 1);
    FewerPairs(pairs, m, budget);
  }

  lemma FewerPairs(pairs: nat, m: nat, budget: nat)
    requires m > 0 && pairs * (budget + 1) <= m * budget
    ensures pairs < m
  {
    if pairs >= m { Scales(m, pairs, budget + 1); }
  }

  lemma Scales(a: nat, b: nat, q: nat)
    requires a <= b
    ensures a * q <= b * q
  {
  }
}

/** What leaving a chunk does to the disk and the store: publish its trees, then evict it. */
module ExecuteJob {
  import opened Options

  type Files = map<string, int>

  /** A chunk's directories: its raw source under a corpus directory of some name, and what was derived
      from it.  In the store the raw tree always goes under `corpus`. */
  datatype Dir = Raw(corpus: string) | Normalized | Work
  datatype Tree = RawTree | NormalizedTree | WorkTree

  /** How an upload goes: through, or raising after some of the files. */
  datatype Upload = Sent | Raised(some: set<string>)

  type Disk = map<Dir, Files>
  type Store = map<(Tree, string), int>

  /** The mount: whether it can publish at all, how large a content is, how each upload goes, and the
      path of each file. */
  datatype Mount = Mount(publishes: bool, size: int -> nat, upload: Tree -> Upload, path: (Dir, string) -> string)

  const SKIP_PATTERNS: seq<string> := [".zip", ".tgz", ".tar.gz", ".key", ".env", ".DS_Store", "__pycache__"]

  predicate Contains(s: string, part: string) { exists i :: 0 <= i <= |s| && IsAt(s, part, i) }

  predicate IsAt(s: string, part: string, i: nat) { i + |part| <= |s| && s[i..i + |part|] == part }

  /** What an upload never sends, without a word: a file with one of the patterns anywhere in its path. */
  predicate PassesOver(m: Mount, d: Dir, name: string) {
    exists part <- SKIP_PATTERNS :: Contains(m.path(d, name), part)
  }

  /** Archives, keys, env files and what the system leaves behind. */
  lemma PassedOverAre(m: Mount, d: Dir, name: string)
    ensures var path := m.path(d, name);
            PassesOver(m, d, name)
            <==> Contains(path, ".zip") || Contains(path, ".tgz") || Contains(path, ".tar.gz") || Contains(path, ".key")
                 || Contains(path, ".env") || Contains(path, ".DS_Store") || Contains(path, "__pycache__")
  {
    hide Contains;
    assert forall i :: 0 <= i < 7 ==> SKIP_PATTERNS[i] in SKIP_PATTERNS;
  }

  function TreeOf(d: Dir): Tree {
    match d
    case Raw(_) => RawTree
    case Normalized => NormalizedTree
    case Work => WorkTree
  }

  /** Only the raw tree skips what the store already has, by name and size. */
  predicate Skips(m: Mount, st: Store, t: Tree, name: string, content: int) {
    t.RawTree? && (t, name) in st && m.size(st[(t, name)]) == m.size(content)
  }

  predicate Goes(m: Mount, st: Store, d: Dir, files: Files, cell: (Tree, string)) {
    && m.publishes && cell.0 == TreeOf(d) && cell.1 in files && !PassesOver(m, d, cell.1)
    && (match m.upload(TreeOf(d)) case Sent => true case Raised(some) => cell.1 in some)
    && !Skips(m, st, TreeOf(d), cell.1, files[cell.1])
  }

  /** The store after one tree; a directory that is not there, or empty, is not an error. */
  function Published(m: Mount, disk: Disk, st: Store, d: Dir): Store {
    if d !in disk then st
    else st + (map name | name in disk[d] && Goes(m, st, d, disk[d], (TreeOf(d), name)) :: (TreeOf(d), name) := disk[d][name])
  }

  /** A mount that cannot publish raises at once; an upload only when there is something to send. */
  predicate Raises(m: Mount, disk: Disk, d: Dir) {
    !m.publishes || (d in disk && disk[d] != map[] && m.upload(TreeOf(d)).Raised?)
  }

  class Hooks {
    var disk: Disk
    var store: Store

    constructor (d: Disk, s: Store)
      ensures disk == d && store == s
    {
      disk, store := d, s;
    }

    /** `corpus` is the last part of the corpus root's path, when one is set.  It never raises. */
    method Leave(mount: Option<Mount>, corpus: Option<string>)
      modifies this
      ensures mount.None? || corpus.None? ==> disk == old(disk) && store == old(store)
      ensures mount.Some? && corpus.Some? ==>
                (disk, store) == Left(mount.value, old(disk), old(store), corpus.value)
    {
      if mount.None? || corpus.None? { return; }
      var trees := Trees(corpus.value);
      ghost var whole := AfterTrees(mount.value, disk, store, trees);
      for i := 0 to |trees|
        invariant disk == old(disk)
        invariant AfterTrees(mount.value, disk, store, trees[i..]) == whole
        invariant AnyRaises(mount.value, disk, trees[i..]) == AnyRaises(mount.value, disk, trees)
      {
        assert trees[i..][1..] == trees[i + 1..];
        store := Published(mount.value, disk, store, trees[i]);
        if Raises(mount.value, disk, trees[i]) { return; }
      }
      disk := disk - {Raw("corpus"), Normalized, Work};
    }
  }

  predicate AnyRaises(m: Mount, disk: Disk, trees: seq<Dir>) {
    trees != [] && (Raises(m, disk, trees[0]) || AnyRaises(m, disk, trees[1..]))
  }

  /** The trees one after the other, up to the first that raises. */
  function AfterTrees(m: Mount, disk: Disk, st: Store, trees: seq<Dir>): Store
    decreases |trees|
  {
    if trees == [] then st
    else
      var now := Published(m, disk, st, trees[0]);
      if Raises(m, disk, trees[0]) then now else AfterTrees(m, disk, now, trees[1..])
  }

  // -- nothing evicted before it is published ------------------------------------------------------

  /** The store has the file: the same content, or for the raw tree one of the same size. */
  predicate Held(m: Mount, st: Store, d: Dir, name: string, content: int) {
    && (TreeOf(d), name) in st
    && (if d.Raw? then m.size(st[(TreeOf(d), name)]) == m.size(content) else st[(TreeOf(d), name)] == content)
  }

  predicate HoldsAll(m: Mount, st: Store, d: Dir, files: Files) { forall name <- files :: Held(m, st, d, name, files[name]) }

  /** Every file that was on disk is still there, or held. */
  predicate NothingLost(m: Mount, before: Disk, after: Disk, st: Store) {
    forall d <- before :: d in after || HoldsAll(m, st, d, before[d])
  }

  lemma OthersStay(m: Mount, disk: Disk, st: Store, d: Dir, t: Tree, name: string)
    requires t != TreeOf(d)
    ensures (t, name) in Published(m, disk, st, d) <==> (t, name) in st
    ensures (t, name) in st ==> Published(m, disk, st, d)[(t, name)] == st[(t, name)]
  {
  }

  /** Whether a file of the i-th tree gets to be sent: its tree has its turn, and the upload comes to it. */
  predicate Reaches(m: Mount, disk: Disk, trees: seq<Dir>, i: nat, name: string)
    requires i < |trees|
  {
    && (forall j :: 0 <= j < i ==> !Raises(m, disk, trees[j]))
    && m.publishes && !PassesOver(m, trees[i], name)
    && (match m.upload(TreeOf(trees[i])) case Sent => true case Raised(some) => name in some)
  }

  lemma HeldByUpload(m: Mount, disk: Disk, st: Store, d: Dir, name: string)
    requires d in disk && name in disk[d]
    ensures Held(m, Published(m, disk, st, d), d, name, disk[d][name])
            <==> Reaches(m, disk, [d], 0, name) || Held(m, st, d, name, disk[d][name])
  {
    assert Goes(m, st, d, disk[d], (TreeOf(d), name))
        <==> Reaches(m, disk, [d], 0, name) && !Skips(m, st, TreeOf(d), name, disk[d][name]);
  }

  /** In the end the store holds a file if and only if it was sent or held before. */
  lemma {:induction false} HeldAfter(m: Mount, disk: Disk, st: Store, trees: seq<Dir>, i: nat, name: string)
    requires forall a, b :: 0 <= a < b < |trees| ==> TreeOf(trees[a]) != TreeOf(trees[b])
    requires i < |trees| && trees[i] in disk && name in disk[trees[i]]
    ensures Held(m, AfterTrees(m, disk, st, trees), trees[i], name, disk[trees[i]][name])
            <==> Reaches(m, disk, trees, i, name) || Held(m, st, trees[i], name, disk[trees[i]][name])
    decreases |trees|
  {
    var now := Published(m, disk, st, trees[0]);
    if i == 0 {
      HeldByUpload(m, disk, st, trees[0], name);
      if !Raises(m, disk, trees[0]) { TreeStays(m, disk, now, trees[1..], TreeOf(trees[0]), name); }
    } else {
      OthersStay(m, disk, st, trees[0], TreeOf(trees[i]), name);
      if !Raises(m, disk, trees[0]) {
        HeldAfter(m, disk, now, trees[1..], i - 1, name);
        assert forall j :: 0 < j < i ==> trees[1..][j - 1] == trees[j];
      }
    }
  }

  lemma {:induction false} TreeStays(m: Mount, disk: Disk, st: Store, trees: seq<Dir>, t: Tree, name: string)
    requires forall d <- trees :: TreeOf(d) != t
    ensures var end := AfterTrees(m, disk, st, trees);
            ((t, name) in end <==> (t, name) in st) && ((t, name) in st ==> end[(t, name)] == st[(t, name)])
    decreases |trees|
  {
    if trees != [] {
      OthersStay(m, disk, st, trees[0], t, name);
      TreeStays(m, disk, Published(m, disk, st, trees[0]), trees[1..], t, name);
    }
  }

  lemma {:induction false} NoneRaises(m: Mount, disk: Disk, trees: seq<Dir>)
    ensures AnyRaises(m, disk, trees) <==> exists d <- trees :: Raises(m, disk, d)
    decreases |trees|
  {
    if trees != [] {
      NoneRaises(m, disk, trees[1..]);
      assert trees == [trees[0]] + trees[1..];
    }
  }

  function Trees(corpus: string): seq<Dir> { [Raw(corpus), Normalized, Work] }

  /** The files of a tree that no upload sends were in the store all along. */
  predicate PassedOverHeld(m: Mount, disk: Disk, st: Store, d: Dir) {
    d in disk ==> forall name <- disk[d] :: PassesOver(m, d, name) ==> Held(m, st, d, name, disk[d][name])
  }

  /** With no upload raising, a tree is held at the end exactly when its passed over files were before. */
  lemma TreeHeld(m: Mount, disk: Disk, st: Store, corpus: string, i: nat)
    requires !AnyRaises(m, disk, Trees(corpus)) && i < 3 && Trees(corpus)[i] in disk
    ensures var d := Trees(corpus)[i];
            HoldsAll(m, AfterTrees(m, disk, st, Trees(corpus)), d, disk[d]) <==> PassedOverHeld(m, disk, st, d)
  {
    var d := Trees(corpus)[i];
    NoneRaises(m, disk, Trees(corpus));
    assert forall j :: 0 <= j < 3 ==> Trees(corpus)[j] in Trees(corpus);
    forall name | name in disk[d]
      ensures Held(m, AfterTrees(m, disk, st, Trees(corpus)), d, name, disk[d][name])
              <==> !PassesOver(m, d, name) || Held(m, st, d, name, disk[d][name])
    {
      HeldAfter(m, disk, st, Trees(corpus), i, name);
    }
  }

  /** What `Leave` does with a mount and a corpus root, on values. */
  function Left(m: Mount, disk: Disk, st: Store, corpus: string): (Disk, Store) {
    (if AnyRaises(m, disk, Trees(corpus)) then disk else disk - {Raw("corpus"), Normalized, Work},
     AfterTrees(m, disk, st, Trees(corpus)))
  }

  /** With a corpus root named `corpus`, leaving a chunk loses no file if and only if some publish raised,
      or every file an upload passes over was in the store already. */
  lemma LeavingLosesNothing(m: Mount, disk: Disk, st: Store)
    ensures var r := Left(m, disk, st, "corpus");
            NothingLost(m, disk, r.0, r.1)
            <==> AnyRaises(m, disk, Trees("corpus")) || forall d <- Trees("corpus") :: PassedOverHeld(m, disk, st, d)
  {
    var r := Left(m, disk, st, "corpus");
    if !AnyRaises(m, disk, Trees("corpus")) {
      forall d | d in disk ensures d in r.0 || HoldsAll(m, r.1, d, disk[d]) <==> PassedOverHeld(m, disk, st, d) || d !in Trees("corpus") {
        if d == Raw("corpus") { TreeHeld(m, disk, st, "corpus", 0); }
        if d == Normalized { TreeHeld(m, disk, st, "corpus", 1); }
        if d == Work { TreeHeld(m, disk, st, "corpus", 2); }
      }
    }
  }

  /** Files no upload sends are gone from the disk as well, and nowhere. */
  lemma PassedOverIsLost(m: Mount, files: Files)
    requires m.publishes && m.upload(RawTree).Sent? && forall name <- files :: PassesOver(m, Raw("corpus"), name)
    ensures Left(m, map[Raw("corpus") := files], map[], "corpus") == (map[], map[])
  {
    hide PassesOver, AfterTrees, AnyRaises;
    var disk: Disk := map[Raw("corpus") := files];
    assert Published(m, disk, map[], Raw("corpus")) == map[];
    NoneRaises(m, disk, Trees("corpus"));
    NothingElse(m, disk, map[], "corpus");
  }

  lemma ArchiveIsLost(content: int)
    ensures var m := Mount(true, x => 0, t => Sent, (d, name) => "/corpus/raw/a/" + name);
            Left(m, map[Raw("corpus") := map["a.tar.gz" := content]], map[], "corpus") == (map[], map[])
  {
    hide Left, Contains;
    var m := Mount(true, x => 0, t => Sent, (d, name) => "/corpus/raw/a/" + name);
    ArchivePath();
    assert PassesOver(m, Raw("corpus"), "a.tar.gz");
    PassedOverIsLost(m, map["a.tar.gz" := content]);
  }

  lemma ArchivePath()
    ensures ".tar.gz" in SKIP_PATTERNS && Contains("/corpus/raw/a/" + "a.tar.gz", ".tar.gz")
  {
    assert SKIP_PATTERNS[2] == ".tar.gz";
    var path := "/corpus/raw/a/" + "a.tar.gz";
    assert path[15..22] == ".tar.gz";
    assert IsAt(path, ".tar.gz", 15);
  }

  /** When there is nothing else on disk, the raw tree alone makes the store. */
  lemma NothingElse(m: Mount, disk: Disk, st: Store, corpus: string)
    requires Normalized !in disk && Work !in disk && m.publishes
    ensures AfterTrees(m, disk, st, Trees(corpus)) == Published(m, disk, st, Raw(corpus))
  {
    var now := Published(m, disk, st, Raw(corpus));
    assert Trees(corpus)[1..] == [Normalized, Work] && [Normalized, Work][1..] == [Work] && [Work][1..] == [];
    assert AfterTrees(m, disk, now, [Work]) == now;
    assert AfterTrees(m, disk, now, [Normalized, Work]) == now;
  }

  /** A publish that raises before it has sent anything leaves disk and store as they were. */
  lemma NothingSent(m: Mount, files: Files, st: Store, corpus: string)
    requires m.publishes && m.upload(WorkTree) == Raised({}) && files != map[]
    ensures Left(m, map[Work := files], st, corpus) == (map[Work := files], st)
  {
    var disk: Disk := map[Work := files];
    NoneRaises(m, disk, Trees(corpus));
    assert Trees(corpus)[2] == Work && Work in Trees(corpus);
    assert Trees(corpus)[1..] == [Normalized, Work] && [Normalized, Work][1..] == [Work];
    assert Published(m, disk, st, Work) == st;
    assert AfterTrees(m, disk, st, [Work]) == st;
    assert AfterTrees(m, disk, st, [Normalized, Work]) == st;
  }

  /** With another name the tree that is published and the tree that is evicted differ: a file beside it,
      in `corpus`, is lost unless a publish raised or one of that name went to the store. */
  lemma OtherNamesLoseFiles(m: Mount, disk: Disk, st: Store, corpus: string, name: string)
    requires corpus != "corpus" && Raw("corpus") in disk && name in disk[Raw("corpus")]
    requires (RawTree, name) !in st && !(Raw(corpus) in disk && name in disk[Raw(corpus)])
    ensures var r := Left(m, disk, st, corpus);
            NothingLost(m, disk, r.0, r.1) <==> AnyRaises(m, disk, Trees(corpus))
  {
    var r := Left(m, disk, st, corpus);
    if !AnyRaises(m, disk, Trees(corpus)) {
      var now := Published(m, disk, st, Raw(corpus));
      assert (RawTree, name) !in now;
      assert Trees(corpus)[1..] == [Normalized, Work];
      TreeStays(m, disk, now, Trees(corpus)[1..], RawTree, name);
      assert Raw("corpus") !in r.0;
      assert !Held(m, r.1, Raw("corpus"), name, disk[Raw("corpus")][name]);
    }
  }

  /** A file beside the corpus root has the size of the one of its name that is sent or, if none is, of the
      one the store has. */
  predicate NamesakeHeld(m: Mount, disk: Disk, st: Store, corpus: string, name: string)
    requires Raw("corpus") in disk && name in disk[Raw("corpus")]
  {
    if Raw(corpus) in disk && name in disk[Raw(corpus)] && !PassesOver(m, Raw(corpus), name) then
      m.size(disk[Raw(corpus)][name]) == m.size(disk[Raw("corpus")][name])
    else Held(m, st, Raw("corpus"), name, disk[Raw("corpus")][name])
  }

  predicate SiblingHeld(m: Mount, disk: Disk, st: Store, corpus: string) {
    Raw("corpus") in disk ==> forall name <- disk[Raw("corpus")] :: NamesakeHeld(m, disk, st, corpus, name)
  }

  lemma NamesakeAfter(m: Mount, disk: Disk, st: Store, corpus: string, name: string)
    requires !Raises(m, disk, Raw(corpus)) && Raw("corpus") in disk && name in disk[Raw("corpus")]
    ensures Held(m, Published(m, disk, st, Raw(corpus)), Raw("corpus"), name, disk[Raw("corpus")][name])
            <==> NamesakeHeld(m, disk, st, corpus, name)
  {
    hide PassesOver;
  }

  lemma SiblingAfter(m: Mount, disk: Disk, st: Store, corpus: string)
    requires !AnyRaises(m, disk, Trees(corpus)) && Raw("corpus") in disk
    ensures HoldsAll(m, AfterTrees(m, disk, st, Trees(corpus)), Raw("corpus"), disk[Raw("corpus")])
            <==> SiblingHeld(m, disk, st, corpus)
  {
    var now, end := Published(m, disk, st, Raw(corpus)), AfterTrees(m, disk, st, Trees(corpus));
    assert Trees(corpus)[1..] == [Normalized, Work];
    assert !Raises(m, disk, Raw(corpus)) && end == AfterTrees(m, disk, now, Trees(corpus)[1..]);
    hide NamesakeHeld, AfterTrees, AnyRaises, Raises, Published;
    forall name | name in disk[Raw("corpus")]
      ensures Held(m, end, Raw("corpus"), name, disk[Raw("corpus")][name]) <==> NamesakeHeld(m, disk, st, corpus, name)
    {
      TreeStays(m, disk, now, Trees(corpus)[1..], RawTree, name);
      NamesakeAfter(m, disk, st, corpus, name);
    }
  }

  /** A whole leave with a corpus root of another name loses nothing if and only if some publish raised, or the
      sibling's files are held through their namesakes and what else is evicted as ever. */
  lemma OtherNamesLose(m: Mount, disk: Disk, st: Store, corpus: string)
    requires corpus != "corpus"
    ensures var r := Left(m, disk, st, corpus);
            NothingLost(m, disk, r.0, r.1)
            <==> AnyRaises(m, disk, Trees(corpus))
                 || (SiblingHeld(m, disk, st, corpus) && PassedOverHeld(m, disk, st, Normalized) && PassedOverHeld(m, disk, st, Work))
  {
    hide HoldsAll, AnyRaises, SiblingHeld, PassedOverHeld, AfterTrees;
    var r := Left(m, disk, st, corpus);
    if !AnyRaises(m, disk, Trees(corpus)) {
      if Raw("corpus") in disk { SiblingAfter(m, disk, st, corpus); }
      if Normalized in disk { TreeHeld(m, disk, st, corpus, 1); }
      if Work in disk { TreeHeld(m, disk, st, corpus, 2); }
      NothingThereHeld(m, disk, st, corpus);
      assert forall d <- disk :: d in r.0 <==> d != Raw("corpus") && d != Normalized && d != Work;
    }
  }

  lemma NothingThereHeld(m: Mount, disk: Disk, st: Store, corpus: string)
    ensures Raw("corpus") !in disk ==> SiblingHeld(m, disk, st, corpus)
    ensures forall d :: d !in disk ==> PassedOverHeld(m, disk, st, d)
  {
  }

  // -- what is held afterwards ------------------------------------------------------------------------

  /** Every file of the chunk's trees is in the store. */
  predicate AllHeld(m: Mount, disk: Disk, st: Store, corpus: string) {
    forall d <- Trees(corpus) :: d in disk ==> HoldsAll(m, st, d, disk[d])
  }

  predicate AllSent(m: Mount, disk: Disk, st: Store, corpus: string) {
    forall i :: 0 <= i < 3 ==> SentOrHeld(m, disk, st, corpus, i)
  }

  predicate SentOrHeld(m: Mount, disk: Disk, st: Store, corpus: string, i: nat)
    requires i < 3
  {
    var d := Trees(corpus)[i];
    d in disk ==>
      forall name <- disk[d] :: Reaches(m, disk, Trees(corpus), i, name) || Held(m, st, d, name, disk[d][name])
  }

  /** A publish that raises has left a file of its tree behind. */
  predicate RaiseLeavesBehind(m: Mount, disk: Disk, st: Store, corpus: string) {
    forall i :: 0 <= i < 3 && Raises(m, disk, Trees(corpus)[i]) ==> !SentOrHeld(m, disk, st, corpus, i)
  }

  lemma HeldIsSent(m: Mount, disk: Disk, st: Store, corpus: string)
    ensures var end := Left(m, disk, st, corpus).1;
            && (AllHeld(m, disk, end, corpus) <==> AllSent(m, disk, st, corpus))
            && (RaiseLeavesBehind(m, disk, st, corpus) ==>
                  (AllHeld(m, disk, end, corpus)
                   <==> !AnyRaises(m, disk, Trees(corpus)) && forall d <- Trees(corpus) :: PassedOverHeld(m, disk, st, d)))
  {
    var end := Left(m, disk, st, corpus).1;
    forall i | 0 <= i < 3
      ensures (Trees(corpus)[i] in disk ==> HoldsAll(m, end, Trees(corpus)[i], disk[Trees(corpus)[i]]))
              <==> SentOrHeld(m, disk, st, corpus, i)
    {
      TreeSent(m, disk, st, corpus, i);
    }
    assert AllHeld(m, disk, end, corpus) <==> AllSent(m, disk, st, corpus) by {
      assert forall i :: 0 <= i < 3 ==> Trees(corpus)[i] in Trees(corpus);
    }
    SentWhenNoneRaises(m, disk, st, corpus);
  }

  lemma TreeSent(m: Mount, disk: Disk, st: Store, corpus: string, i: nat)
    requires i < 3
    ensures var d := Trees(corpus)[i];
            (d in disk ==> HoldsAll(m, AfterTrees(m, disk, st, Trees(corpus)), d, disk[d]))
            <==> SentOrHeld(m, disk, st, corpus, i)
  {
    var d := Trees(corpus)[i];
    if d in disk {
      forall name | name in disk[d]
        ensures Held(m, AfterTrees(m, disk, st, Trees(corpus)), d, name, disk[d][name])
                <==> Reaches(m, disk, Trees(corpus), i, name) || Held(m, st, d, name, disk[d][name])
      {
        HeldAfter(m, disk, st, Trees(corpus), i, name);
      }
    }
  }

  lemma SentWhenNoneRaises(m: Mount, disk: Disk, st: Store, corpus: string)
    ensures RaiseLeavesBehind(m, disk, st, corpus) ==>
              (AllSent(m, disk, st, corpus)
               <==> !AnyRaises(m, disk, Trees(corpus)) && forall d <- Trees(corpus) :: PassedOverHeld(m, disk, st, d))
  {
    NoneRaises(m, disk, Trees(corpus));
    assert forall i :: 0 <= i < 3 ==> Trees(corpus)[i] in Trees(corpus);
    if !AnyRaises(m, disk, Trees(corpus)) {
      forall i | 0 <= i < 3 ensures SentOrHeld(m, disk, st, corpus, i) <==> PassedOverHeld(m, disk, st, Trees(corpus)[i]) {
        SentUnlessPassed(m, disk, st, corpus, i);
      }
    }
  }

  lemma SentUnlessPassed(m: Mount, disk: Disk, st: Store, corpus: string, i: nat)
    requires i < 3 && forall d <- Trees(corpus) :: !Raises(m, disk, d)
    ensures SentOrHeld(m, disk, st, corpus, i) <==> PassedOverHeld(m, disk, st, Trees(corpus)[i])
  {
    var d := Trees(corpus)[i];
    assert forall j :: 0 <= j < 3 ==> Trees(corpus)[j] in Trees(corpus);
    if d in disk {
      forall name | name in disk[d] ensures Reaches(m, disk, Trees(corpus), i, name) <==> !PassesOver(m, d, name) { }
    }
  }
}

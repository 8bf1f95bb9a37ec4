/** What a stream of frames means (section 5.4 of RFC 6455), and what the client makes of it. */
module Messages {
  import opened Options
  import opened Frames

  /** What receiving can cause: a text message handed to the caller, a pong, the end. */
  datatype Happening = Text(text: Bytes) | Pong(payload: Bytes) | Closed

  const CONTINUATION: bv8 := 0
  const TEXT: bv8 := 1
  const BINARY: bv8 := 2
  const CLOSE: bv8 := 8
  const PING: bv8 := 9
  const PONG: bv8 := 10

  // -- the client's reading ------------------------------------------------------------------

  predicate IsText(f: Frame) { f.op == TEXT || f.op == CONTINUATION }

  function Immediate(f: Frame, frags: Bytes): seq<Happening> {
    if f.op == CLOSE then [Closed]
    else if f.op == PING then [Pong(f.payload)]
    else if IsText(f) && f.fin then [Text(frags + f.payload)]
    else []
  }

  function FragsAfter(f: Frame, frags: Bytes): Bytes {
    if !IsText(f) then frags else if f.fin then [] else frags + f.payload
  }

  /** Everything a list of frames causes, given the fragments already collected. */
  function Fold(fs: seq<Frame>, frags: Bytes): seq<Happening> {
    if fs == [] then []
    else if fs[0].op == CLOSE then [Closed]
    else Immediate(fs[0], frags) + Fold(fs[1..], FragsAfter(fs[0], frags))
  }

  /** Everything the whole frames in a buffer cause. */
  function Deliveries(b: Bytes, frags: Bytes): seq<Happening>
    decreases |b|
  {
    match Parse(b)
    case None => []
    case Some((f, n)) =>
      if f.op == CLOSE then [Closed] else Immediate(f, frags) + Deliveries(b[n..], FragsAfter(f, frags))
  }

  // -- the layout of many frames ------------------------------------------------------------

  predicate AllLayable(fs: seq<Frame>, ws: seq<Wire>) {
    |fs| == |ws| && forall k :: 0 <= k < |fs| ==> Layable(fs[k], ws[k])
  }

  function Stream(fs: seq<Frame>, ws: seq<Wire>): Bytes
    requires AllLayable(fs, ws)
  {
    if fs == [] then [] else Layout(fs[0], ws[0]) + Stream(fs[1..], ws[1..])
  }

  /** Frames laid out one after the other, with a frame cut short behind them, cause what the frames mean. */
  lemma {:induction false} StreamDelivers(fs: seq<Frame>, ws: seq<Wire>, tail: Bytes, frags: Bytes)
    requires AllLayable(fs, ws) && Parse(tail).None?
    ensures Deliveries(Stream(fs, ws) + tail, frags) == Fold(fs, frags)
    decreases |fs|
  {
    if fs == [] {
      assert Stream(fs, ws) + tail == tail;
    } else {
      var rest := Stream(fs[1..], ws[1..]) + tail;
      assert Stream(fs, ws) + tail == Layout(fs[0], ws[0]) + rest;
      ParseLayout(fs[0], ws[0], rest);
      StreamDelivers(fs[1..], ws[1..], tail, FragsAfter(fs[0], frags));
    }
  }

  // -- the reading of the standard ---------------------------------------------------------------

  /** The message a receiver is in the middle of. */
  datatype Progress = Between | InText(sofar: Bytes) | InBinary

  /** Fragments follow a first frame, no message starts inside another, control frames are whole. */
  predicate WellFormed(fs: seq<Frame>, at: Progress) {
    fs == [] ||
    var f := fs[0];
    if f.op == CLOSE || f.op == PING || f.op == PONG then f.fin && WellFormed(fs[1..], at)
    else
      && (f.op == CONTINUATION || f.op == TEXT || f.op == BINARY)
      && (f.op == CONTINUATION <==> !at.Between?)
      && WellFormed(fs[1..], Next(f, at))
  }

  function Next(f: Frame, at: Progress): Progress {
    if f.op == CLOSE || f.op == PING || f.op == PONG then at
    else if f.fin then Between
    else if f.op == TEXT then InText(f.payload)
    else if f.op == BINARY then InBinary
    else if at.InText? then InText(at.sofar + f.payload)
    else at
  }

  /** Each text message once, whole; a pong per ping; binary messages are not for the caller. */
  function Reference(fs: seq<Frame>, at: Progress): seq<Happening> {
    if fs == [] then []
    else if fs[0].op == CLOSE then [Closed]
    else Meant(fs[0], at) + Reference(fs[1..], Next(fs[0], at))
  }

  function Meant(f: Frame, at: Progress): seq<Happening> {
    if f.op == PING then [Pong(f.payload)]
    else if f.op == TEXT && f.fin then [Text(f.payload)]
    else if f.op == CONTINUATION && f.fin && at.InText? then [Text(at.sofar + f.payload)]
    else []
  }

  /** How many binary messages sent in fragments come to their end. */
  function FragmentedBinaries(fs: seq<Frame>, at: Progress): nat {
    if fs == [] || fs[0].op == CLOSE then 0
    else (if fs[0].op == CONTINUATION && fs[0].fin && at.InBinary? then 1 else 0)
         + FragmentedBinaries(fs[1..], Next(fs[0], at))
  }

  function TextCount(hs: seq<Happening>): nat {
    if hs == [] then 0 else (if hs[0].Text? then 1 else 0) + TextCount(hs[1..])
  }

  /** What the client has collected, when the message in progress is a text. */
  predicate Collected(frags: Bytes, at: Progress) {
    match at case Between => frags == [] case InText(sofar) => frags == sofar case InBinary => true
  }

  lemma {:induction false} FoldMeetsReference(fs: seq<Frame>, frags: Bytes, at: Progress)
    requires WellFormed(fs, at) && Collected(frags, at) && FragmentedBinaries(fs, at) == 0
    ensures Fold(fs, frags) == Reference(fs, at)
    decreases |fs|
  {
    if fs != [] && fs[0].op != CLOSE {
      if at.Between? { assert frags + fs[0].payload == fs[0].payload; }
      FoldMeetsReference(fs[1..], FragsAfter(fs[0], frags), Next(fs[0], at));
    }
  }

  lemma {:induction false} FoldCounts(fs: seq<Frame>, frags: Bytes, at: Progress)
    requires WellFormed(fs, at)
    ensures TextCount(Fold(fs, frags)) == TextCount(Reference(fs, at)) + FragmentedBinaries(fs, at)
    decreases |fs|
  {
    if fs != [] && fs[0].op != CLOSE {
      var f := fs[0];
      FoldCounts(fs[1..], FragsAfter(f, frags), Next(f, at));
      CountOfParts(Immediate(f, frags), Fold(fs[1..], FragsAfter(f, frags)));
      CountOfParts(Meant(f, at), Reference(fs[1..], Next(f, at)));
    }
  }

  lemma {:induction false} CountOfParts(a: seq<Happening>, b: seq<Happening>)
    ensures TextCount(a + b) == TextCount(a) + TextCount(b)
    decreases |a|
  {
    if a == [] {
      assert a + b == b;
    } else {
      CountOfParts(a[1..], b);
      assert (a + b)[1..] == a[1..] + b;
    }
  }

  /** The client delivers exactly the messages of a well-formed stream, whatever the layout of its
      frames and with any frame cut short at its end, if and only if no binary message that came in
      fragments is completed in it: the last fragment of one is taken for the end of a text. */
  lemma DeliversMessages(fs: seq<Frame>, ws: seq<Wire>, tail: Bytes)
    requires AllLayable(fs, ws) && Parse(tail).None? && WellFormed(fs, Between)
    ensures Deliveries(Stream(fs, ws) + tail, []) == Reference(fs, Between) <==> FragmentedBinaries(fs, Between) == 0
  {
    StreamDelivers(fs, ws, tail, []);
    FoldCounts(fs, [], Between);
    if FragmentedBinaries(fs, Between) == 0 { FoldMeetsReference(fs, [], Between); }
  }

  /** The opcodes of section 5.2: 0 and 1 carry text on, 8 ends, 9 asks for a pong, and all else is passed over. */
  lemma OpcodesMean(f: Frame, frags: Bytes)
    ensures Immediate(f, frags) == match f.op
                                   case 0 => if f.fin then [Text(frags + f.payload)] else []
                                   case 1 => if f.fin then [Text(frags + f.payload)] else []
                                   case 8 => [Closed]
                                   case 9 => [Pong(f.payload)]
                                   case _ => []
    ensures FragsAfter(f, frags) == if f.op > 1 then frags else if f.fin then [] else frags + f.payload
  {
  }

  function BinaryThenText(a: Bytes, b: Bytes, c: Bytes): seq<Frame> {
    [Frame(false, BINARY, a), Frame(true, CONTINUATION, b), Frame(true, TEXT, c)]
  }

  /** Two texts for one: a binary message in two fragments and a text behind it. */
  lemma BinaryTakenForText(a: Bytes, b: Bytes, c: Bytes, ws: seq<Wire>, tail: Bytes)
    requires AllLayable(BinaryThenText(a, b, c), ws) && Parse(tail).None?
    ensures WellFormed(BinaryThenText(a, b, c), Between) && FragmentedBinaries(BinaryThenText(a, b, c), Between) == 1
    ensures Deliveries(Stream(BinaryThenText(a, b, c), ws) + tail, []) == [Text(b), Text(c)]
    ensures Reference(BinaryThenText(a, b, c), Between) == [Text(c)]
  {
    StreamDelivers(BinaryThenText(a, b, c), ws, tail, []);
    ReadBothWays(a, b, c);
  }

  lemma ReadBothWays(a: Bytes, b: Bytes, c: Bytes)
    ensures WellFormed(BinaryThenText(a, b, c), Between) && FragmentedBinaries(BinaryThenText(a, b, c), Between) == 1
    ensures Fold(BinaryThenText(a, b, c), []) == [Text(b), Text(c)]
    ensures Reference(BinaryThenText(a, b, c), Between) == [Text(c)]
  {
    var fs, last := BinaryThenText(a, b, c), [Frame(true, TEXT, c)];
    var two := [Frame(true, CONTINUATION, b)] + last;
    assert last[1..] == [] && two[1..] == last && fs[1..] == two;
    assert [] + b == b && [] + c == c;
    assert Fold(last[1..], []) == [] && Reference(last[1..], Between) == [];
    assert Next(last[0], Between) == Between && Meant(last[0], Between) == [Text(c)];
    assert Fold(last, []) == [Text(c)];
    assert Reference(last, Between) == [Text(c)];
    assert Fold(two, []) == [Text(b)] + Fold(last, []) && Reference(two, InBinary) == Reference(last, Between);
    assert WellFormed(last, Between) && WellFormed(two, InBinary);
    assert FragmentedBinaries(last, Between) == 0 && FragmentedBinaries(two, InBinary) == 1;
    assert Next(fs[0], Between) == InBinary;
  }
}

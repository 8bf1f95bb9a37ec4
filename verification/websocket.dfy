/** The client's WebSocket: an incremental decoder over whatever pieces the socket yields, and the
    loop that answers pings and collects a message. */
module WebSocket {
  import opened Options
  import opened Frames
  import opened Octets
  import opened Messages
  import Bits

  /** What one read of the socket gives: bytes, nothing in time, or the end of the stream. */
  datatype Read = Data(bytes: Bytes) | TimedOut | Eof

  /** What recv answers: a message, None, or ConnectionError (on a close frame, or a stream that ended). */
  datatype Received = Message(text: Bytes) | Nothing | ConnectionClosed | ConnectionLost

  /** The bytes that arrive in a list of reads. */
  function Arrived(pieces: seq<Read>): Bytes {
    if pieces == [] then [] else Arrived(pieces[..|pieces| - 1]) + Brought(pieces[|pieces| - 1])
  }

  function Brought(r: Read): Bytes { if r.Data? then r.bytes else [] }

  /** What one call of recv caused: a pong per payload answered, then its result. */
  function Caused(answered: seq<Bytes>, r: Received): seq<Happening> {
    Pongs(answered) + match r case Message(m) => [Text(m)] case ConnectionClosed => [Closed] case _ => []
  }

  function Pongs(answered: seq<Bytes>): seq<Happening> {
    seq(|answered|, k requires 0 <= k < |answered| => Pong(answered[k]))
  }

  /** Receiving went from one state to another, taking in `got` and causing `caused`: nothing that the
      stream holds is lost, repeated or reordered, however it goes on. */
  ghost predicate Conserves(buf: Bytes, frags: Bytes, got: Bytes, caused: seq<Happening>, buf': Bytes, frags': Bytes) {
    ConservesIn(Deliveries, buf, frags, got, caused, buf', frags')
  }

  /** The same for any reading of a stream. */
  ghost predicate ConservesIn(
    reading: Reading, buf: Bytes, frags: Bytes, got: Bytes, caused: seq<Happening>, buf': Bytes, frags': Bytes)
  {
    forall more: Bytes :: ConservesWith(reading, buf, frags, got, caused, buf', frags', more)
  }

  type Reading = (Bytes, Bytes) -> seq<Happening>

  predicate ConservesWith(reading: Reading, buf: Bytes, frags: Bytes, got: Bytes, caused: seq<Happening>,
                          buf': Bytes, frags': Bytes, more: Bytes)
  {
    reading(buf + got + more, frags) == caused + reading(buf' + more, frags')
  }

  /** The same for a call that ended on a close frame: nothing behind it is looked at. */
  ghost predicate Ends(buf: Bytes, frags: Bytes, got: Bytes, caused: seq<Happening>) {
    forall more: Bytes :: EndsWith(buf, frags, got, caused, more)
  }

  predicate EndsWith(buf: Bytes, frags: Bytes, got: Bytes, caused: seq<Happening>, more: Bytes) {
    Deliveries(buf + got + more, frags) == caused
  }

  class Client {
    var buf: Bytes
    var frags: Bytes
    var sent: seq<Bytes>              // each sendall, in order
    const urandom: nat -> Bytes
    var drawn: nat

    ghost predicate Valid() reads this { forall k :: |urandom(k)| == 4 }

    /** After the handshake, with what was read behind its headers. */
    constructor (leftover: Bytes, urandom: nat -> Bytes)
      requires forall k :: |urandom(k)| == 4
      ensures Valid() && buf == leftover && frags == [] && sent == []
    {
      buf, frags, sent, drawn := leftover, [], [], 0;
      this.urandom := urandom;
    }

    /** The next whole frame of the buffer, taken out of it; None, and nothing taken, when there is none. */
    method NextFrame() returns (r: Option<Frame>)
      requires Valid()
      modifies this`buf
      ensures match Parse(old(buf))
              case None => r == None && buf == old(buf)
              case Some((f, n)) => r == Some(f) && buf == old(buf)[n..]
      ensures r.Some? ==> OnTheWire(old(buf), r.value, |old(buf)| - |buf|)
      ensures r.None? ==> forall f: Frame, n: nat :: !OnTheWire(old(buf), f, n)
    {
      var got := Decode(buf);
      TakenFromTheWire(buf);
      hide Parse, OnTheWire;
      if got.None? { return None; }
      buf := buf[got.value.1..];
      return Some(got.value.0);
    }

    static method Decode(b: Bytes) returns (r: Option<(Frame, nat)>)
      ensures r == Parse(b)
    {
      hide ToNat, High, Opcode, Code, ExtendedLength, PayloadLength;
      var head := Header(b);
      if head.None? { return None; }
      var (ln, i) := head.value;
      var mask: Bytes := [];
      if High(b[1]) {
        if |b| < i + 4 { return None; }
        mask, i := b[i..i + 4], i + 4;
      }
      if |b| < i + ln { return None; }
      var data := b[i..i + ln];
      if mask != [] { data := Masked(data, mask); }
      return Some((Frame(High(b[0]), Opcode(b[0]), data), i + ln));
    }

    /** The length of the payload and where what follows it begins, when the buffer has that much. */
    static method Header(b: Bytes) returns (r: Option<(nat, nat)>)
      ensures r.None? <==> |b| < 2 || |b| < 2 + ExtendedLength(Code(b[1]))
      ensures r.Some? ==> var i := 2 + ExtendedLength(Code(b[1])); r.value == (PayloadLength(Code(b[1]), b[2..i]), i)
    {
      if |b| < 2 { return None; }
      var ln, i := Code(b[1]), 2;
      if ln == 126 {
        if |b| < 4 { return None; }
        ln, i := ToNat(b[2..4]), 4;
      } else if ln == 127 {
        if |b| < 10 { return None; }
        ln, i := ToNat(b[2..10]), 10;
      }
      return Some((ln, i));
    }

    /** Sends one masked, unfragmented frame in the shortest layout. */
    method Send(op: bv8, data: Bytes)
      requires Valid() && op < 16 && |data| < Pow256(8)
      modifies this`sent, this`drawn
      ensures |sent| == |old(sent)| + 1 && sent[..|old(sent)|] == old(sent)
      ensures SendsFrame(sent[|old(sent)|], op, data)
    {
      var mask := urandom(drawn);
      drawn := drawn + 1;
      var n := |data|;
      var head := [0x80 | op];
      if n < 126 {
        head := head + [SecondByte(true, n)];
      } else if n < Pow256(2) {
        head := head + ([SecondByte(true, 126)] + FromNat(n, 2));
      } else {
        head := head + ([SecondByte(true, 127)] + FromNat(n, 8));
      }
      assert head == [0x80 | op] + ShortestHead(n);
      ShortestSends(op, data, mask);
      FirstByteSent(op);
      sent := sent + [head + mask + Masked(data, mask)];
    }

    /** What a frame other than a close does: a pong, or more of a message, or all of one. */
    method OnFrame(f: Frame) returns (text: Option<Bytes>, ghost pongs: seq<Bytes>)
      requires Valid() && f.op != CLOSE && |f.payload| < Pow256(8)
      modifies this`frags, this`sent, this`drawn
      ensures frags == FragsAfter(f, old(frags))
      ensures Immediate(f, old(frags)) == Caused(pongs, if text.Some? then Message(text.value) else Nothing)
      ensures PongsSent(old(sent), sent, pongs)
    {
      text, pongs := None, [];
      if f.op == PING {
        Send(PONG, f.payload);
        pongs := [f.payload];
      } else if IsText(f) {
        frags := frags + f.payload;
        if f.fin {
          text := Some(frags);
          frags := [];
        }
      }
    }

    /** One read of the socket; the answer of recv when it ends there. */
    method OnRead(piece: Read) returns (r: Option<Received>)
      modifies this`buf
      ensures buf == old(buf) + Brought(piece)
      ensures r == if piece.TimedOut? then Some(Nothing)
                   else if piece.Eof? || piece == Data([]) then Some(ConnectionLost) else None
    {
      match piece
      case TimedOut => r := Some(Nothing);
      case Eof => r := Some(ConnectionLost);
      case Data(bytes) =>
        r := if bytes == [] then Some(ConnectionLost) else None;
        buf := buf + bytes;
    }

    /** The next text message; None when none came in time.  Pings are answered on the way. */
    method Recv(pieces: seq<Read>) returns (r: Received, used: nat, ghost answered: seq<Bytes>)
      requires Valid()
      modifies this`buf, this`frags, this`sent, this`drawn
      ensures used <= |pieces|
      ensures if r.ConnectionClosed? then Ends(old(buf), old(frags), Arrived(pieces[..used]), Caused(answered, r))
              else Conserves(old(buf), old(frags), Arrived(pieces[..used]), Caused(answered, r), buf, frags)
      ensures r.Nothing? ==> Parse(buf).None? && (used == |pieces| || (used > 0 && pieces[used - 1].TimedOut?))
      ensures r.ConnectionLost? ==> used > 0 && (pieces[used - 1].Eof? || pieces[used - 1] == Data([]))
      ensures forall k :: 0 <= k < used ==>
                || (pieces[k].Data? && pieces[k].bytes != [])
                || (k == used - 1 && if pieces[k].TimedOut? then r.Nothing? else r.ConnectionLost?)
      ensures PongsSent(old(sent), sent, answered)
    {
      hide ConservesIn, Ends, Deliveries, Parse, FragsAfter, Immediate;
      used, answered := 0, [];
      ConserveNothing(Deliveries, buf, frags);
      assert Pongs([]) == [];
      while true
        invariant used <= |pieces| && forall k :: 0 <= k < used ==> pieces[k].Data? && pieces[k].bytes != []
        invariant Conserves(old(buf), old(frags), Arrived(pieces[..used]), Pongs(answered), buf, frags)
        invariant PongsSent(old(sent), sent, answered)
        decreases |pieces| - used, |buf|
      {
        ghost var b, fr, got := buf, frags, Arrived(pieces[..used]);
        var frame := NextFrame();
        if frame.Some? {
          var f := frame.value;
          if f.op == CLOSE {
            EndsHere(old(buf), old(frags), got, Pongs(answered), b, fr);
            return ConnectionClosed, used, answered;
          }
          ConserveFrame(old(buf), old(frags), got, Pongs(answered), b, fr);
          PayloadBound(b);
          ghost var before := sent;
          var text;
          ghost var pongs;
          text, pongs := OnFrame(f);
          MorePongs(old(sent), before, answered, sent, pongs);
          answered := answered + pongs;
          if text.Some? { return Message(text.value), used, answered; }
        } else {
          if used == |pieces| {
            assert Caused(answered, Nothing) == Pongs(answered);
            return Nothing, used, answered;
          }
          assert pieces[..used + 1][..used] == pieces[..used];
          used := used + 1;
          ConserveBytes(Deliveries, old(buf), old(frags), got, Pongs(answered), buf, frags, Brought(pieces[used - 1]));
          var end := OnRead(pieces[used - 1]);
          if end.Some? {
            assert buf == b && Caused(answered, end.value) == Pongs(answered);
            return end.value, used, answered;
          }
        }
      }
    }
  }

  lemma TakenFromTheWire(b: Bytes)
    ensures match Parse(b)
            case None => forall f: Frame, n: nat :: !OnTheWire(b, f, n)
            case Some((f, n)) => 0 <= n <= |b| && OnTheWire(b, f, n)
  {
    hide Parse, OnTheWire;
    forall f: Frame, n: nat ensures Parse(b) == Some((f, n)) <==> OnTheWire(b, f, n) { DecodedIsOnTheWire(b, f, n); }
  }

  function ShortestHead(n: nat): Bytes
    requires n < Pow256(8)
  {
    if n < 126 then [SecondByte(true, n)]
    else if n < Pow256(2) then [SecondByte(true, 126)] + FromNat(n, 2)
    else [SecondByte(true, 127)] + FromNat(n, 8)
  }

  function ShortestForm(n: nat): LengthForm { if n < 126 then Short else if n < Pow256(2) then Medium else Long }

  lemma ShortestSends(op: bv8, data: Bytes, mask: Bytes)
    requires op < 16 && |mask| == 4 && |data| < Pow256(8)
    ensures SendsFrame([FirstByte(true, 0, op)] + ShortestHead(|data|) + mask + Masked(data, mask), op, data)
  {
    var w := Wire(0, ShortestForm(|data|), mask);
    var b := Layout(Frame(true, op, data), w);
    ParseLayout(Frame(true, op, data), w, []);
    assert b + [] == b;
    ShortestLayout(op, data, w);
    SecondByteRead(true, LengthCode(|data|, w.form));
    FirstByteSent(op);
    hide Parse, Layout, ShortestHead, SendsFrame;
    SentOnTheWire(b, op, data);
  }

  lemma ShortestLayout(op: bv8, data: Bytes, w: Wire)
    requires op < 16 && |data| < Pow256(8) && |w.mask| == 4 && w == Wire(0, ShortestForm(|data|), w.mask)
    ensures var b := Layout(Frame(true, op, data), w);
            && b == [FirstByte(true, 0, op)] + ShortestHead(|data|) + w.mask + Masked(data, w.mask)
            && |b| == |ShortestHead(|data|)| + |data| + 5
            && b[1] == SecondByte(true, LengthCode(|data|, w.form))
  {
    var n := |data|;
    assert [FirstByte(true, 0, op)] + ShortestHead(n) ==
           [FirstByte(true, 0, op), SecondByte(true, LengthCode(n, w.form))] + LengthBytes(n, w.form);
  }

  lemma SentOnTheWire(b: Bytes, op: bv8, data: Bytes)
    requires |data| < Pow256(8) && |b| == |ShortestHead(|data|)| + |data| + 5
    requires Parse(b) == Some((Frame(true, op, data), |b|)) && b[0] == 0x80 | op && High(b[1])
    ensures SendsFrame(b, op, data)
  {
    hide Parse, OnTheWire, Pow256;
    DecodedIsOnTheWire(b, Frame(true, op, data), |b|);
    HighOctet(b[1]);
    TwoTo16();
    KeyedBack(b, Frame(true, op, data));
  }

  lemma TwoTo16()
    ensures Pow256(2) == 0x10000
  {
    assert Pow256(1) == 256;
  }

  lemma FirstByteSent(op: bv8)
    ensures FirstByte(true, 0, op) == 0x80 | op
  {
  }

  lemma PayloadBound(b: Bytes)
    requires Parse(b).Some?
    ensures |Parse(b).value.0.payload| < Pow256(8)
  {
    ParseSound(b);
  }

  lemma Regroup(a: Bytes, b: Bytes, c: Bytes, d: Bytes)
    ensures a + (b + c) + d == a + b + (c + d)
  {
  }

  lemma ConserveNothing(reading: Reading, buf: Bytes, frags: Bytes)
    ensures ConservesIn(reading, buf, frags, [], [], buf, frags)
  {
    forall more: Bytes ensures ConservesWith(reading, buf, frags, [], [], buf, frags, more) {
      assert buf + [] + more == buf + more;
    }
  }

  lemma ConserveBytes(
    reading: Reading, b0: Bytes, f0: Bytes, got: Bytes, c: seq<Happening>, buf: Bytes, frags: Bytes, x: Bytes)
    requires ConservesIn(reading, b0, f0, got, c, buf, frags)
    ensures ConservesIn(reading, b0, f0, got + x, c, buf + x, frags)
  {
    forall more: Bytes ensures ConservesWith(reading, b0, f0, got + x, c, buf + x, frags, more) {
      assert ConservesWith(reading, b0, f0, got, c, buf, frags, x + more);
      Regroup(b0, got, x, more);
      assert buf + x + more == buf + (x + more);
    }
  }

  lemma ConserveBoth(reading: Reading, b0: Bytes, f0: Bytes, g0: Bytes, c0: seq<Happening>, b1: Bytes, f1: Bytes,
                     g1: Bytes, c1: seq<Happening>, b2: Bytes, f2: Bytes)
    requires ConservesIn(reading, b0, f0, g0, c0, b1, f1) && ConservesIn(reading, b1, f1, g1, c1, b2, f2)
    ensures ConservesIn(reading, b0, f0, g0 + g1, c0 + c1, b2, f2)
  {
    forall more: Bytes ensures ConservesWith(reading, b0, f0, g0 + g1, c0 + c1, b2, f2, more) {
      assert ConservesWith(reading, b0, f0, g0, c0, b1, f1, g1 + more);
      assert ConservesWith(reading, b1, f1, g1, c1, b2, f2, more);
      Regroup(b0, g0, g1, more);
      assert b1 + (g1 + more) == b1 + g1 + more;
    }
  }

  lemma ConserveFrame(b0: Bytes, f0: Bytes, got: Bytes, c: seq<Happening>, buf: Bytes, frags: Bytes)
    requires Conserves(b0, f0, got, c, buf, frags) && Parse(buf).Some? && Parse(buf).value.0.op != CLOSE
    ensures var (f, n) := Parse(buf).value;
            Conserves(b0, f0, got, c + Immediate(f, frags), buf[n..], FragsAfter(f, frags))
  {
    hide Parse, Immediate, FragsAfter;
    var (f, n) := Parse(buf).value;
    forall more: Bytes
      ensures ConservesWith(Deliveries, b0, f0, got, c + Immediate(f, frags), buf[n..], FragsAfter(f, frags), more)
    {
      assert ConservesWith(Deliveries, b0, f0, got, c, buf, frags, more);
      ParseMore(buf, more);
      assert (buf + more)[n..] == buf[n..] + more;
    }
  }

  lemma EndsHere(b0: Bytes, f0: Bytes, got: Bytes, c: seq<Happening>, buf: Bytes, frags: Bytes)
    requires Conserves(b0, f0, got, c, buf, frags) && Parse(buf).Some? && Parse(buf).value.0.op == CLOSE
    ensures Ends(b0, f0, got, c + [Closed])
  {
    forall more: Bytes ensures EndsWith(b0, f0, got, c + [Closed], more) {
      assert ConservesWith(Deliveries, b0, f0, got, c, buf, frags, more);
      ParseMore(buf, more);
    }
  }

  /** What was sent between two states: one pong for each payload answered, and nothing else. */
  predicate PongsSent(before: seq<Bytes>, now: seq<Bytes>, answered: seq<Bytes>) {
    && before <= now && |now| == |before| + |answered|
    && forall k :: 0 <= k < |answered| ==> SendsFrame(now[|before| + k], PONG, answered[k])
  }

  lemma MorePongs(before: seq<Bytes>, now: seq<Bytes>, answered: seq<Bytes>, next: seq<Bytes>, pongs: seq<Bytes>)
    requires PongsSent(before, now, answered) && PongsSent(now, next, pongs)
    ensures PongsSent(before, next, answered + pongs)
    ensures forall r :: Caused(answered + pongs, r) == Pongs(answered) + Caused(pongs, r)
    ensures Pongs(answered + pongs) == Pongs(answered) + Caused(pongs, Nothing)
  {
    assert Pongs(answered + pongs) == Pongs(answered) + Pongs(pongs);
    forall k | 0 <= k < |answered| + |pongs| ensures SendsFrame(next[|before| + k], PONG, (answered + pongs)[k]) {
      if k < |answered| {
        assert next[|before| + k] == now[|before| + k];
      } else {
        assert next[|before| + k] == next[|now| + (k - |answered|)];
      }
    }
  }

  /** These octets are one whole frame in the shortest form, a key before the payload, and each octet of the
      payload under the octet of the key that is its turn. */
  predicate SendsFrame(b: Bytes, op: bv8, data: Bytes) {
    && OnTheWire(b, Frame(true, op, data), |b|)
    && b[0] == 0x80 | op && b[1] >= 0x80
    && |b| == (if |data| < 126 then 6 else if |data| < 0x10000 then 8 else 14) + |data|
    && forall j :: 0 <= j < |data| ==> b[|b| - |data| + j] == data[j] ^ b[|b| - |data| - 4 + j % 4]
  }

  /** What is sent for a ping begins with the octet of a final pong. */
  lemma PongOctet(b: Bytes, data: Bytes)
    requires SendsFrame(b, PONG, data)
    ensures b[0] == 0x8A
  {
  }

  /** A masked frame that fills the buffer is what its payload makes of the key. */
  lemma KeyedBack(b: Bytes, f: Frame)
    requires OnTheWire(b, f, |b|) && b[1] >= 0x80
    ensures var n := |f.payload|;
            |b| >= n + 6 && forall j :: 0 <= j < n ==> b[|b| - n + j] == f.payload[j] ^ b[|b| - n - 4 + j % 4]
  {
    var n := |f.payload|;
    forall j | 0 <= j < n ensures b[|b| - n + j] == f.payload[j] ^ b[|b| - n - 4 + j % 4] {
      Bits.XorTwice(b[|b| - n + j], b[|b| - n - 4 + j % 4]);
    }
  }

  // -- any number of calls -----------------------------------------------------------------------

  /** One call of recv that did not end the connection: what it took in, what it caused, what it left. */
  datatype Call = Call(got: Bytes, caused: seq<Happening>, buf: Bytes, frags: Bytes)

  /** Calls one after the other, each conserving the stream, as Recv's contract says. */
  ghost predicate Calls(buf: Bytes, frags: Bytes, calls: seq<Call>) { CallsIn(Deliveries, buf, frags, calls) }

  ghost predicate CallsIn(reading: Reading, buf: Bytes, frags: Bytes, calls: seq<Call>)
    decreases |calls|
  {
    calls == [] ||
    (ConservesIn(reading, buf, frags, calls[0].got, calls[0].caused, calls[0].buf, calls[0].frags)
     && CallsIn(reading, calls[0].buf, calls[0].frags, calls[1..]))
  }

  function AllGot(calls: seq<Call>): Bytes { if calls == [] then [] else calls[0].got + AllGot(calls[1..]) }
  function AllCaused(calls: seq<Call>): seq<Happening> {
    if calls == [] then [] else calls[0].caused + AllCaused(calls[1..])
  }

  lemma {:induction false} CallsConserve(reading: Reading, buf: Bytes, frags: Bytes, calls: seq<Call>)
    requires CallsIn(reading, buf, frags, calls)
    ensures var (b, f) := if calls == [] then (buf, frags) else (calls[|calls| - 1].buf, calls[|calls| - 1].frags);
            ConservesIn(reading, buf, frags, AllGot(calls), AllCaused(calls), b, f)
    decreases |calls|
  {
    hide ConservesIn;
    if calls == [] {
      ConserveNothing(reading, buf, frags);
    } else {
      var c := calls[0];
      CallsConserve(reading, c.buf, c.frags, calls[1..]);
      var l := if |calls| == 1 then c else calls[1..][|calls| - 2];
      assert l == calls[|calls| - 1];
      ConserveBoth(reading, buf, frags, c.got, c.caused, c.buf, c.frags,
                   AllGot(calls[1..]), AllCaused(calls[1..]), l.buf, l.frags);
    }
  }

  /** However a stream of well-formed frames is split into reads and calls, once a call has found
      nothing more in the buffer exactly its messages have been delivered and its pings answered; again
      if and only if no fragmented binary message was completed. */
  lemma SessionDelivers(leftover: Bytes, calls: seq<Call>, fs: seq<Frame>, ws: seq<Wire>, tail: Bytes)
    requires calls != [] && Calls(leftover, [], calls)
    requires Parse(calls[|calls| - 1].buf).None?
    requires AllLayable(fs, ws) && Parse(tail).None? && WellFormed(fs, Between)
    requires leftover + AllGot(calls) == Stream(fs, ws) + tail
    ensures AllCaused(calls) == Reference(fs, Between) <==> FragmentedBinaries(fs, Between) == 0
  {
    CallsConserve(Deliveries, leftover, [], calls);
    var l := calls[|calls| - 1];
    assert leftover + AllGot(calls) + [] == Stream(fs, ws) + tail && l.buf + [] == l.buf;
    assert ConservesWith(Deliveries, leftover, [], AllGot(calls), AllCaused(calls), l.buf, l.frags, []);
    DeliversMessages(fs, ws, tail);
  }

  /** The same for a session whose last call met a close frame: nothing is missing before it. */
  lemma ClosedSessionDelivers(leftover: Bytes, calls: seq<Call>, got: Bytes, caused: seq<Happening>,
                              fs: seq<Frame>, ws: seq<Wire>, tail: Bytes)
    requires Calls(leftover, [], calls)
    requires var (b, f) := if calls == [] then (leftover, []) else (calls[|calls| - 1].buf, calls[|calls| - 1].frags);
             Ends(b, f, got, caused)
    requires AllLayable(fs, ws) && Parse(tail).None? && WellFormed(fs, Between)
    requires leftover + AllGot(calls) + got == Stream(fs, ws) + tail
    ensures AllCaused(calls) + caused == Reference(fs, Between) <==> FragmentedBinaries(fs, Between) == 0
  {
    CallsConserve(Deliveries, leftover, [], calls);
    var (b, f) := if calls == [] then (leftover, []) else (calls[|calls| - 1].buf, calls[|calls| - 1].frags);
    assert ConservesWith(Deliveries, leftover, [], AllGot(calls), AllCaused(calls), b, f, got);
    assert EndsWith(b, f, got, caused, []) && b + got + [] == b + got;
    DeliversMessages(fs, ws, tail);
  }
}

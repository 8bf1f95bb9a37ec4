/** A frame octet by octet, as section 5.2 of RFC 6455 draws it and section 5.3 masks it, and that this is what
    the decoder takes for one. */
module Octets {
  import opened Options
  import opened Frames

  /** Four octets, the highest first. */
  function Long(b: Bytes, at: nat): nat
    requires at + 4 <= |b|
  {
    ((b[at] as int * 0x100 + b[at + 1] as int) * 0x100 + b[at + 2] as int) * 0x100 + b[at + 3] as int
  }

  /** The length that the octets of a buffer tell, in network byte order, and how many octets tell it. */
  function Told(b: Bytes): Option<(nat, nat)> {
    if |b| < 2 then None
    else
      var small := if b[1] >= 0x80 then b[1] as int - 0x80 else b[1] as int;
      if small < 126 then Some((small, 0))
      else if small == 126 then
        if |b| < 4 then None else Some((b[2] as int * 0x100 + b[3] as int, 2))
      else if |b| < 10 then None
      else Some((Long(b, 2) * 0x1_0000_0000 + Long(b, 6), 8))
  }

  /** The first n octets of a buffer are the frame: a bit for the last fragment, four for the opcode, a bit for
      the key, the length, the key, and the payload. */
  predicate OnTheWire(b: Bytes, f: Frame, n: nat) {
    && Told(b).Some?
    && var (len, width) := Told(b).value;
    && var key := 2 + width;
    && var at := if b[1] >= 0x80 then key + 4 else key;
    && n == at + len <= |b|
    && (f.fin <==> b[0] >= 0x80)
    && f.op == b[0] & 0x0F
    && Carries(b, f.payload, key, at, len)
  }

  /** Each octet of the payload, under the octet of the key that is its turn if there is a key. */
  predicate Carries(b: Bytes, payload: Bytes, key: nat, at: nat, len: nat)
    requires at + len <= |b| && (at == key || at == key + 4)
  {
    |payload| == len
    && forall j :: 0 <= j < len ==> payload[j] == if at == key then b[at + j] else b[at + j] ^ b[key + j % 4]
  }

  lemma HighOctet(b: bv8)
    ensures High(b) <==> b >= 0x80
    ensures Code(b) == if b >= 0x80 then b as int - 0x80 else b as int
  {
    LowSeven(b);
  }

  lemma LowSeven(b: bv8)
    ensures b & 0x80 != 0 <==> b >= 0x80
    ensures b & 0x7F == if b >= 0x80 then b - 0x80 else b
  {
  }

  lemma OneMoreOctet(b: Bytes, c: bv8)
    ensures ToNat(b + [c]) == ToNat(b) * 0x100 + c as int
  {
    assert (b + [c])[..|b|] == b;
  }

  lemma TwoOctets(b: Bytes)
    requires |b| == 2
    ensures ToNat(b) == b[0] as int * 0x100 + b[1] as int
  {
    OneMoreOctet([], b[0]);
    OneMoreOctet([b[0]], b[1]);
    assert b == [b[0]] + [b[1]] && [] + [b[0]] == [b[0]];
  }

  lemma TwoMoreOctets(b: Bytes, x: bv8, y: bv8)
    ensures ToNat(b + [x, y]) == ToNat(b) * 0x1_0000 + x as int * 0x100 + y as int
  {
    hide ToNat;
    OneMoreOctet(b, x);
    OneMoreOctet(b + [x], y);
    assert b + [x, y] == b + [x] + [y];
  }

  lemma FourMoreOctets(b: Bytes, rest: Bytes)
    requires |rest| == 4
    ensures ToNat(b + rest) == ToNat(b) * 0x1_0000_0000 + Long(rest, 0)
  {
    hide ToNat;
    TwoMoreOctets(b, rest[0], rest[1]);
    TwoMoreOctets(b + [rest[0], rest[1]], rest[2], rest[3]);
    assert b + rest == b + [rest[0], rest[1]] + [rest[2], rest[3]];
  }

  lemma EightOctets(b: Bytes)
    requires |b| >= 10
    ensures ToNat(b[2..10]) == Long(b, 2) * 0x1_0000_0000 + Long(b, 6)
  {
    assert ToNat([]) == 0;
    hide ToNat;
    FourMoreOctets([], b[2..6]);
    FourMoreOctets(b[2..6], b[6..10]);
    assert [] + b[2..6] == b[2..6] && b[2..10] == b[2..6] + b[6..10];
  }

  /** The decoder's length is the one told. */
  lemma LengthIsTold(b: Bytes)
    requires |b| >= 2
    ensures var ext := ExtendedLength(Code(b[1]));
            if |b| < 2 + ext then Told(b).None? else Told(b) == Some((PayloadLength(Code(b[1]), b[2..2 + ext]), ext))
  {
    hide ToNat, Long, Code;
    HighOctet(b[1]);
    if Code(b[1]) == 126 && |b| >= 4 { TwoOctets(b[2..4]); }
    if Code(b[1]) == 127 && |b| >= 10 { EightOctets(b); }
  }

  /** What decodes, in terms of the length that is told. */
  lemma ParsedParts(b: Bytes)
    requires Parse(b).Some?
    ensures |b| >= 2 && Told(b).Some?
    ensures var (len, width) := Told(b).value;
            var key := 2 + width;
            var at := if b[1] >= 0x80 then key + 4 else key;
            && at + len <= |b|
            && Parse(b).value == (Frame(b[0] >= 0x80, b[0] & 0x0F, Masked(b[at..at + len], b[key..at])), at + len)
  {
    hide Told, ToNat, Code, High, ExtendedLength, PayloadLength, Masked;
    LengthIsTold(b);
    HighOctet(b[0]);
    HighOctet(b[1]);
  }

  lemma UnderTheKey(data: Bytes, key: Bytes, j: nat)
    requires (|key| == 0 || |key| == 4) && j < |data|
    ensures Masked(data, key)[j] == if key == [] then data[j] else data[j] ^ key[j % 4]
  {
  }

  lemma MaskedIsCarried(b: Bytes, key: nat, at: nat, len: nat)
    requires at + len <= |b| && (at == key || at == key + 4)
    ensures Carries(b, Masked(b[at..at + len], b[key..at]), key, at, len)
  {
    hide Masked;
    var data, mask := b[at..at + len], b[key..at];
    forall j | 0 <= j < len ensures Masked(data, mask)[j] == if at == key then b[at + j] else b[at + j] ^ b[key + j % 4] {
      UnderTheKey(data, mask, j);
    }
  }

  lemma ParsedIsOnTheWire(b: Bytes)
    requires Parse(b).Some?
    ensures var (f, n) := Parse(b).value; OnTheWire(b, f, n)
  {
    ParsedParts(b);
    hide Parse, Told, Masked, Carries;
    var (len, width) := Told(b).value;
    var key := 2 + width;
    MaskedIsCarried(b, key, if b[1] >= 0x80 then key + 4 else key, len);
  }

  /** A buffer begins with one frame at most. */
  lemma OneFrameOnTheWire(b: Bytes, f: Frame, n: nat, f': Frame, n': nat)
    requires OnTheWire(b, f, n) && OnTheWire(b, f', n')
    ensures f == f' && n == n'
  {
    hide Told;
    assert f.payload == f'.payload;
  }

  lemma OnTheWireIsParsed(b: Bytes, f: Frame, n: nat)
    requires OnTheWire(b, f, n)
    ensures Parse(b).Some?
  {
    hide Told, ToNat, Code, High, ExtendedLength, PayloadLength, Masked;
    if |b| < 2 { NothingTold(b); }
    LengthIsTold(b);
    HighOctet(b[1]);
  }

  /** What decodes is on the wire, and what is on the wire decodes. */
  lemma DecodedIsOnTheWire(b: Bytes, f: Frame, n: nat)
    ensures Parse(b) == Some((f, n)) <==> OnTheWire(b, f, n)
  {
    hide OnTheWire, Parse;
    if Parse(b).Some? { ParsedIsOnTheWire(b); }
    if OnTheWire(b, f, n) {
      OnTheWireIsParsed(b, f, n);
      OneFrameOnTheWire(b, f, n, Parse(b).value.0, Parse(b).value.1);
    }
  }

  lemma NothingTold(b: Bytes)
    requires |b| < 2
    ensures Told(b).None?
  {
  }
}

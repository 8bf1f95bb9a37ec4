/** WebSocket framing (sections 5.2 and 5.3 of RFC 6455): the layout of one frame in bytes, and the
    decoder's view of a buffer, each the inverse of the other. */
module Frames {
  import opened Options
  import Bits

  type Bytes = seq<bv8>

  datatype Frame = Frame(fin: bool, op: bv8, payload: Bytes)

  /** The choices a sender has in laying out a frame: reserved bits, length field, masking key. */
  datatype Wire = Wire(rsv: bv8, form: LengthForm, mask: Bytes)
  datatype LengthForm = Short | Medium | Long

  // -- network byte order -----------------------------------------------------------------

  function ToNat(b: Bytes): nat {
    if b == [] then 0 else ToNat(b[..|b| - 1]) * 256 + b[|b| - 1] as int
  }

  function FromNat(n: nat, width: nat): (b: Bytes)
    ensures |b| == width
  {
    if width == 0 then [] else FromNat(n / 256, width - 1) + [(n % 256) as bv8]
  }

  function Pow256(width: nat): nat { if width == 0 then 1 else 256 * Pow256(width - 1) }

  lemma {:induction false} ToFromNat(n: nat, width: nat)
    requires n < Pow256(width)
    ensures ToNat(FromNat(n, width)) == n
  {
    if width > 0 {
      ToFromNat(n / 256, width - 1);
      Bits.ByteBack(n % 256);
      var b := FromNat(n, width);
      assert b[..|b| - 1] == FromNat(n / 256, width - 1);
    }
  }

  lemma LastDigit(hi: nat, lo: nat)
    requires lo < 256
    ensures (hi * 256 + lo) / 256 == hi && (hi * 256 + lo) % 256 == lo
  {
  }

  lemma DigitMore(n: nat, hi: nat, lo: nat, width: nat)
    requires lo < 256 && n == hi * 256 + lo
    ensures FromNat(n, width + 1) == FromNat(hi, width) + [lo as bv8]
  {
    LastDigit(hi, lo);
  }

  lemma {:induction false} FromToNat(b: Bytes)
    ensures FromNat(ToNat(b), |b|) == b
  {
    if b != [] {
      hide FromNat;
      var init, last := b[..|b| - 1], b[|b| - 1];
      FromToNat(init);
      Bits.BackToByte(last);
      DigitMore(ToNat(b), ToNat(init), last as int, |init|);
      assert b == init + [last];
    }
  }

  lemma {:induction false} ToNatBound(b: Bytes)
    ensures ToNat(b) < Pow256(|b|)
  {
    if b != [] { ToNatBound(b[..|b| - 1]); }
  }

  // -- one frame ----------------------------------------------------------------------------

  /** Masking, and unmasking: the key repeated over the data; no key, no change. */
  function Masked(data: Bytes, mask: Bytes): (r: Bytes)
    requires |mask| == 0 || |mask| == 4
    ensures |r| == |data|
  {
    if mask == [] then data else seq(|data|, j requires 0 <= j < |data| => data[j] ^ mask[j % 4])
  }

  lemma MaskedTwice(data: Bytes, mask: Bytes)
    requires |mask| == 0 || |mask| == 4
    ensures Masked(Masked(data, mask), mask) == data
  {
    if mask != [] {
      forall j | 0 <= j < |data| ensures Masked(Masked(data, mask), mask)[j] == data[j] {
        Bits.XorTwice(data[j], mask[j % 4]);
      }
    }
  }

  predicate Fits(n: nat, form: LengthForm) {
    match form case Short => n < 126 case Medium => n < Pow256(2) case Long => n < Pow256(8)
  }

  predicate Layable(f: Frame, w: Wire) {
    && f.op < 16 && w.rsv & 0x8F == 0 && (|w.mask| == 0 || |w.mask| == 4) && Fits(|f.payload|, w.form)
  }

  // The two header bytes, written and read.

  function FirstByte(fin: bool, rsv: bv8, op: bv8): bv8 { (if fin then 0x80 else 0) | rsv | op }
  function SecondByte(masked: bool, code: nat): bv8
    requires code < 128
  {
    (if masked then 0x80 else 0) | (code as bv8)
  }

  predicate High(b: bv8) { b & 0x80 != 0 }
  function Opcode(b: bv8): bv8 { b & 0x0F }
  function Code(b: bv8): nat { (b & 0x7F) as int }

  lemma FirstByteRead(fin: bool, rsv: bv8, op: bv8)
    requires op < 16 && rsv & 0x8F == 0
    ensures High(FirstByte(fin, rsv, op)) == fin && Opcode(FirstByte(fin, rsv, op)) == op
  {
  }

  lemma SecondByteRead(masked: bool, code: nat)
    requires code < 128
    ensures High(SecondByte(masked, code)) == masked && Code(SecondByte(masked, code)) == code
  {
    Bits.ByteBack(code);
    Bits.SevenBits(code);
    Bits.WithHighBit(code as bv8);
  }

  lemma FirstByteWritten(b: bv8)
    ensures Opcode(b) < 16 && (b & 0x70) & 0x8F == 0 && FirstByte(High(b), b & 0x70, Opcode(b)) == b
  {
  }

  lemma SecondByteWritten(b: bv8)
    ensures Code(b) < 128 && SecondByte(High(b), Code(b)) == b
  {
    Bits.SplitHighBit(b);
    Bits.BackToByte(b & 0x7F);
  }

  function LengthCode(n: nat, form: LengthForm): (code: nat)
    requires Fits(n, form)
    ensures code < 128
  {
    match form case Short => n case Medium => 126 case Long => 127
  }

  function LengthBytes(n: nat, form: LengthForm): Bytes {
    match form case Short => [] case Medium => FromNat(n, 2) case Long => FromNat(n, 8)
  }

  function Layout(f: Frame, w: Wire): (b: Bytes)
    requires Layable(f, w)
  {
    [FirstByte(f.fin, w.rsv, f.op), SecondByte(w.mask != [], LengthCode(|f.payload|, w.form))]
    + LengthBytes(|f.payload|, w.form) + w.mask + Masked(f.payload, w.mask)
  }

  /** The frame a buffer starts with and the bytes it takes; None when it holds no whole frame. */
  function Parse(b: Bytes): (r: Option<(Frame, nat)>)
    ensures r.Some? ==> 2 <= r.value.1 <= |b|
  {
    if |b| < 2 then None
    else
      var ext := ExtendedLength(Code(b[1]));
      if |b| < 2 + ext then None
      else
        var n := PayloadLength(Code(b[1]), b[2..2 + ext]);
        var at := 2 + ext + (if High(b[1]) then 4 else 0);
        if |b| < at + n then None
        else Some((Frame(High(b[0]), Opcode(b[0]), Masked(b[at..at + n], b[2 + ext..at])), at + n))
  }

  function ExtendedLength(code: nat): nat { if code == 126 then 2 else if code == 127 then 8 else 0 }

  function PayloadLength(code: nat, ext: Bytes): nat { if ext == [] then code else ToNat(ext) }

  // -- the decoder undoes every layout, and nothing else decodes ---------------------------------

  lemma LengthRead(n: nat, form: LengthForm)
    requires Fits(n, form)
    ensures |LengthBytes(n, form)| == ExtendedLength(LengthCode(n, form))
    ensures PayloadLength(LengthCode(n, form), LengthBytes(n, form)) == n
  {
    match form
    case Short =>
    case Medium => ToFromNat(n, 2);
    case Long => ToFromNat(n, 8);
  }

  lemma ParseLayout(f: Frame, w: Wire, rest: Bytes)
    requires Layable(f, w)
    ensures Parse(Layout(f, w) + rest) == Some((f, |Layout(f, w)|))
  {
    var n := |f.payload|;
    var code := LengthCode(n, w.form);
    var ext := LengthBytes(n, w.form);
    FirstByteRead(f.fin, w.rsv, f.op);
    SecondByteRead(w.mask != [], code);
    LengthRead(n, w.form);
    MaskedTwice(f.payload, w.mask);
    ParseParts(FirstByte(f.fin, w.rsv, f.op), SecondByte(w.mask != [], code), ext, w.mask, Masked(f.payload, w.mask), rest);
  }

  /** The decoder on a buffer given in its parts. */
  lemma ParseParts(b0: bv8, b1: bv8, ext: Bytes, mask: Bytes, body: Bytes, rest: Bytes)
    requires |ext| == ExtendedLength(Code(b1)) && |mask| == (if High(b1) then 4 else 0)
    requires PayloadLength(Code(b1), ext) == |body|
    ensures Parse([b0, b1] + ext + mask + body + rest)
         == Some((Frame(High(b0), Opcode(b0), Masked(body, mask)), 2 + |ext| + |mask| + |body|))
  {
    PartsAt(b0, b1, ext, mask, body, rest);
  }

  lemma PartsAt(b0: bv8, b1: bv8, ext: Bytes, mask: Bytes, body: Bytes, rest: Bytes)
    ensures var b, at := [b0, b1] + ext + mask + body + rest, 2 + |ext| + |mask|;
            && b[0] == b0 && b[1] == b1 && b[2..2 + |ext|] == ext
            && b[2 + |ext|..at] == mask && b[at..at + |body|] == body
  {
  }

  /** The layout that a decoded buffer shows. */
  function WireOf(b: Bytes): Wire
    requires Parse(b).Some?
  {
    var ext := ExtendedLength(Code(b[1]));
    Wire(b[0] & 0x70, if ext == 0 then Short else if ext == 2 then Medium else Long,
         b[2 + ext..2 + ext + if High(b[1]) then 4 else 0])
  }

  lemma LengthWritten(code: nat, ext: Bytes)
    requires code < 128 && |ext| == ExtendedLength(code)
    ensures var n := PayloadLength(code, ext); var form := if |ext| == 0 then Short else if |ext| == 2 then Medium else Long;
            Fits(n, form) && LengthBytes(n, form) == ext && LengthCode(n, form) == code
  {
    ToNatBound(ext);
    FromToNat(ext);
  }

  /** The parts of a decoded buffer. */
  lemma ParseSplits(b: Bytes) returns (ext: Bytes, mask: Bytes, body: Bytes)
    requires Parse(b).Some?
    ensures |ext| == ExtendedLength(Code(b[1])) && |mask| == (if High(b[1]) then 4 else 0) && mask == WireOf(b).mask
    ensures |body| == PayloadLength(Code(b[1]), ext)
    ensures Parse(b).value.0 == Frame(High(b[0]), Opcode(b[0]), Masked(body, mask))
    ensures b[..Parse(b).value.1] == [b[0], b[1]] + ext + mask + body
  {
    var n := Parse(b).value.1;
    ext := b[2..2 + ExtendedLength(Code(b[1]))];
    hide Masked, ToNat;
    var at := 2 + |ext| + (if High(b[1]) then 4 else 0);
    mask, body := b[2 + |ext|..at], b[at..n];
    Sliced(b, 2 + |ext|, at, n);
  }

  lemma Sliced(b: Bytes, i: nat, j: nat, n: nat)
    requires 2 <= i <= j <= n <= |b|
    ensures b[..n] == [b[0], b[1]] + b[2..i] + b[i..j] + b[j..n]
  {
  }

  lemma ParseSound(b: Bytes)
    requires Parse(b).Some?
    ensures var (f, n) := Parse(b).value; Layable(f, WireOf(b)) && b[..n] == Layout(f, WireOf(b))
  {
    var ext, mask, body := ParseSplits(b);
    FirstByteWritten(b[0]);
    SecondByteWritten(b[1]);
    LengthWritten(Code(b[1]), ext);
    MaskedTwice(body, mask);
  }

  /** More bytes behind a whole frame change nothing about it. */
  lemma ParseMore(b: Bytes, more: Bytes)
    requires Parse(b).Some?
    ensures Parse(b + more) == Parse(b)
  {
    ParseSound(b);
    var (f, n) := Parse(b).value;
    assert b + more == b[..n] + (b[n..] + more);
    ParseLayout(f, WireOf(b), b[n..] + more);
  }

  /** A frame cut short decodes to nothing. */
  lemma ParsePartial(f: Frame, w: Wire, k: nat)
    requires Layable(f, w) && k < |Layout(f, w)|
    ensures Parse(Layout(f, w)[..k]).None?
  {
    hide Layout, Parse;
    var b := Layout(f, w);
    if Parse(b[..k]).Some? {
      ParseMore(b[..k], b[k..]);
      assert b[..k] + b[k..] == b == b + [];
      ParseLayout(f, w, []);
    }
  }
}

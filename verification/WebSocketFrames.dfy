/**
 * WebSocket framing on the client (web/transport.js): building a masked frame in place, and a reader written from
 * sections 5.2 and 5.3 of RFC 6455 that recovers it.
 */
module WebSocketFrames {
  import opened Prelude

  // ----- Bits and numbers --------------------------------------------------------------------------------

  /** Exclusive or of the low `k` bits. */
  function XorBits(a: nat, b: nat, k: nat): (r: nat)
    ensures r < Pow2(k)
  {
    if k == 0 then 0 else (a % 2 + b % 2) % 2 + 2 * XorBits(a / 2, b / 2, k - 1)
  }

  function Pow2(k: nat): (p: nat)
    ensures p > 0
  {
    if k == 0 then 1 else 2 * Pow2(k - 1)
  }

  function Xor(a: byte, b: byte): byte {
    assert Pow2(8) == 256;
    XorBits(a, b, 8)
  }

  lemma {:induction false} XorBitsInvolution(a: nat, b: nat, k: nat)
    requires a < Pow2(k)
    ensures XorBits(XorBits(a, b, k), b, k) == a
  {
    if k > 0 {
      var bit, high := (a % 2 + b % 2) % 2, XorBits(a / 2, b / 2, k - 1);
      LowBitAndRest(bit, high);
      XorBitsInvolution(a / 2, b / 2, k - 1);
      BitTwice(a % 2, b % 2);
      calc {
        XorBits(XorBits(a, b, k), b, k);
        XorBits(bit + 2 * high, b, k);
        (bit + b % 2) % 2 + 2 * XorBits(high, b / 2, k - 1);
        a % 2 + 2 * (a / 2);
      }
    }
  }

  lemma LowBitAndRest(bit: nat, high: nat)
    requires bit < 2
    ensures (bit + 2 * high) % 2 == bit && (bit + 2 * high) / 2 == high
  {
  }

  lemma BitTwice(a: nat, b: nat)
    requires a < 2 && b < 2
    ensures ((a + b) % 2 + b) % 2 == a
  {
  }

  lemma XorInvolution(a: byte, b: byte)
    ensures Xor(Xor(a, b), b) == a
  {
    assert Pow2(8) == 256;
    XorBitsInvolution(a, b, 8);
  }

  /** `0x80 | x` for a value of at most seven bits. */
  function HighBit(x: nat): byte
    requires x < 128
  {
    128 + x
  }

  /** The `k` low-order bytes of `n`, most significant first. */
  function BigEndian(n: nat, k: nat): (bytes: seq<byte>)
    ensures |bytes| == k
  {
    if k == 0 then [] else BigEndian(n / 256, k - 1) + [n % 256]
  }

  function Value(bytes: seq<byte>): nat {
    if bytes == [] then 0 else 256 * Value(bytes[..|bytes| - 1]) + bytes[|bytes| - 1]
  }

  function Pow256(k: nat): (p: nat)
    ensures p > 0
  {
    if k == 0 then 1 else 256 * Pow256(k - 1)
  }

  lemma {:induction false} BigEndianValue(n: nat, k: nat)
    requires n < Pow256(k)
    ensures Value(BigEndian(n, k)) == n
  {
    if k > 0 {
      BigEndianValue(n / 256, k - 1);
      assert BigEndian(n, k)[..k - 1] == BigEndian(n / 256, k - 1);
    }
  }

  const TWO_63: nat := 0x8000_0000_0000_0000

  lemma LengthFits()
    ensures Pow256(2) == 65536 && Pow256(8) == 2 * TWO_63
  {
    assert Pow256(1) == 256 && Pow256(2) == 65536 && Pow256(4) == 65536 * 65536;
    assert Pow256(6) == 65536 * Pow256(4) && Pow256(8) == 65536 * Pow256(6);
  }

  // ----- Sending -----------------------------------------------------------------------------------------

  function Header(opcode: nat, n: nat): seq<byte>
    requires opcode < 16
  {
    if n < 126 then [HighBit(opcode), HighBit(n)]
    else if n < 65536 then [HighBit(opcode), HighBit(126), n / 256 % 256, n % 256]
    else [HighBit(opcode), HighBit(127)] + BigEndian(n, 8)
  }

  function Masked(payload: seq<byte>, mask: seq<byte>): seq<byte>
    requires |mask| == 4
  {
    seq(|payload|, i requires 0 <= i < |payload| => Xor(payload[i], mask[i % 4]))
  }

  function Encoded(opcode: nat, mask: seq<byte>, payload: seq<byte>): seq<byte>
    requires opcode < 16 && |mask| == 4
  {
    Header(opcode, |payload|) + mask + Masked(payload, mask)
  }

  method BuildHeader(opcode: nat, n: nat) returns (head: array<byte>)
    requires opcode < 16
    ensures fresh(head) && head[..] == Header(opcode, n)
  {
    if n < 126 {
      head := new byte[2][HighBit(opcode), HighBit(n)];
    } else if n < 65536 {
      head := new byte[4][HighBit(opcode), HighBit(126), n / 256 % 256, n % 256];
    } else {
      head := new byte[10];
      head[0] := HighBit(opcode);
      head[1] := HighBit(127);
      SetBigUint64(head, 2, n);
      assert head[..2] == [HighBit(opcode), HighBit(127)];
      assert head[..] == head[..2] + head[2..10];
    }
  }

  /** The frame as `sendFrame` fills it in, byte by byte. */
  method SendFrame(opcode: nat, mask: seq<byte>, payload: seq<byte>) returns (out: array<byte>)
    requires opcode < 16 && |mask| == 4
    ensures fresh(out) && out[..] == Encoded(opcode, mask, payload)
  {
    hide Xor, Header;
    var head := BuildHeader(opcode, |payload|);
    var h := head.Length;
    ghost var header := head[..];
    out := new byte[h + 4 + |payload|];
    forall i | 0 <= i < h {
      out[i] := head[i];
    }
    forall i | 0 <= i < 4 {
      out[h + i] := mask[i];
    }
    assert out[..h] == header && out[h..h + 4] == mask;
    for i := 0 to |payload|
      invariant out[..h] == header && out[h..h + 4] == mask
      invariant forall j | 0 <= j < i :: out[h + 4 + j] == Xor(payload[j], mask[j % 4])
    {
      out[h + 4 + i] := Xor(payload[i], mask[i % 4]);
    }
    assert out[h + 4..] == Masked(payload, mask);
    assert out[..] == out[..h] + out[h..h + 4] + out[h + 4..];
  }

  method SetBigUint64(bytes: array<byte>, offset: nat, n: nat)
    requires offset + 8 <= bytes.Length
    modifies bytes
    ensures bytes[offset..offset + 8] == BigEndian(n, 8)
    ensures bytes[..offset] == old(bytes[..offset]) && bytes[offset + 8..] == old(bytes[offset + 8..])
  {
    var rest, i := n, 8;
    ghost var whole := BigEndian(n, 8);
    while i > 0
      invariant 0 <= i <= 8 && whole[..i] == BigEndian(rest, i)
      invariant forall j | i <= j < 8 :: bytes[offset + j] == whole[j]
      invariant forall j | 0 <= j < bytes.Length && !(offset <= j < offset + 8) :: bytes[j] == old(bytes[j])
    {
      i := i - 1;
      assert whole[i] == whole[..i + 1][i];
      bytes[offset + i] := rest % 256;
      rest := rest / 256;
      assert whole[..i] == whole[..i + 1][..i];
    }
  }

  // ----- Reading, from the standard ----------------------------------------------------------------------

  datatype WireFrame = WireFrame(fin: bool, rsv: nat, opcode: nat, masked: bool, payload: seq<byte>)

  /** Section 5.2: how many bytes extend the 7-bit length. */
  function ExtendedBytes(length7: nat): nat {
    if length7 == 126 then 2 else if length7 == 127 then 8 else 0
  }

  function PayloadLength(bytes: seq<byte>): nat
    requires |bytes| >= 2 && |bytes| >= 2 + ExtendedBytes(bytes[1] % 128)
  {
    var length7 := bytes[1] % 128;
    if length7 < 126 then length7 else Value(bytes[2..2 + ExtendedBytes(length7)])
  }

  /** Sections 5.2 and 5.3: one frame from the front of a byte stream, unmasked, and what follows it. */
  function ReadFrame(bytes: seq<byte>): Option<(WireFrame, seq<byte>)> {
    if |bytes| < 2 || |bytes| < 2 + ExtendedBytes(bytes[1] % 128) then None
    else
      var masked := bytes[1] >= 128;
      var keyAt := 2 + ExtendedBytes(bytes[1] % 128);
      var dataAt := if masked then keyAt + 4 else keyAt;
      var end := dataAt + PayloadLength(bytes);
      if |bytes| < end then None
      else
        var data := bytes[dataAt..end];
        Some((WireFrame(bytes[0] >= 128, bytes[0] / 16 % 8, bytes[0] % 16, masked,
                        if masked then Masked(data, bytes[keyAt..dataAt]) else data), bytes[end..]))
  }

  /** Section 5.2: the shortest of the three length forms is used, and a 64-bit length has its top bit clear. */
  predicate MinimalLength(bytes: seq<byte>)
    requires |bytes| >= 2 && |bytes| >= 2 + ExtendedBytes(bytes[1] % 128)
  {
    var length7 := bytes[1] % 128;
    (length7 == 126 ==> PayloadLength(bytes) >= 126) && (length7 == 127 ==> 65536 <= PayloadLength(bytes) < TWO_63)
  }

  lemma MaskedTwice(payload: seq<byte>, mask: seq<byte>)
    requires |mask| == 4
    ensures Masked(Masked(payload, mask), mask) == payload
  {
    hide Xor;
    forall i | 0 <= i < |payload| ensures Masked(Masked(payload, mask), mask)[i] == payload[i] {
      XorInvolution(payload[i], mask[i % 4]);
    }
  }

  /** The header announces the payload's length, in minimal form. */
  lemma HeaderRead(opcode: nat, n: nat, rest: seq<byte>)
    requires opcode < 16 && n < TWO_63
    ensures var bytes, h := Header(opcode, n) + rest, |Header(opcode, n)|;
            && bytes[0] == 128 + opcode && bytes[1] >= 128
            && h == 2 + ExtendedBytes(bytes[1] % 128) && PayloadLength(bytes) == n && MinimalLength(bytes)
  {
    LengthFits();
    var bytes := Header(opcode, n) + rest;
    if 126 <= n < 65536 {
      assert bytes[2..4] == BigEndian(n, 2) by {
        assert BigEndian(n / 256, 1) == [n / 256 % 256] by { assert BigEndian(n / 256 / 256, 0) == []; }
      }
      BigEndianValue(n, 2);
    } else if 65536 <= n {
      assert bytes[2..10] == BigEndian(n, 8);
      BigEndianValue(n, 8);
    }
  }

  /**
   * For every opcode, mask and payload the standard's reader recovers a final frame with that opcode and payload,
   * leaves the rest of the stream untouched, and finds the length in minimal form.
   */
  lemma SentFrameIsRead(opcode: nat, mask: seq<byte>, payload: seq<byte>, rest: seq<byte>)
    requires opcode < 16 && |mask| == 4 && |payload| < TWO_63
    ensures var bytes := Encoded(opcode, mask, payload) + rest;
            && ReadFrame(bytes) == Some((WireFrame(true, 0, opcode, true, payload), rest))
            && |bytes| >= 2 + ExtendedBytes(bytes[1] % 128) && MinimalLength(bytes)
  {
    hide Masked, Header, MinimalLength, PayloadLength;
    var head, data := Header(opcode, |payload|), Masked(payload, mask);
    var after := mask + data + rest;
    var bytes := Encoded(opcode, mask, payload) + rest;
    assert bytes == head + after;
    HeaderRead(opcode, |payload|, after);
    MaskedLength(payload, mask);
    assert bytes[|head|..|head| + 4] == mask;
    assert bytes[|head| + 4..|head| + 4 + |payload|] == data;
    assert bytes[|head| + 4 + |payload|..] == rest;
    MaskedTwice(payload, mask);
  }

  lemma MaskedLength(payload: seq<byte>, mask: seq<byte>)
    requires |mask| == 4
    ensures |Masked(payload, mask)| == |payload|
  {
  }
}

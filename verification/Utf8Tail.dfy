/**
 * Keeping the tail of a terminal's output (`truncate_utf8_tail`, daemon/crates/acp-bridge/src/acp_client.rs): a string is
 * cut to its last `limit` bytes without splitting a character.
 */
module Utf8Tail {
  import opened Prelude

  predicate Continuation(b: byte) {
    128 <= b < 192
  }

  /** How many bytes the character at the front of `s` takes; 0 when none is well formed (Unicode, table 3-7). */
  function CharLength(s: seq<byte>): (n: nat)
    ensures n <= 4 && n <= |s|
  {
    if s == [] then 0
    else if s[0] < 128 then 1
    else if 0xC2 <= s[0] < 0xE0 then if |s| >= 2 && Continuation(s[1]) then 2 else 0
    else if 0xE0 <= s[0] < 0xF0 then
      if |s| >= 3 && Continuation(s[1]) && Continuation(s[2])
         && (s[0] == 0xE0 ==> s[1] >= 0xA0) && (s[0] == 0xED ==> s[1] < 0xA0) then 3 else 0
    else if 0xF0 <= s[0] < 0xF5 then
      if |s| >= 4 && Continuation(s[1]) && Continuation(s[2]) && Continuation(s[3])
         && (s[0] == 0xF0 ==> s[1] >= 0x90) && (s[0] == 0xF4 ==> s[1] < 0x90) then 4 else 0
    else 0
  }

  /** What a Rust `String` always is. */
  predicate ValidUtf8(s: seq<byte>) {
    s == [] || (CharLength(s) > 0 && ValidUtf8(s[CharLength(s)..]))
  }

  /** `str::is_char_boundary`: looks at one byte only. */
  predicate IsCharBoundary(s: seq<byte>, i: nat) {
    i == 0 || i == |s| || (i < |s| && !Continuation(s[i]))
  }

  /** In a valid string, one byte tells whether the rest from there is valid. */
  lemma {:induction false} BoundaryIsValidSuffix(s: seq<byte>, i: nat)
    requires ValidUtf8(s) && i <= |s|
    ensures IsCharBoundary(s, i) <==> ValidUtf8(s[i..])
  {
    var n := CharLength(s);
    if i == 0 {
      assert s[0..] == s;
    } else if i < n {
      assert Continuation(s[i]) && s[i..][0] == s[i];
    } else if s != [] {
      BoundaryIsValidSuffix(s[n..], i - n);
      assert s[n..][i - n..] == s[i..];
      if i == n && i < |s| {
        assert CharLength(s[n..]) > 0;
        assert s[n..][0] == s[i];
      } else if n < i < |s| {
        assert s[n..][i - n] == s[i];
      }
    }
  }

  /** No more than three bytes in a row are inside a character. */
  lemma {:induction false} BoundaryIsNear(s: seq<byte>, i: nat) returns (j: nat)
    requires ValidUtf8(s) && i <= |s|
    ensures i <= j <= i + 3 && j <= |s| && IsCharBoundary(s, j)
  {
    var n := CharLength(s);
    if i == 0 {
      j := 0;
    } else if i <= n {
      j := n;
      BoundaryIsValidSuffix(s, n);
    } else {
      j := BoundaryIsNear(s[n..], i - n);
      BoundaryIsValidSuffix(s[n..], j);
      assert s[n..][j..] == s[n + j..];
      j := n + j;
      BoundaryIsValidSuffix(s, j);
    }
  }

  /**
   * The result is the longest valid suffix of at most `limit` bytes, at most three bytes short of the limit, and
   * the flag says whether anything was dropped.
   */
  method TruncateUtf8Tail(text: seq<byte>, limit: nat) returns (kept: seq<byte>, dropped: bool)
    requires ValidUtf8(text)
    ensures |kept| <= |text| && kept == text[|text| - |kept|..]
    ensures ValidUtf8(kept) && |kept| <= limit
    ensures forall i | 0 <= i <= |text| && |text| - i <= limit && ValidUtf8(text[i..]) :: |text| - i <= |kept|
    ensures |kept| + 3 >= limit || kept == text
    ensures dropped <==> kept != text
  {
    if |text| <= limit {
      assert text[0..] == text;
      return text, false;
    }
    if limit == 0 {
      return [], true;
    }
    var cut := |text| - limit;
    var start := cut;
    ghost var near := BoundaryIsNear(text, cut);
    while !IsCharBoundary(text, start)
      invariant cut <= start <= near
      invariant forall j | cut <= j < start :: !IsCharBoundary(text, j)
      decreases |text| - start
    {
      start := start + 1;
    }
    kept := text[start..];
    dropped := true;
    BoundaryIsValidSuffix(text, start);
    forall i | 0 <= i <= |text| && |text| - i <= limit && ValidUtf8(text[i..]) ensures |text| - i <= |kept| {
      BoundaryIsValidSuffix(text, i);
    }
  }
}

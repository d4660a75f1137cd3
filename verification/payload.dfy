/** The bounded, NUL-stopping byte copies of disastrOS_send_msg.c and
    disastrOS_receive_msg.c. */
module Payloads {

  type Byte = x: int | 0 <= x < 256
  type Bytes = seq<Byte>

  /** What a copy limited to `n` bytes takes from `b`: everything up to and including the
      first NUL, or the first `n` bytes when none of them is NUL. */
  function Payload(b: Bytes, n: int): (r: Bytes)
    ensures r <= b
  {
    if n <= 0 || b == [] then []
    else if b[0] == 0 then [b[0]]
    else [b[0]] + Payload(b[1..], n - 1)
  }

  /** `Payload` is the longest prefix of at most `n` bytes with no NUL before its end. */
  lemma {:induction false} PayloadMeaning(b: Bytes, n: int)
    ensures var r := Payload(b, n);
            && |r| <= (if n < 0 then 0 else n)
            && (forall i :: 0 <= i < |r| - 1 ==> r[i] != 0)
            && (|r| < n && |r| < |b| ==> r != [] && r[|r| - 1] == 0)
  {
    if n > 0 && b != [] && b[0] != 0 {
      PayloadMeaning(b[1..], n - 1);
      var r, s := Payload(b, n), Payload(b[1..], n - 1);
      assert forall i :: 1 <= i < |r| ==> r[i] == s[i - 1];
    }
  }

  /** Memory `dst` after `p` has been written to its start. */
  function Overwritten(dst: Bytes, p: Bytes): (r: Bytes)
    requires |p| <= |dst|
    ensures |r| == |dst|
  {
    p + dst[|p|..]
  }

  /** A payload survives being stored in a used block and being read back under the same
      length, whatever the block held before. */
  lemma {:induction false} PayloadSurvives(src: Bytes, n: int, garbage: Bytes)
    requires |src| >= n && |garbage| >= n
    ensures |Payload(src, n)| <= |garbage|
    ensures Payload(Overwritten(garbage, Payload(src, n)), n) == Payload(src, n)
  {
    PayloadMeaning(src, n);
    if n > 0 && src[0] != 0 {
      PayloadSurvives(src[1..], n - 1, garbage[1..]);
      var p := Payload(src[1..], n - 1);
      assert Overwritten(garbage, Payload(src, n))[1..] == Overwritten(garbage[1..], p);
    }
  }

  /** The payload ends at the first NUL within reach, or at the limit. */
  lemma {:induction false} PayloadEnds(b: Bytes, n: int, k: nat)
    requires k <= |b| && k <= n
    requires forall i :: 0 <= i < k ==> b[i] != 0
    ensures k == n ==> Payload(b, n) == b[..k]
    ensures k < n && k < |b| && b[k] == 0 ==> Payload(b, n) == b[..k + 1]
  {
    if k > 0 {
      PayloadEnds(b[1..], n - 1, k - 1);
      assert b[..k] == [b[0]] + b[1..][..k - 1];
      if k < |b| { assert b[..k + 1] == [b[0]] + b[1..][..k]; }
    }
  }

  /** The copy loop, from the sender's memory into the string block of the message and
      from there into the receiver's buffer. */
  method CopyBytes(dst: array<Byte>, src: Bytes, len: int)
    requires len <= |src| && len <= dst.Length
    modifies dst
    ensures |Payload(src, len)| <= dst.Length
    ensures dst[..] == Overwritten(old(dst[..]), Payload(src, len))
    ensures forall j :: 0 <= j < |Payload(src, len)| ==> dst[j] == Payload(src, len)[j]
    ensures forall j :: |Payload(src, len)| <= j < dst.Length ==> dst[j] == old(dst[j])
  {
    ghost var end := 0;
    var i := 0;
    while i < len
      invariant 0 <= i && (len >= 0 ==> i <= len) && (len < 0 ==> i == 0)
      invariant end == i
      invariant forall j :: 0 <= j < i ==> dst[j] == src[j] && src[j] != 0
      invariant forall j :: i <= j < dst.Length ==> dst[j] == old(dst[j])
    {
      dst[i] := src[i];
      if src[i] == 0 {
        end := i + 1;
        break;
      }
      i := i + 1;
      end := i;
    }
    if len >= 0 { PayloadEnds(src, len, i); }
    assert Payload(src, len) == src[..end];
  }
}

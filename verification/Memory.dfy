/** Memory as the encoders use it: bytes copied over a part of a structure or a vector. */
module Memory {
  import opened Bytes

  /** `s` with `src` copied over it at `at`. */
  function Written(s: seq<byte>, at: nat, src: seq<byte>): (r: seq<byte>)
    requires at + |src| <= |s|
    ensures |r| == |s|
  {
    seq(|s|, i requires 0 <= i < |s| => if at <= i < at + |src| then src[i - at] else s[i])
  }

  method Memcpy(dst: array<byte>, at: nat, src: seq<byte>)
    requires at + |src| <= dst.Length
    modifies dst
    ensures dst[..] == Written(old(dst[..]), at, src)
  {
    for i := 0 to |src|
      invariant dst[..] == Written(old(dst[..]), at, src[..i])
    {
      dst[at + i] := src[i];
    }
  }

  /** Two copies behind one another are one. */
  lemma WrittenNext(s: seq<byte>, at: nat, a: seq<byte>, b: seq<byte>)
    requires at + |a| + |b| <= |s|
    ensures Written(Written(s, at, a), at + |a|, b) == Written(s, at, a + b)
  {
  }
}

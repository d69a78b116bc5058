/** Model of `secure_memset` (src/include/memory.h): overwrite the first `len`
    bytes of a writable region with one fill byte, one byte at a time.

    The region is an `array<bv8>`; the C++ code receives a raw pointer and
    trusts its caller that `len` bytes are writable there, which becomes the
    precondition `len <= mem.Length`. The `volatile` qualifiers, which keep the
    compiler from removing the stores, have no counterpart in Dafny: only the
    effect on memory is modelled. */
module SecureMemory {

  /** The memory `mem` after its first `len` bytes are set to `c`. */
  function Fill(mem: seq<bv8>, c: bv8, len: nat): (r: seq<bv8>)
    requires len <= |mem|
    ensures |r| == |mem|
    ensures forall i :: 0 <= i < len ==> r[i] == c
    ensures forall i :: len <= i < |mem| ==> r[i] == mem[i]
  {
    seq(len, _ => c) + mem[len..]
  }

  /** Filling is idempotent: a second call with the same fill byte and
      length leaves the memory as the first call left it. */
  lemma FillIdempotent(mem: seq<bv8>, c: bv8, len: nat)
    requires len <= |mem|
    ensures Fill(Fill(mem, c, len), c, len) == Fill(mem, c, len)
  {
  }

  /** A zero length is a no-op. */
  lemma FillNothing(mem: seq<bv8>, c: bv8)
    ensures Fill(mem, c, 0) == mem
  {
  }

  /** `secure_memset(mem, c, len)`: the loop stores `c` at `mem[0]`, ...,
      `mem[len - 1]` in that order and touches nothing else. */
  method SecureMemset(mem: array<bv8>, c: bv8, len: nat)
    requires len <= mem.Length
    modifies mem
    ensures mem[..] == Fill(old(mem[..]), c, len)
  {
    var i: nat := 0;
    while i < len
      invariant i <= len
      invariant forall k :: 0 <= k < i ==> mem[k] == c
      invariant forall k :: i <= k < mem.Length ==> mem[k] == old(mem[k])
    {
      mem[i] := c;
      i := i + 1;
    }
    assert mem[..] == Fill(old(mem[..]), c, len);
  }
}

/** The heap blocks of mysh.c: the size both growable buffers start at and grow by,
    and realloc on a block that is never shrunk. */
module Memory {

  /** MAX_BUFFER: initial size of the line buffer and of the token vector, and the
      amount each growth adds. */
  const MAX_BUFFER: nat := 4096

  /** A size the growable buffers can reach: a positive multiple of MAX_BUFFER. */
  predicate IsBufferSize(n: nat) {
    n > 0 && n % MAX_BUFFER == 0
  }

  /** Growing by MAX_BUFFER keeps a buffer size. */
  lemma GrowthKeepsBufferSize(n: nat)
    requires IsBufferSize(n)
    ensures IsBufferSize(n + MAX_BUFFER)
  {
  }

  /** realloc to a larger block: a fresh block of n elements that starts with the
      elements of a (its failure path, a NULL result, is fatal and not modelled). */
  method Realloc<T(0)>(a: array<T>, n: nat) returns (b: array<T>)
    requires a.Length <= n
    ensures fresh(b) && b.Length == n
    ensures forall i :: 0 <= i < a.Length ==> b[i] == a[i]
  {
    b := new T[n];
    forall i | 0 <= i < a.Length {
      b[i] := a[i];
    }
  }
}

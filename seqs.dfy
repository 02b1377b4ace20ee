/** Facts about sequences that hold whatever their elements are. */
module Seqs {

  /** Concatenation is associative. */
  lemma Assoc<T>(a: seq<T>, b: seq<T>, c: seq<T>)
    ensures (a + b) + c == a + (b + c)
  {
  }

  /** Appending two elements, a block, a block and two elements, one at a time, gives the grouped whole. */
  lemma AppendedInTurn<T>(a: T, b: T, r: seq<T>, h: seq<T>, y: T, z: T)
    ensures (((([] + [a]) + [b]) + r) + h) + [y] + [z] == [a, b] + r + h + [y, z]
  {
  }

  /** A slice of a concatenation that lies within one part. */
  lemma SliceOfConcat<T>(a: seq<T>, b: seq<T>, i: int, j: int)
    requires 0 <= i <= j <= |a| + |b| && (j <= |a| || i == |a|)
    ensures j <= |a| ==> (a + b)[i..j] == a[i..j]
    ensures i == |a| && j == |a| + |b| ==> (a + b)[i..j] == b
  {
  }

  /** What is in a sequence is in any extension of it. */
  lemma InPrefix<T>(x: T, a: seq<T>, b: seq<T>)
    requires x in a
    ensures x in a + b
  {
  }

  /** What is in four sequences laid end to end is in one of them. */
  lemma InFourParts<T>(x: T, a: seq<T>, b: seq<T>, c: seq<T>, d: seq<T>)
    requires x in a + b + c + d
    ensures x in a || x in b || x in c || x in d
  {
  }

  /** A prefix one longer is the prefix and the next element. */
  lemma PrefixStep<T>(s: seq<T>, i: int)
    requires 0 <= i < |s|
    ensures s[..i + 1] == s[..i] + [s[i]]
  {
  }
}

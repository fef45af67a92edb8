/** Facts about sequence concatenation and slicing used by the loop and
    layout proofs. */
module Seqs {
  lemma AppendAssoc<T>(x: seq<T>, y: seq<T>, z: seq<T>)
    ensures x + y + z == x + (y + z)
  {
  }

  /** Regrouping the last three of four pieces. */
  lemma RegroupTail<T>(o: seq<T>, a: seq<T>, b: seq<T>, c: seq<T>)
    ensures o + a + b + c == o + (a + b + c)
  {
  }

  /** Regrouping the last two of four pieces. */
  lemma RegroupLast<T>(o: seq<T>, a: seq<T>, b: seq<T>, c: seq<T>)
    ensures o + a + b + c == o + a + (b + c)
  {
  }

  /** Appending nothing leaves a sequence as it is. */
  lemma AppendNone<T>(front: seq<T>, none: seq<T>)
    requires |none| == 0
    ensures front == front + none
  {
  }

  /** A prefix one longer is the prefix followed by the next element. */
  lemma TakeSnoc<T>(s: seq<T>, i: nat)
    requires i < |s|
    ensures s[..i + 1] == s[..i] + [s[i]]
  {
  }

  /** f applied to each element, in order. */
  function MapSeq<T, U>(f: T --> U, xs: seq<T>): (ys: seq<U>)
    requires forall i :: 0 <= i < |xs| ==> f.requires(xs[i])
    ensures |ys| == |xs|
  {
    seq(|xs|, i requires 0 <= i < |xs| => f(xs[i]))
  }

  lemma MapSeqAt<T, U>(f: T --> U, xs: seq<T>, i: nat)
    requires forall i :: 0 <= i < |xs| ==> f.requires(xs[i])
    requires i < |xs|
    ensures MapSeq(f, xs)[i] == f(xs[i])
  {
  }

  /** Mapping one more element appends its image. */
  lemma MapSeqSnoc<T, U>(f: T --> U, xs: seq<T>, x: T)
    requires forall i :: 0 <= i < |xs| ==> f.requires(xs[i])
    requires f.requires(x)
    ensures forall i :: 0 <= i < |xs + [x]| ==> f.requires((xs + [x])[i])
    ensures MapSeq(f, xs + [x]) == MapSeq(f, xs) + [f(x)]
  {
    var xs' := xs + [x];
    forall i | 0 <= i < |xs'| ensures f.requires(xs'[i]) {
      if i < |xs| {
        assert xs'[i] == xs[i];
      }
    }
    var a := MapSeq(f, xs');
    var b := MapSeq(f, xs) + [f(x)];
    forall i | 0 <= i < |a| ensures a[i] == b[i] {
      if i < |xs| {
        assert xs'[i] == xs[i];
      }
    }
  }

  /** Each element passed to f with its number, counting from first
      (Python's enumerate(xs, first)). */
  function Numbered<T, U>(xs: seq<T>, f: (T, int) -> U, first: int): (ys: seq<U>)
    ensures |ys| == |xs|
  {
    seq(|xs|, i requires 0 <= i < |xs| => f(xs[i], first + i))
  }

  lemma NumberedAt<T, U>(xs: seq<T>, f: (T, int) -> U, first: int, i: nat)
    requires i < |xs|
    ensures Numbered(xs, f, first)[i] == f(xs[i], first + i)
  {
  }
}

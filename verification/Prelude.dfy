/** Small datatypes shared by the models. */
module Prelude {

  datatype Option<+T> = None | Some(value: T)

  /** A byte as Python's `bytes` yields it: an integer from 0 to 255. */
  newtype byte = x: int | 0 <= x < 256

  type Bytes = seq<byte>

  /** A symbolic hash: equal digests are digests of equal bytes. */
  datatype Digest = Sha256(data: Bytes)

  ghost predicate Distinct<T>(s: seq<T>) {
    forall i, j :: 0 <= i < j < |s| ==> s[i] != s[j]
  }

  /** What each element is written as, joined. */
  function Spread<T>(one: T -> Bytes, s: seq<T>): Bytes {
    if s == [] then [] else one(s[0]) + Spread(one, s[1..])
  }

  lemma {:induction false} SpreadJoins<T>(one: T -> Bytes, a: seq<T>, b: seq<T>)
    ensures Spread(one, a + b) == Spread(one, a) + Spread(one, b)
  {
    if a == [] {
      assert a + b == b;
    } else {
      SpreadJoins(one, a[1..], b);
      assert (a + b)[1..] == a[1..] + b && (a + b)[0] == a[0];
      assert Spread(one, a + b) == one(a[0]) + Spread(one, a[1..] + b);
    }
  }

  /** Writing every element longer writes the whole longer. */
  lemma {:induction false} SpreadLonger<T>(one: T -> Bytes, other: T -> Bytes, s: seq<T>)
    requires forall i :: 0 <= i < |s| ==> |one(s[i])| <= |other(s[i])|
    ensures |Spread(one, s)| <= |Spread(other, s)|
  {
    if s != [] {
      SpreadLonger(one, other, s[1..]);
    }
  }
}

/** Base64 with both alphabets (sections 4 and 5 of RFC 4648), and what a cut of it depends on. */
module Base64 {
  import opened Prelude

  const PAD: byte := 61

  datatype Alphabet = Standard | UrlSafe

  function Letter(n: nat, alphabet: Alphabet): (b: byte)
    requires n < 64
    ensures b != PAD
  {
    if n < 26 then (65 + n) as byte
    else if n < 52 then (97 + n - 26) as byte
    else if n < 62 then (48 + n - 52) as byte
    else if n == 62 then (if alphabet == Standard then 43 else 45)
    else (if alphabet == Standard then 47 else 95)
  }

  /** The letters of one group of three bytes. */
  function Group(a: byte, b: byte, c: byte, alphabet: Alphabet): (letters: Bytes)
    ensures |letters| == 4
  {
    var x, y, z := a as nat, b as nat, c as nat;
    [Letter(x / 4, alphabet), Letter(x % 4 * 16 + y / 16, alphabet),
     Letter(y % 16 * 4 + z / 64, alphabet), Letter(z % 64, alphabet)]
  }

  function Encode(data: Bytes, alphabet: Alphabet): (letters: Bytes)
    ensures |letters| == (|data| + 2) / 3 * 4
  {
    if |data| == 0 then []
    else if |data| == 1 then Group(data[0], 0, 0, alphabet)[..2] + [PAD, PAD]
    else if |data| == 2 then Group(data[0], data[1], 0, alphabet)[..3] + [PAD]
    else Group(data[0], data[1], data[2], alphabet) + Encode(data[3..], alphabet)
  }

  function RightStripped(s: Bytes, b: byte): Bytes {
    if s != [] && s[|s| - 1] == b then RightStripped(s[..|s| - 1], b) else s
  }

  // ----- letters and bits -----

  /** How many letters carry bits of that many bytes. */
  function LetterCount(n: nat): nat {
    (4 * n + 2) / 3
  }

  function At(data: Bytes, i: nat): nat {
    if i < |data| then data[i] as nat else 0
  }

  /** Six bits of the data, from bit 6 * i on, with zeros after the end. */
  function Sextet(data: Bytes, i: nat): (n: nat)
    ensures n < 64
  {
    var j := 3 * (i / 4);
    if i % 4 == 0 then At(data, j) / 4
    else if i % 4 == 1 then At(data, j) % 4 * 16 + At(data, j + 1) / 16
    else if i % 4 == 2 then At(data, j + 1) % 16 * 4 + At(data, j + 2) / 64
    else At(data, j + 2) % 64
  }

  /** The bytes that hold the first and the last of those six bits. */
  function FirstByte(i: nat): nat {
    6 * i / 8
  }

  function LastByte(i: nat): nat {
    (6 * i + 5) / 8
  }

  lemma SextetAfterGroup(data: Bytes, i: nat)
    requires i >= 4 && |data| >= 3
    ensures Sextet(data[3..], i - 4) == Sextet(data, i)
  {
    assert i / 4 == (i - 4) / 4 + 1 && i % 4 == (i - 4) % 4;
    var j := 3 * ((i - 4) / 4);
    assert At(data[3..], j) == At(data, j + 3);
    assert At(data[3..], j + 1) == At(data, j + 4);
    assert At(data[3..], j + 2) == At(data, j + 5);
  }

  lemma GroupAt(data: Bytes, alphabet: Alphabet, i: nat)
    requires i < 4
    ensures Group(At(data, 0) as byte, At(data, 1) as byte, At(data, 2) as byte, alphabet)[i] ==
          Letter(Sextet(data, i), alphabet)
  {
    assert i / 4 == 0 && i % 4 == i;
  }

  lemma FirstGroup(data: Bytes, alphabet: Alphabet, i: nat)
    requires i < 4 && data != []
    ensures Encode(data, alphabet)[i] == if i < LetterCount(|data|) then Letter(Sextet(data, i), alphabet) else PAD
  {
    GroupAt(data, alphabet, i);
  }

  /** The encoding is the sextets in letters, then padding. */
  lemma {:induction false} EncodeAt(data: Bytes, alphabet: Alphabet, i: nat)
    requires i < |Encode(data, alphabet)|
    ensures Encode(data, alphabet)[i] == if i < LetterCount(|data|) then Letter(Sextet(data, i), alphabet) else PAD
  {
    if i < 4 {
      FirstGroup(data, alphabet, i);
    } else {
      EncodeAt(data[3..], alphabet, i - 4);
      SextetAfterGroup(data, i);
      assert LetterCount(|data|) == LetterCount(|data| - 3) + 4;
    }
  }

  lemma {:induction false} StripsTo(s: Bytes, b: byte, n: nat)
    requires n <= |s|
    requires n > 0 ==> s[n - 1] != b
    requires forall i :: n <= i < |s| ==> s[i] == b
    ensures RightStripped(s, b) == s[..n]
  {
    if n < |s| {
      StripsTo(s[..|s| - 1], b, n);
      assert s[..|s| - 1][..n] == s[..n];
    } else {
      assert s[..n] == s;
    }
  }

  lemma StrippedIsLetters(data: Bytes, alphabet: Alphabet)
    ensures LetterCount(|data|) <= |Encode(data, alphabet)|
    ensures RightStripped(Encode(data, alphabet), PAD) == Encode(data, alphabet)[..LetterCount(|data|)]
  {
    var s, n := Encode(data, alphabet), LetterCount(|data|);
    assert n <= |s|;
    forall i | 0 <= i < |s| ensures s[i] == if i < n then Letter(Sextet(data, i), alphabet) else PAD {
      EncodeAt(data, alphabet, i);
    }
    StripsTo(s, PAD, n);
  }

  /** A sextet depends only on the bytes its bits lie in. */
  lemma SextetDepends(d: Bytes, e: Bytes, shift: nat, i: nat)
    requires forall k :: FirstByte(i) <= k <= LastByte(i) ==> At(d, k) == At(e, 3 * shift + k)
    ensures Sextet(d, i) == Sextet(e, 4 * shift + i)
  {
    assert (4 * shift + i) / 4 == shift + i / 4 && (4 * shift + i) % 4 == i % 4;
    var j := 3 * (i / 4);
    assert i == 4 * (i / 4) + i % 4;
    if i % 4 == 0 {
      assert FirstByte(i) == j == LastByte(i);
    } else if i % 4 == 1 {
      assert FirstByte(i) == j && LastByte(i) == j + 1;
    } else if i % 4 == 2 {
      assert FirstByte(i) == j + 1 && LastByte(i) == j + 2;
    } else {
      assert FirstByte(i) == j + 2 == LastByte(i);
    }
  }
}

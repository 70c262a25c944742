/** Network byte order, as Python's `to_bytes(width, 'big')` and `int.from_bytes(data, 'big')`. */
module BigEndian {
  import opened Prelude

  function Limit(width: nat): (n: nat)
    ensures n > 0
  {
    if width == 0 then 1 else 256 * Limit(width - 1)
  }

  lemma TwoBytes()
    ensures Limit(2) == 0x10000
  {
    assert Limit(0) == 1 && Limit(1) == 256;
  }

  lemma FourBytes()
    ensures Limit(4) == 0x1_0000_0000
  {
    TwoBytes();
    assert Limit(3) == 256 * Limit(2);
  }

  function ToBytes(n: nat, width: nat): (bytes: Bytes)
    requires n < Limit(width)
    ensures |bytes| == width
  {
    if width == 0 then []
    else ToBytes(n / 256, width - 1) + [(n % 256) as byte]
  }

  function FromBytes(bytes: Bytes): (n: nat)
    ensures n < Limit(|bytes|)
  {
    if bytes == [] then 0
    else 256 * FromBytes(bytes[..|bytes| - 1]) + bytes[|bytes| - 1] as nat
  }

  lemma {:induction false} RoundTrip(n: nat, width: nat)
    requires n < Limit(width)
    ensures FromBytes(ToBytes(n, width)) == n
  {
    if width > 0 {
      RoundTrip(n / 256, width - 1);
      assert ToBytes(n, width)[..width - 1] == ToBytes(n / 256, width - 1);
    }
  }

  lemma {:induction false} RoundTripBytes(bytes: Bytes)
    ensures ToBytes(FromBytes(bytes), |bytes|) == bytes
  {
    if bytes != [] {
      var init, last := bytes[..|bytes| - 1], bytes[|bytes| - 1];
      RoundTripBytes(init);
      assert FromBytes(bytes) / 256 == FromBytes(init) && FromBytes(bytes) % 256 == last as nat;
      assert bytes == init + [last];
    }
  }
}

/** The Internet checksum and the probe frames of scripts/a3-probe-fence.py (section 3.1 of RFC 791 and
    RFC 1071): one's complement sums by folding carries back in. */
module InternetChecksum {
  import opened Prelude
  import opened BigEndian

  function U16(n: nat): (bytes: Bytes)
    requires n < 0x10000
    ensures bytes == [(n / 256) as byte, (n % 256) as byte]
  {
    TwoBytes();
    assert ToBytes(n, 2) == ToBytes(n / 256, 1) + [(n % 256) as byte];
    assert ToBytes(n / 256, 1) == ToBytes(n / 256 / 256, 0) + [(n / 256 % 256) as byte];
    ToBytes(n, 2)
  }

  function U32(n: nat): (bytes: Bytes)
    requires n < 0x1_0000_0000
    ensures |bytes| == 4
  {
    FourBytes();
    ToBytes(n, 4)
  }

  /** The sum of the big-endian 16-bit words; an odd last byte is padded with zero. */
  function WordSum(data: Bytes): nat {
    if |data| == 0 then 0
    else if |data| == 1 then 256 * data[0] as nat
    else 256 * data[0] as nat + data[1] as nat + WordSum(data[2..])
  }

  /** A sum in one's complement: its residue modulo 65535, where a positive multiple is 65535, not 0. */
  function Folded(total: nat): (r: nat)
    ensures r <= 0xffff && (r == 0 <==> total == 0)
    ensures r % 0xffff == total % 0xffff
  {
    if total == 0 then 0
    else
      assert 1 + (total - 1) % 0xffff == 0xffff || (1 + (total - 1) % 0xffff) % 0xffff == 1 + (total - 1) % 0xffff;
      1 + (total - 1) % 0xffff
  }

  /** The one's complement of the one's complement sum. */
  function ChecksumOf(data: Bytes): nat {
    0xffff - Folded(WordSum(data))
  }

  /** Folding the carry once does not change the value in one's complement. */
  lemma FoldOnce(total: nat)
    requires total >= 0x10000
    ensures total % 0x10000 + total / 0x10000 < total
    ensures Folded(total % 0x10000 + total / 0x10000) == Folded(total)
  {
    var q, r := total / 0x10000, total % 0x10000;
    assert total - 1 == (r + q - 1) + q * 0xffff;
    ModMultiple(r + q - 1, q);
  }

  lemma ModMultiple(n: nat, q: nat)
    ensures (n + q * 0xffff) % 0xffff == n % 0xffff
  {
    var d := n / 0xffff;
    assert n + q * 0xffff == n % 0xffff + (d + q) * 0xffff;
  }

  lemma {:induction false} WordSumSplit(a: Bytes, b: Bytes)
    requires |a| % 2 == 0
    ensures WordSum(a + b) == WordSum(a) + WordSum(b)
  {
    if a == [] {
      assert a + b == b;
    } else {
      assert (a + b)[2..] == a[2..] + b;
      WordSumSplit(a[2..], b);
    }
  }

  /** `checksum`: pad, add up, fold until no carry is left, complement. */
  method Checksum(packet: Bytes) returns (sum: nat)
    ensures sum == ChecksumOf(packet)
  {
    var data := packet;
    if |data| % 2 == 1 {
      data := data + [0];
      PaddingAddsNothing(packet);
    }
    var total: nat, i := 0, 0;
    while i < |data|
      invariant i % 2 == 0 && 0 <= i <= |data|
      invariant total + WordSum(data[i..]) == WordSum(data)
    {
      assert data[i..][2..] == data[i + 2..];
      total := total + 256 * data[i] as nat + data[i + 1] as nat;
      i := i + 2;
    }
    assert total == WordSum(packet);
    total := FoldCarries(total);
    sum := 0xffff - total;
  }

  /** The folding loop ends, with the sum's value in one's complement. */
  method FoldCarries(sum: nat) returns (total: nat)
    ensures total == Folded(sum)
  {
    total := sum;
    while total / 0x10000 != 0
      invariant Folded(total) == Folded(sum)
      decreases total
    {
      FoldOnce(total);
      total := total % 0x10000 + total / 0x10000;
    }
  }

  lemma {:induction false} PaddingAddsNothing(data: Bytes)
    requires |data| % 2 == 1
    ensures WordSum(data + [0]) == WordSum(data)
  {
    if |data| > 1 {
      assert (data + [0])[2..] == data[2..] + [0];
      PaddingAddsNothing(data[2..]);
    }
  }

  /** The packet with a 16-bit word written at an offset. */
  function Insert(packet: Bytes, at: nat, word: nat): (p: Bytes)
    requires at + 2 <= |packet| && word < 0x10000
    ensures |p| == |packet|
  {
    packet[..at] + U16(word) + packet[at + 2..]
  }

  /** A word between two parts, the first of even length, adds its own value. */
  lemma WordBetween(before: Bytes, word: nat, after: Bytes)
    requires |before| % 2 == 0 && word < 0x10000
    ensures WordSum(before + (U16(word) + after)) == WordSum(before) + word + WordSum(after)
  {
    WordSumSplit(before, U16(word) + after);
    WordSumSplit(U16(word), after);
    WordSumOfWord(word);
  }

  lemma CutAtWord(packet: Bytes, at: nat, word: nat)
    requires at + 2 <= |packet| && packet[at] == 0 && packet[at + 1] == 0 && word < 0x10000
    ensures packet == packet[..at] + (U16(0) + packet[at + 2..])
    ensures Insert(packet, at, word) == packet[..at] + (U16(word) + packet[at + 2..])
  {
    assert packet[at..at + 2] == U16(0);
    assert packet[at..] == packet[at..at + 2] + packet[at + 2..];
  }

  lemma InsertedSum(packet: Bytes, at: nat, word: nat)
    requires at % 2 == 0 && at + 2 <= |packet| && packet[at] == 0 && packet[at + 1] == 0 && word < 0x10000
    ensures WordSum(Insert(packet, at, word)) == WordSum(packet) + word
  {
    var before, after := packet[..at], packet[at + 2..];
    CutAtWord(packet, at, word);
    WordBetween(before, 0, after);
    WordBetween(before, word, after);
  }

  lemma WordSumOfWord(word: nat)
    requires word < 0x10000
    ensures WordSum(U16(word)) == word
  {
    assert U16(word)[2..] == [];
  }

  lemma ComplementFolds(total: nat)
    ensures Folded(total + (0xffff - Folded(total))) == 0xffff
  {
    if total > 0 {
      var k := (total - 1) / 0xffff + 1;
      assert total + (0xffff - Folded(total)) == k * 0xffff;
      assert k * 0xffff - 1 == 0xfffe + (k - 1) * 0xffff;
      ModMultiple(0xfffe, k - 1);
    }
  }

  /** Inserting a packet's checksum over its zero checksum word makes the receiver's check come out zero,
      for every length, odd ones included, as long as the word is aligned. */
  lemma InsertedChecksumVerifies(packet: Bytes, at: nat)
    requires at % 2 == 0 && at + 2 <= |packet| && packet[at] == 0 && packet[at + 1] == 0
    ensures ChecksumOf(Insert(packet, at, ChecksumOf(packet))) == 0
  {
    InsertedSum(packet, at, ChecksumOf(packet));
    ComplementFolds(WordSum(packet));
  }

  /** A sum and a word fold to 0xffff exactly when the word is the complement of the folded sum, or both
      spell zero as 0xffff. */
  lemma FoldsToOnes(total: nat, word: nat)
    requires word < 0x10000
    ensures Folded(total + word) == 0xffff <==>
              word == 0xffff - Folded(total) || (word == 0xffff && Folded(total) == 0xffff)
  {
    if total > 0 {
      var d := (total - 1) / 0xffff;
      assert total + word == Folded(total) + word + d * 0xffff;
      ModMultiple(Folded(total) + word - 1, d);
      assert Folded(total + word) == Folded(Folded(total) + word);
    }
  }

  /** And nothing else does, with one exception: the receiver's check comes out zero for exactly the
      packet's checksum and, where that checksum is 0, also for its other spelling 0xffff. */
  lemma OnlyTheChecksumVerifies(packet: Bytes, at: nat, word: nat)
    requires at % 2 == 0 && at + 2 <= |packet| && packet[at] == 0 && packet[at + 1] == 0 && word < 0x10000
    ensures ChecksumOf(Insert(packet, at, word)) == 0 <==>
              word == ChecksumOf(packet) || (word == 0xffff && ChecksumOf(packet) == 0)
  {
    InsertedSum(packet, at, word);
    FoldsToOnes(WordSum(packet), word);
  }

  /** The exception does occur: over the word 0xffff, both 0 and 0xffff verify. */
  lemma TwoWordsVerify() returns (packet: Bytes)
    ensures |packet| == 4 && packet[2] == 0 && packet[3] == 0
    ensures ChecksumOf(Insert(packet, 2, 0)) == 0 && ChecksumOf(Insert(packet, 2, 0xffff)) == 0
  {
    packet := [255, 255, 0, 0];
    assert packet[2..][2..] == [];
    assert WordSum(packet) == 0xffff;
    OnlyTheChecksumVerifies(packet, 2, 0);
    OnlyTheChecksumVerifies(packet, 2, 0xffff);
  }

  /** The pseudo-header a TCP checksum also covers. */
  function Pseudo(source: Bytes, target: Bytes): (pseudo: Bytes)
    requires |source| == |target| && (|target| == 4 || |target| == 16)
    ensures |pseudo| % 2 == 0
  {
    source + target + if |target| == 4 then [0, 6] + U16(20) else U32(20) + [0, 0, 0, 6]
  }

  /** The SYN segment of one probe. */
  method MakeSegment(source: Bytes, target: Bytes, sequence: nat) returns (segment: Bytes)
    requires |source| == |target| && (|target| == 4 || |target| == 16) && sequence < 0x1_0000_0000
    ensures |segment| == 20 && segment[..4] == U16(49183) + U16(443) && segment[4..8] == U32(sequence)
    ensures ChecksumOf(Pseudo(source, target) + segment) == 0
  {
    var ports, rest := U16(49183) + U16(443), U32(0) + [80, 2] + U16(1024) + [0, 0] + U16(0);
    var tcp: Bytes := ports + U32(sequence) + rest;
    assert tcp[..4] == ports && tcp[4..8] == U32(sequence) && tcp[8..] == rest;
    var pseudo := Pseudo(source, target);
    var sum := Checksum(pseudo + tcp);
    segment := tcp[..16] + U16(sum) + tcp[18..];
    assert segment[..4] == tcp[..4] && segment[4..8] == tcp[4..8];
    InsertedChecksumVerifies(pseudo + tcp, |pseudo| + 16);
    InsertAfter(pseudo, tcp, 16, sum);
  }

  lemma InsertAfter(head: Bytes, packet: Bytes, at: nat, word: nat)
    requires at + 2 <= |packet| && word < 0x10000
    ensures Insert(head + packet, |head| + at, word) == head + Insert(packet, at, word)
  {
    var whole := head + packet;
    assert whole[..|head| + at] == head + packet[..at];
    assert whole[|head| + at + 2..] == packet[at + 2..];
  }

  method MakeHeader4(source: Bytes, target: Bytes, sequence: nat) returns (header: Bytes)
    requires |source| == |target| == 4
    ensures |header| == 20 && header[12..16] == source && header[16..20] == target
    ensures ChecksumOf(header) == 0
  {
    var fixed: Bytes := [0x45, 0] + U16(40) + U16(sequence % 0x10000) + U16(0x4000) + [32, 6, 0, 0];
    var zeroed := fixed + source + target;
    assert zeroed[12..16] == source && zeroed[16..] == target;
    var sum := Checksum(zeroed);
    header := zeroed[..10] + U16(sum) + zeroed[12..];
    assert header[12..] == zeroed[12..];
    InsertedChecksumVerifies(zeroed, 10);
  }

  /** The addresses and MACs are the fixed ones the script allows; `sequence` numbers the probe. */
  method MakeFrame(source: Bytes, target: Bytes, bridgeMac: Bytes, guestMac: Bytes, sequence: nat)
    returns (frame: Bytes)
    requires |source| == |target| && (|target| == 4 || |target| == 16)
    requires |bridgeMac| == |guestMac| == 6 && sequence < 0x1_0000_0000
    ensures |frame| == if |target| == 4 then 54 else 74
    ensures frame[..12] == bridgeMac + guestMac && frame[12..14] == U16(if |target| == 4 then 0x0800 else 0x86dd)
    ensures ChecksumOf(Pseudo(source, target) + frame[|frame| - 20..]) == 0
    ensures |target| == 4 ==> ChecksumOf(frame[14..34]) == 0
    ensures if |target| == 4 then frame[26..30] == source && frame[30..34] == target
            else frame[22..38] == source && frame[38..54] == target
  {
    var segment := MakeSegment(source, target, sequence);
    var header: Bytes, etherType := [], 0x86dd;
    if |target| == 4 {
      header := MakeHeader4(source, target, sequence);
      etherType := 0x0800;
    } else {
      header := U32(0x6000_0000) + U16(|segment|) + [6, 32] + source + target;
    }
    frame := bridgeMac + guestMac + U16(etherType) + header + segment;
    assert frame[14..|frame| - 20] == header && frame[|frame| - 20..] == segment;
    assert |target| == 4 ==> frame[26..30] == header[12..16] && frame[30..34] == header[16..20];
  }
}

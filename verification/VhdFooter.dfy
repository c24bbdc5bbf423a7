/** The checksum in the 512-byte footer of a fixed VHD, and the checks made before one is uploaded. */
module VhdFooter {
  import opened ByteStrings

  const FOOTER_SIZE: nat := 512
  const TWO32: nat := 0x1_0000_0000

  function Sum(s: seq<octet>): (n: nat)
    ensures n <= 255 * |s|
  {
    if s == [] then 0 else Sum(s[..|s| - 1]) + s[|s| - 1]
  }

  /** The number four or eight bytes stand for, most significant first. */
  function BigEndian(s: seq<octet>): (n: nat) {
    if s == [] then 0 else BigEndian(s[..|s| - 1]) * 256 + s[|s| - 1]
  }

  function ToBigEndian(n: nat, size: nat): (s: seq<octet>)
    ensures |s| == size
  {
    if size == 0 then [] else ToBigEndian(n / 256, size - 1) + [n % 256]
  }

  function Pow256(size: nat): nat {
    if size == 0 then 1 else 256 * Pow256(size - 1)
  }

  lemma {:induction false} BigEndianRoundTrip(n: nat, size: nat)
    requires n < Pow256(size)
    ensures BigEndian(ToBigEndian(n, size)) == n
  {
    if size > 0 {
      BigEndianRoundTrip(n / 256, size - 1);
      var s := ToBigEndian(n, size);
      assert s[..size - 1] == ToBigEndian(n / 256, size - 1);
    }
  }

  lemma {:induction false} BigEndianIsInjective(a: seq<octet>, b: seq<octet>)
    requires |a| == |b| && BigEndian(a) == BigEndian(b)
    ensures a == b
  {
    if a != [] {
      BigEndianIsInjective(a[..|a| - 1], b[..|b| - 1]);
      assert a == a[..|a| - 1] + [a[|a| - 1]] && b == b[..|b| - 1] + [b[|b| - 1]];
    }
  }

  lemma {:induction false} SumOfParts(a: seq<octet>, b: seq<octet>)
    ensures Sum(a + b) == Sum(a) + Sum(b)
  {
    if b == [] {
      assert a + b == a;
    } else {
      SumOfParts(a, b[..|b| - 1]);
      assert (a + b)[..|a + b| - 1] == a + b[..|b| - 1];
    }
  }

  /** All bytes but the checksum's own, which count as zero. */
  function Content(footer: seq<octet>): (s: seq<octet>)
    requires |footer| == FOOTER_SIZE
    ensures |s| == FOOTER_SIZE - 4
  {
    footer[..64] + footer[68..]
  }

  /** The checksum a footer has to carry: the complement of the sum, in 32 bits. */
  function Checksum(footer: seq<octet>): (n: nat)
    requires |footer| == FOOTER_SIZE
    ensures n < TWO32
  {
    TWO32 - 1 - Sum(Content(footer))
  }

  predicate Accepted(footer: seq<octet>)
    requires |footer| == FOOTER_SIZE
  {
    BigEndian(footer[64..68]) == Checksum(footer)
  }

  lemma SumWithoutChecksum(footer: seq<octet>, zeroed: seq<octet>)
    requires |footer| == FOOTER_SIZE && zeroed == footer[..64] + [0, 0, 0, 0] + footer[68..]
    ensures Sum(zeroed) == Sum(Content(footer))
  {
    var zeros: seq<octet> := [0, 0, 0, 0];
    SumOfParts(footer[..64], zeros);
    SumOfParts(footer[..64] + zeros, footer[68..]);
    SumOfParts(footer[..64], footer[68..]);
    ZerosSumToZero(zeros);
  }

  lemma {:induction false} ZerosSumToZero(s: seq<octet>)
    requires forall i :: 0 <= i < |s| ==> s[i] == 0
    ensures Sum(s) == 0
  {
    if s != [] {
      ZerosSumToZero(s[..|s| - 1]);
    }
  }

  /** The byte sum kept in a uint32: it never wraps around for a footer. */
  method Sum32(bytes: array<octet>) returns (sum: nat)
    requires bytes.Length == FOOTER_SIZE
    ensures sum == Sum(bytes[..]) < TWO32
  {
    sum := 0;
    for i := 0 to FOOTER_SIZE
      invariant sum == Sum(bytes[..i])
    {
      assert bytes[..i + 1][..i] == bytes[..i];
      sum := (sum + bytes[i]) % TWO32;
    }
    assert bytes[..FOOTER_SIZE] == bytes[..];
  }

  /**
   validateVHDFooterChecksum: on a copy whose checksum bytes are zeroed; the footer itself is left as it
   was.
   */
  method ValidateChecksum(footer: array<octet>) returns (ok: bool)
    requires footer.Length == FOOTER_SIZE
    ensures ok <==> Accepted(footer[..])
    ensures footer[..] == old(footer[..])
  {
    var got := BigEndian(footer[64..68]);
    var copyFooter := new octet[FOOTER_SIZE](i requires 0 <= i < FOOTER_SIZE reads footer => footer[i]);
    for i := 64 to 68
      invariant forall k :: 0 <= k < FOOTER_SIZE ==> copyFooter[k] == if 64 <= k < i then 0 else footer[k]
    {
      copyFooter[i] := 0;
    }
    assert copyFooter[..] == footer[..64] + [0, 0, 0, 0] + footer[68..];
    var sum := Sum32(copyFooter);
    SumWithoutChecksum(footer[..], copyFooter[..]);
    var want := TWO32 - 1 - sum;
    return got == want;
  }

  function WithChecksum(footer: seq<octet>): (s: seq<octet>)
    requires |footer| == FOOTER_SIZE
    ensures |s| == FOOTER_SIZE
  {
    footer[..64] + ToBigEndian(Checksum(footer), 4) + footer[68..]
  }

  lemma Four()
    ensures Pow256(4) == TWO32
  {
    assert Pow256(1) == 256 && Pow256(2) == 65536 && Pow256(3) == 16777216;
  }

  /** Writing the checksum always makes a footer accepted, and no other four bytes would do. */
  lemma AcceptedIffWritten(footer: seq<octet>)
    requires |footer| == FOOTER_SIZE
    ensures Accepted(WithChecksum(footer))
    ensures Accepted(footer) <==> footer == WithChecksum(footer)
  {
    Four();
    var bytes, written := ToBigEndian(Checksum(footer), 4), WithChecksum(footer);
    BigEndianRoundTrip(Checksum(footer), 4);
    assert Content(written) == Content(footer) && written[64..68] == bytes;
    if Accepted(footer) {
      BigEndianIsInjective(footer[64..68], bytes);
      assert footer == footer[..64] + footer[64..68] + footer[68..];
    }
  }

  lemma SumOfChanged(s: seq<octet>, i: nat, b: octet)
    requires i < |s|
    ensures Sum(s[i := b]) == Sum(s) - s[i] + b
  {
    assert s == s[..i] + ([s[i]] + s[i + 1..]) && s[i := b] == s[..i] + ([b] + s[i + 1..]);
    SumOfParts(s[..i], [s[i]] + s[i + 1..]);
    SumOfParts(s[..i], [b] + s[i + 1..]);
    SumOfParts([s[i]], s[i + 1..]);
    SumOfParts([b], s[i + 1..]);
    assert [s[i]][..0] == [] && [b][..0] == [];
  }

  /** A footer that is accepted is rejected after any change of exactly one byte. */
  lemma OneByteChangeIsRejected(footer: seq<octet>, i: nat, b: octet)
    requires |footer| == FOOTER_SIZE && Accepted(footer) && i < FOOTER_SIZE && b != footer[i]
    ensures !Accepted(footer[i := b])
  {
    var changed := footer[i := b];
    if 64 <= i < 68 {
      assert Content(changed) == Content(footer);
      assert changed[64..68][i - 64] != footer[64..68][i - 64];
      if BigEndian(changed[64..68]) == BigEndian(footer[64..68]) {
        BigEndianIsInjective(changed[64..68], footer[64..68]);
      }
    } else {
      var k := if i < 64 then i else i - 4;
      assert Content(changed) == Content(footer)[k := b];
      SumOfChanged(Content(footer), k, b);
      assert changed[64..68] == footer[64..68];
    }
  }

  const COOKIE: seq<octet> := [99, 111, 110, 101, 99, 116, 105, 120]
  const FIXED: nat := 2

  /** What validateFixedVHD accepts as the footer of `size` bytes of disk. */
  predicate FooterFits(footer: seq<octet>, size: nat)
    requires |footer| == FOOTER_SIZE
  {
    && footer[..8] == COOKIE && BigEndian(footer[60..64]) == FIXED && BigEndian(footer[48..56]) == size
    && Accepted(footer)
  }

  /** What validateFixedVHD accepts as a whole file. */
  predicate FixedVHD(file: seq<octet>) {
    |file| > FOOTER_SIZE && |file| % 512 == 0 && FooterFits(file[|file| - FOOTER_SIZE..], |file| - FOOTER_SIZE)
  }

  /** validateFixedVHD, with the footer read into a buffer of its own. */
  method ValidateFixedVHD(file: seq<octet>) returns (ok: bool)
    ensures ok <==> FixedVHD(file)
  {
    if |file| < FOOTER_SIZE || |file| % 512 != 0 {
      return false;
    }
    var start := |file| - FOOTER_SIZE;
    var footer := new octet[FOOTER_SIZE](i requires 0 <= i < FOOTER_SIZE => file[start + i]);
    assert footer[..] == file[start..];
    if footer[..8] != COOKIE || BigEndian(footer[60..64]) != FIXED {
      return false;
    }
    var currentSize := BigEndian(footer[48..56]);
    if currentSize == 0 || currentSize != start {
      return false;
    }
    ok := ValidateChecksum(footer);
  }

  /** A footer for `size` bytes of disk; the fields no check looks at are taken from `other`. */
  function FooterFor(size: nat, other: seq<octet>): (footer: seq<octet>)
    requires |other| == FOOTER_SIZE
    ensures |footer| == FOOTER_SIZE
  {
    WithChecksum(COOKIE + other[8..48] + ToBigEndian(size, 8) + other[56..60] + ToBigEndian(FIXED, 4) + other[64..])
  }

  lemma FooterFields(size: nat, other: seq<octet>)
    requires |other| == FOOTER_SIZE
    ensures var footer := FooterFor(size, other);
      && footer[..8] == COOKIE && footer[48..56] == ToBigEndian(size, 8) && footer[60..64] == ToBigEndian(FIXED, 4)
      && Accepted(footer)
  {
    var fields := COOKIE + other[8..48] + ToBigEndian(size, 8) + other[56..60] + ToBigEndian(FIXED, 4) + other[64..];
    AcceptedIffWritten(fields);
    assert FooterFor(size, other)[..64] == fields[..64];
    assert fields[..8] == COOKIE && fields[48..56] == ToBigEndian(size, 8) && fields[60..64] == ToBigEndian(FIXED, 4);
  }

  lemma FooterReadsBack(size: nat, other: seq<octet>)
    requires |other| == FOOTER_SIZE && size < Pow256(8)
    ensures FooterFits(FooterFor(size, other), size)
  {
    Four();
    FooterFields(size, other);
    BigEndianRoundTrip(size, 8);
    BigEndianRoundTrip(FIXED, 4);
  }

  lemma AppendedFooterFits(disk: seq<octet>, footer: seq<octet>)
    requires |footer| == FOOTER_SIZE && 0 < |disk| && |disk| % 512 == 0 && FooterFits(footer, |disk|)
    ensures FixedVHD(disk + footer)
  {
    assert (disk + footer)[|disk|..] == footer;
  }

  /** Every disk image of whole sectors becomes an accepted file by appending its footer. */
  lemma AppendedFooterIsAccepted(disk: seq<octet>, other: seq<octet>)
    requires |other| == FOOTER_SIZE && 0 < |disk| < Pow256(8) && |disk| % 512 == 0
    ensures FixedVHD(disk + FooterFor(|disk|, other))
  {
    FooterReadsBack(|disk|, other);
    AppendedFooterFits(disk, FooterFor(|disk|, other));
  }

  /** An accepted file is rejected once any single byte of its footer changes. */
  lemma DamagedFooterIsRejected(file: seq<octet>, i: nat, b: octet)
    requires FixedVHD(file) && |file| - FOOTER_SIZE <= i < |file| && b != file[i]
    ensures !FixedVHD(file[i := b])
  {
    var start := |file| - FOOTER_SIZE;
    assert file[i := b][start..] == file[start..][i - start := b];
    OneByteChangeIsRejected(file[start..], i - start, b);
  }
}

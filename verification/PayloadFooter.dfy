// The 64-byte footer behind the payload of the installer executable.
module PayloadFooter {
  import opened Octets

  const FOOTER_SIZE := 64
  const FORMAT := 1
  const MAGIC: seq<byte> := [0x59, 0x41, 0x4E, 0x41, 0x4D, 0x49, 0x5F, 0x53,
                             0x45, 0x54, 0x55, 0x50, 0x5F, 0x56, 0x31, 0x00]
  const U64 := 0x1_0000_0000_0000_0000

  datatype Metadata = Metadata(offset: nat, size: nat, sha256: seq<byte>, format: nat)

  datatype FooterError =
    | InvalidSize
    | MagicMissing
    | FormatUnsupported
    | LengthInvalid
    | PayloadEmpty
    | OutOfBounds

  datatype Parsed = Accepted(metadata: Metadata) | Refused(error: FooterError)

  // ------------------------------------------------------- little-endian numbers

  function Power(n: nat): (p: nat)
    ensures p > 0
  {
    if n == 0 then 1 else 256 * Power(n - 1)
  }

  function Number(s: seq<byte>): nat {
    if s == [] then 0 else s[0] + 256 * Number(s[1..])
  }

  function Bytes(value: nat, n: nat): (s: seq<byte>)
    ensures |s| == n
  {
    if n == 0 then [] else [value % 256] + Bytes(value / 256, n - 1)
  }

  // value shifted right by n bytes.
  function Shifted(value: nat, n: nat): nat {
    if n == 0 then value else Shifted(value / 256, n - 1)
  }

  lemma {:induction false} BytesAt(value: nat, n: nat, i: nat)
    requires i < n
    ensures Bytes(value, n)[i] == Shifted(value, i) % 256
  {
    if i > 0 {
      BytesAt(value / 256, n - 1, i - 1);
    }
  }

  lemma {:induction false} NumberOfBytes(value: nat, n: nat)
    requires value < Power(n)
    ensures Number(Bytes(value, n)) == value
  {
    if n > 0 {
      NumberOfBytes(value / 256, n - 1);
      assert Bytes(value, n)[1..] == Bytes(value / 256, n - 1);
    }
  }

  lemma {:induction false} BytesOfNumber(s: seq<byte>)
    ensures Number(s) < Power(|s|) && Bytes(Number(s), |s|) == s
  {
    if s != [] {
      BytesOfNumber(s[1..]);
      assert Number(s) / 256 == Number(s[1..]) && Number(s) % 256 == s[0];
    }
  }

  lemma {:induction false} NumberOfMore(s: seq<byte>, x: byte)
    ensures Number(s + [x]) == Number(s) + x * Power(|s|)
  {
    if s == [] {
      assert s + [x] == [x];
    } else {
      NumberOfMore(s[1..], x);
      assert (s + [x])[1..] == s[1..] + [x];
      Scale(x, Power(|s| - 1));
    }
  }

  lemma Scale(x: int, p: int)
    ensures x * (256 * p) == 256 * (x * p)
  {
  }

  lemma Powers()
    ensures Power(4) == 0x1_0000_0000 && Power(8) == U64
  {
    assert Power(2) == 65536;
    assert Power(4) == 256 * (256 * Power(2));
    assert Power(6) == 256 * (256 * Power(4));
    assert Power(8) == 256 * (256 * Power(6));
  }

  // readLe32 and readLe64; the shifted bytes do not overlap, so that or is sum.
  method ReadLe(data: array<byte>, at: nat, n: nat) returns (result: nat)
    requires at + n <= data.Length
    ensures result == Number(data[at..at + n])
  {
    result := 0;
    var index := 0;
    while index < n
      invariant 0 <= index <= n && result == Number(data[at..at + index])
    {
      assert data[at..at + index + 1] == data[at..at + index] + [data[at + index]];
      NumberOfMore(data[at..at + index], data[at + index]);
      result := result + data[at + index] * Power(index);
      index := index + 1;
    }
  }

  // writeLe32 and writeLe64.
  method WriteLe(destination: array<byte>, at: nat, n: nat, value: nat)
    requires at + n <= destination.Length
    modifies destination
    ensures destination[at..at + n] == Bytes(value, n)
    ensures destination[..at] == old(destination[..at]) && destination[at + n..] == old(destination[at + n..])
  {
    var index := 0;
    while index < n
      invariant 0 <= index <= n
      invariant forall i :: 0 <= i < index ==> destination[at + i] == Bytes(value, n)[i]
      invariant destination[..at] == old(destination[..at]) && destination[at + n..] == old(destination[at + n..])
    {
      BytesAt(value, n, index);
      destination[at + index] := Shifted(value, index) % 256;
      index := index + 1;
    }
  }

  // ------------------------------------------------------------ printer and parser

  function Footer(size: nat, sha256: seq<byte>): (footer: seq<byte>) {
    MAGIC + Bytes(size, 8) + sha256 + Bytes(FORMAT, 4) + Bytes(FOOTER_SIZE, 4)
  }

  method SerializeFooter(size: nat, sha256: seq<byte>) returns (footer: array<byte>)
    requires size < U64 && |sha256| == 32
    ensures fresh(footer) && footer[..] == Footer(size, sha256)
  {
    footer := new byte[FOOTER_SIZE](i => 0);
    forall i | 0 <= i < 16 {
      footer[i] := MAGIC[i];
    }
    assert footer[..16] == MAGIC;
    WriteLe(footer, 16, 8, size);
    assert footer[..24] == footer[..16] + footer[16..24];
    ghost var front := footer[..24];
    forall i | 0 <= i < 32 {
      footer[24 + i] := sha256[i];
    }
    assert footer[..24] == front && footer[24..56] == sha256;
    assert footer[..56] == front + sha256;
    WriteLe(footer, 56, 4, FORMAT);
    assert footer[..60] == footer[..56] + footer[56..60];
    WriteLe(footer, 60, 4, FOOTER_SIZE);
    assert footer[..] == footer[..60] + footer[60..64];
  }

  function Parse(footer: seq<byte>, fileSize: nat): Parsed {
    if |footer| != FOOTER_SIZE then Refused(InvalidSize)
    else if footer[..16] != MAGIC then Refused(MagicMissing)
    else if Number(footer[56..60]) != FORMAT then Refused(FormatUnsupported)
    else if Number(footer[60..64]) != FOOTER_SIZE then Refused(LengthInvalid)
    else
      var size := Number(footer[16..24]);
      if size == 0 then Refused(PayloadEmpty)
      else if fileSize < FOOTER_SIZE || size > fileSize - FOOTER_SIZE then Refused(OutOfBounds)
      else Accepted(Metadata(fileSize - FOOTER_SIZE - size, size, footer[24..56], FORMAT))
  }

  method ParseFooter(footer: array<byte>, fileSize: nat) returns (r: Parsed)
    requires fileSize < U64
    ensures r == Parse(footer[..], fileSize)
  {
    if footer.Length != FOOTER_SIZE {
      return Refused(InvalidSize);
    }
    ghost var s := footer[..];
    assert s[..16] == footer[..16] && s[16..24] == footer[16..24] && s[24..56] == footer[24..56]
           && s[56..60] == footer[56..60] && s[60..64] == footer[60..64];
    if footer[..16] != MAGIC {
      return Refused(MagicMissing);
    }
    var payloadSize := ReadLe(footer, 16, 8);
    var format := ReadLe(footer, 56, 4);
    var footerSize := ReadLe(footer, 60, 4);
    if format != FORMAT {
      return Refused(FormatUnsupported);
    }
    if footerSize != FOOTER_SIZE {
      return Refused(LengthInvalid);
    }
    if payloadSize == 0 {
      return Refused(PayloadEmpty);
    }
    if fileSize < FOOTER_SIZE || payloadSize > fileSize - FOOTER_SIZE {
      return Refused(OutOfBounds);
    }
    return Accepted(Metadata(fileSize - FOOTER_SIZE - payloadSize, payloadSize, footer[24..56], format));
  }

  lemma FooterParts(size: nat, sha256: seq<byte>)
    requires |sha256| == 32
    ensures var f := Footer(size, sha256);
            && |f| == FOOTER_SIZE && f[..16] == MAGIC && f[16..24] == Bytes(size, 8) && f[24..56] == sha256
            && f[56..60] == Bytes(FORMAT, 4) && f[60..64] == Bytes(FOOTER_SIZE, 4)
  {
    Fields(MAGIC, Bytes(size, 8), sha256, Bytes(FORMAT, 4), Bytes(FOOTER_SIZE, 4));
  }

  lemma Fields(a: seq<byte>, b: seq<byte>, c: seq<byte>, d: seq<byte>, e: seq<byte>)
    requires |a| == 16 && |b| == 8 && |c| == 32 && |d| == |e| == 4
    ensures var f := a + b + c + d + e;
            f[..16] == a && f[16..24] == b && f[24..56] == c && f[56..60] == d && f[60..64] == e
  {
  }

  // A printed footer is accepted exactly when the payload is not empty and fits
  // into the file in front of the footer, and then nothing is lost.
  lemma ParsePrinted(size: nat, sha256: seq<byte>, fileSize: nat)
    requires size < U64 && |sha256| == 32
    ensures Parse(Footer(size, sha256), fileSize)
         == if size == 0 then Refused(PayloadEmpty)
            else if size + FOOTER_SIZE > fileSize then Refused(OutOfBounds)
            else Accepted(Metadata(fileSize - FOOTER_SIZE - size, size, sha256, FORMAT))
  {
    FooterParts(size, sha256);
    Powers();
    NumberOfBytes(size, 8);
    NumberOfBytes(FORMAT, 4);
    NumberOfBytes(FOOTER_SIZE, 4);
  }

  // An accepted footer is the printed form of what it was parsed to, and the
  // payload and the footer end at the end of the file.
  lemma PrintAccepted(footer: seq<byte>, fileSize: nat)
    requires Parse(footer, fileSize).Accepted?
    ensures var m := Parse(footer, fileSize).metadata;
            && Footer(m.size, m.sha256) == footer && |m.sha256| == 32
            && 0 < m.size < U64 && m.offset + m.size + FOOTER_SIZE == fileSize
  {
    var m := Parse(footer, fileSize).metadata;
    Field(footer[16..24], m.size);
    Field(footer[56..60], FORMAT);
    Field(footer[60..64], FOOTER_SIZE);
    Powers();
    Cut(footer);
  }

  lemma Field(s: seq<byte>, value: nat)
    requires Number(s) == value
    ensures Bytes(value, |s|) == s && value < Power(|s|)
  {
    BytesOfNumber(s);
  }

  lemma Cut(footer: seq<byte>)
    requires |footer| == FOOTER_SIZE
    ensures footer == footer[..16] + footer[16..24] + footer[24..56] + footer[56..60] + footer[60..64]
  {
  }

  // The text that a footer begins with, and whether one does.
  const MAGIC_TEXT := "YANAMI_SETUP_V1\0"

  predicate HasMagic(footer: seq<byte>) {
    |footer| >= 16 && forall i :: 0 <= i < 16 ==> footer[i] as int == MAGIC_TEXT[i] as int
  }

  lemma MagicSpelled(footer: seq<byte>)
    requires |footer| >= 16
    ensures HasMagic(footer) <==> footer[..16] == MAGIC
  {
    var s := footer[..16];
    assert MAGIC_TEXT[0] == 'Y' && MAGIC_TEXT[1] == 'A' && MAGIC_TEXT[2] == 'N' && MAGIC_TEXT[3] == 'A';
    assert MAGIC_TEXT[4] == 'M' && MAGIC_TEXT[5] == 'I' && MAGIC_TEXT[6] == '_' && MAGIC_TEXT[7] == 'S';
    assert MAGIC_TEXT[8] == 'E' && MAGIC_TEXT[9] == 'T' && MAGIC_TEXT[10] == 'U' && MAGIC_TEXT[11] == 'P';
    assert MAGIC_TEXT[12] == '_' && MAGIC_TEXT[13] == 'V' && MAGIC_TEXT[14] == '1' && MAGIC_TEXT[15] == '\0';
    assert forall i :: 0 <= i < 16 ==> MAGIC[i] as int == MAGIC_TEXT[i] as int;
    assert forall i :: 0 <= i < 16 ==> footer[i] == s[i];
    if HasMagic(footer) {
      assert forall i :: 0 <= i < 16 ==> s[i] == MAGIC[i];
    }
  }

  lemma NumberIs(s: seq<byte>, t: seq<byte>)
    requires |s| == |t|
    ensures Number(s) == Number(t) <==> s == t
  {
    BytesOfNumber(s);
    BytesOfNumber(t);
  }

  // The errors in their order: each footer that has the wrong length, the wrong
  // beginning, another format than 1 or another length written in it than 64, no
  // payload, or one that does not fit, is refused for the first of these.
  lemma RefusedForTheFirst(footer: seq<byte>, fileSize: nat)
    ensures var r := Parse(footer, fileSize);
            if |footer| != 64 then r == Refused(InvalidSize)
            else if !HasMagic(footer) then r == Refused(MagicMissing)
            else if footer[56..60] != [1, 0, 0, 0] then r == Refused(FormatUnsupported)
            else if footer[60..64] != [64, 0, 0, 0] then r == Refused(LengthInvalid)
            else if footer[16..24] == [0, 0, 0, 0, 0, 0, 0, 0] then r == Refused(PayloadEmpty)
            else if Number(footer[16..24]) + 64 > fileSize then r == Refused(OutOfBounds)
            else r == Accepted(Metadata(fileSize - 64 - Number(footer[16..24]), Number(footer[16..24]),
                                        footer[24..56], 1))
  {
    if |footer| == 64 {
      MagicSpelled(footer);
      NumberIs(footer[56..60], [1, 0, 0, 0]);
      NumberIs(footer[60..64], [64, 0, 0, 0]);
      NumberIs(footer[16..24], [0, 0, 0, 0, 0, 0, 0, 0]);
      SmallNumbers();
    }
  }

  lemma SmallNumbers()
    ensures Number([1, 0, 0, 0]) == 1 && Number([64, 0, 0, 0]) == 64
    ensures Number([0, 0, 0, 0, 0, 0, 0, 0]) == 0
  {
    NoughtIsNought([0, 0, 0]);
    NoughtIsNought([0, 0, 0, 0, 0, 0, 0, 0]);
    assert [1, 0, 0, 0][1..] == [0, 0, 0] && [64, 0, 0, 0][1..] == [0, 0, 0];
  }

  lemma {:induction false} NoughtIsNought(s: seq<byte>)
    requires forall i :: 0 <= i < |s| ==> s[i] == 0
    ensures Number(s) == 0
  {
    if s != [] {
      NoughtIsNought(s[1..]);
    }
  }

  // So no two payloads share a footer.
  lemma FooterInjective(size: nat, sha256: seq<byte>, size': nat, sha256': seq<byte>)
    requires size < U64 && size' < U64 && |sha256| == |sha256'| == 32
    requires Footer(size, sha256) == Footer(size', sha256')
    ensures size == size' && sha256 == sha256'
  {
    FooterParts(size, sha256);
    FooterParts(size', sha256');
    Powers();
    NumberOfBytes(size, 8);
    NumberOfBytes(size', 8);
  }
}

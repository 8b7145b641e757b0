// UTF-8 (section 3 of RFC 3629) over Unicode scalar values, with the decoder's
// treatment of an incomplete sequence at the end: it waits for the rest.
module Utf8 {
  import opened Octets
  import opened Options

  function EncodeChar(c: char): (s: seq<byte>)
    ensures 1 <= |s| <= 4
  {
    var n := c as int;
    if n < 0x80 then [n]
    else if n < 0x800 then [0xC0 + n / 64, 0x80 + n % 64]
    else if n < 0x1_0000 then [0xE0 + n / 4096, 0x80 + n / 64 % 64, 0x80 + n % 64]
    else [0xF0 + n / 262144, 0x80 + n / 4096 % 64, 0x80 + n / 64 % 64, 0x80 + n % 64]
  }

  function Encode(s: string): seq<byte> {
    if s == "" then [] else EncodeChar(s[0]) + Encode(s[1..])
  }

  predicate IsContinuation(b: byte) {
    0x80 <= b < 0xC0
  }

  // Bytes a sequence has, by its first byte; 0 for a byte that starts none.
  function Needed(b: byte): (n: nat)
    ensures n <= 4
  {
    if b < 0x80 then 1
    else if b < 0xC2 then 0
    else if b < 0xE0 then 2
    else if b < 0xF0 then 3
    else if b < 0xF5 then 4
    else 0
  }

  // The number a complete sequence stands for.
  function Number(s: seq<byte>, n: nat): int
    requires 1 <= n <= 4 && n <= |s|
  {
    var a := s[0] as int;
    if n == 1 then a
    else
      var b := s[1] as int - 0x80;
      if n == 2 then (a - 0xC0) * 64 + b
      else
        var c := s[2] as int - 0x80;
        if n == 3 then (a - 0xE0) * 4096 + b * 64 + c
        else (a - 0xF0) * 262144 + b * 4096 + c * 64 + (s[3] as int - 0x80)
  }

  function Least(n: nat): int {
    if n <= 1 then 0 else if n == 2 then 0x80 else if n == 3 then 0x800 else 0x1_0000
  }

  predicate IsScalar(n: int) {
    0 <= n < 0xD800 || 0xE000 <= n < 0x11_0000
  }

  datatype First = Complete(c: char, length: nat) | Incomplete | Malformed

  function DecodeFirst(s: seq<byte>): (f: First)
    requires s != []
    ensures f.Complete? ==> 1 <= f.length <= |s|
  {
    var n := Needed(s[0]);
    var available := if n < |s| then n else |s|;
    if n == 0 || (exists i :: 1 <= i < available && !IsContinuation(s[i])) then Malformed
    else if |s| < n then Incomplete
    else
      var number := Number(s, n);
      if number < Least(n) || !IsScalar(number) then Malformed else Complete(number as char, n)
  }

  // None when the decoder reports an error; what is still incomplete at the end
  // is not part of the text.
  function Decode(s: seq<byte>): Option<string>
    decreases |s|
  {
    if s == [] then Some("")
    else match DecodeFirst(s)
      case Malformed => None
      case Incomplete => Some("")
      case Complete(c, n) =>
        match Decode(s[n..])
        case None => None
        case Some(rest) => Some([c] + rest)
  }

  lemma TwoBytes(n: int)
    requires 0x80 <= n < 0x800
    ensures 0xC2 <= 0xC0 + n / 64 < 0xE0 && IsContinuation(0x80 + n % 64)
    ensures (n / 64) * 64 + n % 64 == n
  {
  }

  lemma ThreeBytes(n: int)
    requires 0x800 <= n < 0x1_0000
    ensures 0xE0 <= 0xE0 + n / 4096 < 0xF0
    ensures IsContinuation(0x80 + n / 64 % 64) && IsContinuation(0x80 + n % 64)
    ensures (n / 4096) * 4096 + (n / 64 % 64) * 64 + n % 64 == n
  {
    assert n / 64 / 64 == n / 4096;
  }

  lemma FourBytes(n: int)
    requires 0x1_0000 <= n < 0x11_0000
    ensures 0xF0 <= 0xF0 + n / 262144 < 0xF5
    ensures IsContinuation(0x80 + n / 4096 % 64) && IsContinuation(0x80 + n / 64 % 64) && IsContinuation(0x80 + n % 64)
    ensures (n / 262144) * 262144 + (n / 4096 % 64) * 4096 + (n / 64 % 64) * 64 + n % 64 == n
  {
    assert n / 64 / 64 == n / 4096 && n / 4096 / 64 == n / 262144;
  }

  lemma DecodeFirstOfChar(c: char, rest: seq<byte>)
    ensures DecodeFirst(EncodeChar(c) + rest) == Complete(c, |EncodeChar(c)|)
  {
    var n := c as int;
    var s := EncodeChar(c) + rest;
    assert IsScalar(n);
    assert forall i :: 0 <= i < |EncodeChar(c)| ==> s[i] == EncodeChar(c)[i];
    if 0x80 <= n < 0x800 {
      TwoBytes(n);
    } else if 0x800 <= n < 0x1_0000 {
      ThreeBytes(n);
    } else if 0x1_0000 <= n {
      FourBytes(n);
    }
  }

  lemma {:induction false} DecodeEncode(s: string)
    ensures Decode(Encode(s)) == Some(s)
  {
    if s != "" {
      var all := Encode(s);
      DecodeFirstOfChar(s[0], Encode(s[1..]));
      DecodeEncode(s[1..]);
      assert all[|EncodeChar(s[0])|..] == Encode(s[1..]);
      assert [s[0]] + s[1..] == s;
    }
  }

  lemma EncodeInjective(s: string, t: string)
    requires Encode(s) == Encode(t)
    ensures s == t
  {
    DecodeEncode(s);
    DecodeEncode(t);
  }

  // The beginning of a sequence that lacks its end.
  predicate IsCut(tail: seq<byte>) {
    tail == []
    || (&& 0xC2 <= tail[0] <= 0xF4
        && |tail| < (if tail[0] <= 0xDF then 2 else if tail[0] <= 0xEF then 3 else 4)
        && forall i :: 1 <= i < |tail| ==> 0x80 <= tail[i] <= 0xBF)
  }

  lemma SplitDigits(a: int, b: int)
    requires 0 <= b < 64
    ensures (64 * a + b) / 64 == a && (64 * a + b) % 64 == b
  {
  }

  lemma CompleteIsEncoded(s: seq<byte>)
    requires s != [] && DecodeFirst(s).Complete?
    ensures EncodeChar(DecodeFirst(s).c) == s[..DecodeFirst(s).length]
  {
    var n := Needed(s[0]);
    assert forall i :: 1 <= i < n ==> IsContinuation(s[i]);
    var number := Number(s, n);
    assert (number as char) as int == number;
    if n == 2 {
      assert IsContinuation(s[1]);
      SplitDigits(s[0] as int - 0xC0, s[1] as int - 0x80);
    } else if n == 3 {
      assert IsContinuation(s[1]) && IsContinuation(s[2]);
      SplitDigits(64 * (s[0] as int - 0xE0) + (s[1] as int - 0x80), s[2] as int - 0x80);
      SplitDigits(s[0] as int - 0xE0, s[1] as int - 0x80);
      assert number / 64 / 64 == number / 4096;
    } else if n == 4 {
      assert IsContinuation(s[1]) && IsContinuation(s[2]) && IsContinuation(s[3]);
      var a, b := s[0] as int - 0xF0, s[1] as int - 0x80;
      SplitDigits(64 * (64 * a + b) + (s[2] as int - 0x80), s[3] as int - 0x80);
      SplitDigits(64 * a + b, s[2] as int - 0x80);
      SplitDigits(a, b);
      assert number / 64 / 64 == number / 4096 && number / 4096 / 64 == number / 262144;
    }
  }

  lemma CutIsIncomplete(s: seq<byte>)
    requires s != []
    ensures DecodeFirst(s).Incomplete? <==> IsCut(s)
  {
  }

  lemma DecodeStep(s: seq<byte>)
    requires s != [] && DecodeFirst(s).Complete? && Decode(s).Some?
    ensures var f := DecodeFirst(s);
            Decode(s[f.length..]).Some? && Decode(s).value == [f.c] + Decode(s[f.length..]).value
  {
  }

  lemma Joined(s: seq<byte>, n: nat, a: seq<byte>, b: seq<byte>, c: seq<byte>)
    requires n <= |s| && s[..n] == a && s[n..] == b + c
    ensures s == a + b + c
  {
    assert s == s[..n] + s[n..];
  }

  lemma {:induction false} AcceptedIsEncoded(s: seq<byte>) returns (tail: seq<byte>)
    requires Decode(s).Some?
    ensures s == Encode(Decode(s).value) + tail && IsCut(tail)
    decreases |s|
  {
    tail := s;
    if s != [] {
      CutIsIncomplete(s);
      if DecodeFirst(s).Complete? {
        var f := DecodeFirst(s);
        DecodeStep(s);
        CompleteIsEncoded(s);
        var rest := Decode(s[f.length..]).value;
        tail := AcceptedIsEncoded(s[f.length..]);
        EncodeMore(f.c, rest);
        Joined(s, f.length, EncodeChar(f.c), Encode(rest), tail);
      }
    }
  }

  lemma EncodeMore(c: char, rest: string)
    ensures Encode([c] + rest) == EncodeChar(c) + Encode(rest)
  {
    assert ([c] + rest)[1..] == rest;
  }

  lemma {:induction false} CutIsLeftOut(t: string, tail: seq<byte>)
    requires IsCut(tail)
    ensures Decode(Encode(t) + tail) == Some(t)
  {
    if t == "" {
      assert Encode(t) + tail == tail;
      if tail != [] {
        CutIsIncomplete(tail);
      }
    } else {
      var rest := Encode(t[1..]) + tail;
      assert Encode(t) + tail == EncodeChar(t[0]) + rest;
      DecodeFirstOfChar(t[0], rest);
      assert (EncodeChar(t[0]) + rest)[|EncodeChar(t[0])|..] == rest;
      CutIsLeftOut(t[1..], tail);
      assert [t[0]] + t[1..] == t;
    }
  }

  // Bytes are decoded to a text exactly if they are its encoding, and perhaps the
  // beginning of one more character; nothing else is accepted.
  lemma DecodedExactly(s: seq<byte>, t: string)
    ensures Decode(s) == Some(t) <==> exists tail :: IsCut(tail) && s == Encode(t) + tail
  {
    if Decode(s) == Some(t) {
      var tail := AcceptedIsEncoded(s);
    }
    if tail :| IsCut(tail) && s == Encode(t) + tail {
      CutIsLeftOut(t, tail);
    }
  }
}

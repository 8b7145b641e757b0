// QString::arg: each call replaces the lowest-numbered place marker of the text
// it finds, wherever that came from.
module PlaceMarkers {
  import opened Decimal

  const NO_MARKER: nat := 100

  // The character at i; past the end a dot stands in, which ends a marker as
  // the end of the text does.
  function At(s: string, i: nat): char {
    if i < |s| then s[i] else '.'
  }

  // Index of the first digit of a place marker: %n or %nn, or %Ln or %Lnn.
  function DigitIndex(s: string): (k: nat)
    ensures 1 <= k <= 2
  {
    if At(s, 1) == 'L' then 2 else 1
  }

  // Length of the place marker at the start of s, or 0.
  function MarkerLength(s: string): (n: nat)
    ensures n <= |s|
  {
    var k := DigitIndex(s);
    if At(s, 0) != '%' || !IsDigit(At(s, k)) then 0
    else if !IsDigit(At(s, k + 1)) then k + 1
    else k + 2
  }

  function MarkerNumber(s: string): (n: nat)
    requires MarkerLength(s) > 0
    ensures n < NO_MARKER
  {
    var k := DigitIndex(s);
    var first := At(s, k) as int - '0' as int;
    if IsDigit(At(s, k + 1)) then 10 * first + (At(s, k + 1) as int - '0' as int) else first
  }

  function Min(a: nat, b: nat): nat {
    if a < b then a else b
  }

  function LowestMarker(s: string): nat {
    if s == "" then NO_MARKER
    else if MarkerLength(s) > 0 then Min(MarkerNumber(s), LowestMarker(s[MarkerLength(s)..]))
    else LowestMarker(s[1..])
  }

  function Replace(s: string, marker: nat, text: string): string {
    if s == "" then ""
    else if MarkerLength(s) > 0 then
      (if MarkerNumber(s) == marker then text else s[..MarkerLength(s)])
      + Replace(s[MarkerLength(s)..], marker, text)
    else [s[0]] + Replace(s[1..], marker, text)
  }

  // QString::arg; a text without a marker is left as it is.
  function Arg(s: string, text: string): string {
    if LowestMarker(s) == NO_MARKER then s else Replace(s, LowestMarker(s), text)
  }

  lemma {:induction false} WithoutPercent(s: string, marker: nat, text: string)
    requires '%' !in s
    ensures LowestMarker(s) == NO_MARKER && Replace(s, marker, text) == s
  {
    if s != "" {
      WithoutPercent(s[1..], marker, text);
    }
  }

  lemma MarkerAtDot(a: string, b: string)
    requires a != "" && b != "" && b[0] == '.'
    ensures MarkerLength(a + b) == MarkerLength(a)
    ensures MarkerLength(a) > 0 ==> MarkerNumber(a + b) == MarkerNumber(a)
  {
    assert forall i: nat :: i <= |a| ==> At(a + b, i) == At(a, i);
    if At(a, 0) == '%' && IsDigit(At(a, DigitIndex(a))) {
      assert DigitIndex(a) < |a|;
    }
  }

  // The scan goes on behind a marker, or behind one character.
  function Skip(s: string): (n: nat)
    requires s != ""
    ensures 1 <= n <= |s|
  {
    if MarkerLength(s) > 0 then MarkerLength(s) else 1
  }

  // A dot ends every marker, so texts joined at a dot are scanned separately.
  lemma ScanAtDot(a: string, b: string, marker: nat, text: string)
    requires b != "" && b[0] == '.'
    ensures LowestMarker(a + b) == Min(LowestMarker(a), LowestMarker(b))
    ensures Replace(a + b, marker, text) == Replace(a, marker, text) + Replace(b, marker, text)
  {
    LowestAtDot(a, b);
    ReplaceAtDot(a, b, marker, text);
  }

  lemma {:induction false} LowestAtDot(a: string, b: string)
    requires b != "" && b[0] == '.'
    ensures LowestMarker(a + b) == Min(LowestMarker(a), LowestMarker(b))
  {
    if a == "" {
      assert a + b == b;
      LowestIsBounded(b);
    } else {
      MarkerAtDot(a, b);
      assert (a + b)[Skip(a)..] == a[Skip(a)..] + b;
      LowestAtDot(a[Skip(a)..], b);
    }
  }

  lemma WrittenAtDot(a: string, b: string, marker: nat, text: string)
    requires a != "" && b != "" && b[0] == '.'
    ensures Skip(a + b) == Skip(a) && Written(a + b, marker, text) == Written(a, marker, text)
  {
    MarkerAtDot(a, b);
    assert (a + b)[..Skip(a)] == a[..Skip(a)];
  }

  lemma {:induction false} ReplaceAtDot(a: string, b: string, marker: nat, text: string)
    requires b != "" && b[0] == '.'
    ensures Replace(a + b, marker, text) == Replace(a, marker, text) + Replace(b, marker, text)
  {
    if a == "" {
      assert a + b == b;
    } else {
      var n := Skip(a);
      WrittenAtDot(a, b, marker, text);
      ReplaceStep(a, marker, text);
      ReplaceStep(a + b, marker, text);
      assert (a + b)[n..] == a[n..] + b;
      ReplaceAtDot(a[n..], b, marker, text);
      Associative(Written(a, marker, text), Replace(a[n..], marker, text), Replace(b, marker, text));
    }
  }

  lemma Associative(x: string, y: string, z: string)
    ensures x + (y + z) == x + y + z
  {
  }

  lemma {:induction false} LowestIsBounded(s: string)
    ensures LowestMarker(s) <= NO_MARKER
  {
    if s != "" {
      LowestIsBounded(s[Skip(s)..]);
    }
  }

  lemma DotPrefix(s: string, marker: nat, text: string)
    ensures LowestMarker("." + s) == LowestMarker(s)
    ensures Replace("." + s, marker, text) == "." + Replace(s, marker, text)
  {
    assert ("." + s)[1..] == s;
  }

  // How many markers of a number a text has.
  function Occurrences(s: string, marker: nat): nat {
    if s == "" then 0
    else Occurrences(s[Skip(s)..], marker)
         + (if MarkerLength(s) > 0 && MarkerNumber(s) == marker then 1 else 0)
  }

  // What one scanning step writes.
  function Written(s: string, marker: nat, text: string): string
    requires s != ""
  {
    if MarkerLength(s) > 0 && MarkerNumber(s) == marker then text else s[..Skip(s)]
  }

  lemma ReplaceStep(s: string, marker: nat, text: string)
    requires s != ""
    ensures Replace(s, marker, text) == Written(s, marker, text) + Replace(s[Skip(s)..], marker, text)
  {
    assert [s[0]] == s[..1];
  }

  lemma {:induction false} LowestOccurs(s: string)
    requires LowestMarker(s) < NO_MARKER
    ensures Occurrences(s, LowestMarker(s)) > 0
  {
    if !(MarkerLength(s) > 0 && MarkerNumber(s) == LowestMarker(s)) {
      LowestOccurs(s[Skip(s)..]);
    }
  }

  lemma {:induction false} ReplaceLength(s: string, marker: nat, u: string, v: string)
    ensures |u| <= |v| ==> |Replace(s, marker, u)| <= |Replace(s, marker, v)|
    ensures |u| < |v| && Occurrences(s, marker) > 0 ==> |Replace(s, marker, u)| < |Replace(s, marker, v)|
  {
    if s != "" {
      ReplaceStep(s, marker, u);
      ReplaceStep(s, marker, v);
      ReplaceLength(s[Skip(s)..], marker, u, v);
    }
  }

  lemma {:induction false} ReplaceInjective(s: string, marker: nat, u: string, v: string)
    requires |u| == |v| && Occurrences(s, marker) > 0
    requires Replace(s, marker, u) == Replace(s, marker, v)
    ensures u == v
  {
    ReplaceStep(s, marker, u);
    ReplaceStep(s, marker, v);
    var a, b := Written(s, marker, u), Written(s, marker, v);
    var rest := s[Skip(s)..];
    assert Replace(s, marker, u)[..|a|] == a && Replace(s, marker, u)[|a|..] == Replace(rest, marker, u);
    assert Replace(s, marker, v)[..|b|] == b && Replace(s, marker, v)[|b|..] == Replace(rest, marker, v);
    if !(MarkerLength(s) > 0 && MarkerNumber(s) == marker) {
      ReplaceInjective(rest, marker, u, v);
    }
  }

  lemma ArgInjective(s: string, u: string, v: string)
    requires LowestMarker(s) < NO_MARKER && Arg(s, u) == Arg(s, v)
    ensures u == v
  {
    var marker := LowestMarker(s);
    LowestOccurs(s);
    ReplaceLength(s, marker, u, v);
    ReplaceLength(s, marker, v, u);
    ReplaceInjective(s, marker, u, v);
  }

  // ------------------------------------------------------- texts that look alike

  // A marker of the same number with a zero behind it: what a number is put into
  // in its place ends in one more digit.
  function Decoy(marker: nat): string
    requires marker < 10
  {
    ['%', '0', DigitOf(marker), '0']
  }

  function WithDecoys(s: string, marker: nat): string
    requires marker < 10
  {
    Replace(s, marker, Decoy(marker))
  }

  // A decoy begins as the marker it takes the place of.
  lemma {:induction false} DecoyBegins(s: string, marker: nat)
    requires marker < 10
    ensures At(WithDecoys(s, marker), 0) == At(s, 0) && (WithDecoys(s, marker) == "" <==> s == "")
  {
    if s != "" {
      ReplaceStep(s, marker, Decoy(marker));
    }
  }

  // Where no marker is replaced, the scan meets the same text.
  lemma SameScan(s: string, marker: nat)
    requires marker < 10 && s != "" && !(MarkerLength(s) > 0 && MarkerNumber(s) == marker)
    ensures var t := WithDecoys(s, marker);
            && t != "" && Skip(t) == Skip(s) && MarkerLength(t) == MarkerLength(s)
            && (MarkerLength(s) > 0 ==> MarkerNumber(t) == MarkerNumber(s))
            && t[..Skip(s)] == s[..Skip(s)] && t[Skip(s)..] == WithDecoys(s[Skip(s)..], marker)
  {
    var t, n := WithDecoys(s, marker), Skip(s);
    ReplaceStep(s, marker, Decoy(marker));
    assert t == s[..n] + WithDecoys(s[n..], marker);
    DecoyBegins(s[n..], marker);
    SameAhead(s, t, n);
    if MarkerLength(s) == 0 && At(s, 0) == '%' && At(s, 1) == 'L' {
      var u := s[1..];
      assert u[0] == 'L' && u[1..] == s[2..];
      ReplaceStep(u, marker, Decoy(marker));
      DecoyBegins(s[2..], marker);
      assert WithDecoys(u, marker) == u[..1] + WithDecoys(s[2..], marker);
      assert At(t, 2) == At(s, 2);
    }
  }

  lemma SameAhead(s: string, t: string, n: nat)
    requires n <= |s| && n <= |t| && t[..n] == s[..n] && At(t[n..], 0) == At(s[n..], 0)
    ensures forall i: nat :: i <= n ==> At(t, i) == At(s, i)
  {
    forall i: nat | i <= n
      ensures At(t, i) == At(s, i)
    {
      if i < n {
        assert t[..n][i] == s[..n][i];
      } else {
        assert At(t, n) == At(t[n..], 0) && At(s, n) == At(s[n..], 0);
      }
    }
  }

  lemma DecoyScans(marker: nat, rest: string)
    requires marker < 10
    ensures var t := Decoy(marker) + rest;
            && MarkerLength(t) == 3 && MarkerNumber(t) == marker
            && t[3..] == "0" + rest
  {
  }

  lemma ZeroScans(rest: string, marker: nat, text: string)
    ensures LowestMarker("0" + rest) == LowestMarker(rest)
    ensures Replace("0" + rest, marker, text) == "0" + Replace(rest, marker, text)
  {
    assert ("0" + rest)[1..] == rest;
  }

  lemma ReplaceStepDecoy(s: string, marker: nat, text: string)
    requires marker < 10 && s != "" && MarkerLength(s) > 0 && MarkerNumber(s) == marker
    ensures var t, rest := WithDecoys(s, marker), WithDecoys(s[Skip(s)..], marker);
            && LowestMarker(t) == Min(marker, LowestMarker(rest))
            && Replace(t, marker, text) == text + "0" + Replace(rest, marker, text)
  {
    var t, rest := WithDecoys(s, marker), WithDecoys(s[Skip(s)..], marker);
    ReplaceStep(s, marker, Decoy(marker));
    DecoyScans(marker, rest);
    ZeroScans(rest, marker, text);
    ReplaceStep(t, marker, text);
    Associative(text, "0", Replace(rest, marker, text));
  }

  // Putting a text into the decoys is putting it, with a zero behind it, into the
  // markers.
  lemma {:induction false} DecoysTakeOneDigitLess(s: string, marker: nat, text: string)
    requires marker < 10
    ensures LowestMarker(WithDecoys(s, marker)) == LowestMarker(s)
    ensures Replace(WithDecoys(s, marker), marker, text) == Replace(s, marker, text + "0")
  {
    if s != "" {
      var t, rest := WithDecoys(s, marker), s[Skip(s)..];
      DecoysTakeOneDigitLess(rest, marker, text);
      ReplaceStep(s, marker, text + "0");
      if MarkerLength(s) > 0 && MarkerNumber(s) == marker {
        ReplaceStepDecoy(s, marker, text);
      } else {
        SameScan(s, marker);
        ReplaceStep(t, marker, text);
      }
    }
  }
}

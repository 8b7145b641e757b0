// Decoding the identifiers of cached images: AsyncImageKey.
module ImageKeys {
  import opened Octets
  import opened Options
  import Utf8

  // The platform: whether paths are Windows paths (then a backslash is a
  // separator and prefixes are compared by their folding), and QDir::cleanPath.
  datatype Platform = Platform(windows: bool, fold: char -> char, clean: string -> string)

  // ------------------------------------------------------------ base16 (RFC 4648)

  function HexChar(n: nat): (c: char)
    requires n < 16
    ensures HexValue(c) == n
  {
    if n < 10 then '0' + n as char else 'a' + (n - 10) as char
  }

  // The value of a hexadecimal digit, or -1.
  function HexValue(c: char): (n: int)
    ensures -1 <= n < 16
  {
    if '0' <= c <= '9' then c as int - '0' as int
    else if 'a' <= c <= 'f' then c as int - 'a' as int + 10
    else if 'A' <= c <= 'F' then c as int - 'A' as int + 10
    else -1
  }

  function Hex(s: seq<byte>): string {
    if s == [] then "" else [HexChar(s[0] as int / 16), HexChar(s[0] as int % 16)] + Hex(s[1..])
  }

  // toLatin1: what has no Latin-1 code becomes a question mark.
  function Latin1(s: string): (t: string)
    ensures |t| == |s|
    ensures forall i :: 0 <= i < |s| ==> t[i] == if s[i] as int < 256 then s[i] else '?'
  {
    seq(|s|, i requires 0 <= i < |s| => if s[i] as int < 256 then s[i] else '?')
  }

  // ^[0-9a-fA-F]+$, whose end also matches in front of a final line feed.
  predicate IsHexText(s: string) {
    var digits := if s != "" && s[|s| - 1] == '\n' then s[..|s| - 1] else s;
    digits != "" && AllHex(digits)
  }

  predicate AllHex(s: string) {
    forall i :: 0 <= i < |s| ==> HexValue(s[i]) >= 0
  }

  type nibble = n: int | 0 <= n < 16

  // The values of the digits; other characters are skipped.
  function Nibbles(s: string): seq<nibble> {
    if s == "" then []
    else if HexValue(s[0]) >= 0 then [HexValue(s[0])] + Nibbles(s[1..])
    else Nibbles(s[1..])
  }

  function Paired(n: seq<nibble>): seq<byte>
    decreases |n|
  {
    if n == [] then []
    else if |n| % 2 == 1 then [n[0]] + Paired(n[1..])
    else [16 * n[0] as int + n[1] as int] + Paired(n[2..])
  }

  // QByteArray::fromHex
  function FromHex(s: string): seq<byte> {
    Paired(Nibbles(s))
  }

  lemma {:induction false} HexIsHexText(s: seq<byte>)
    ensures |Hex(s)| == 2 * |s| && AllHex(Hex(s))
  {
    if s != [] {
      HexIsHexText(s[1..]);
    }
  }

  lemma {:induction false} FromHexOfHex(s: seq<byte>)
    ensures FromHex(Hex(s)) == s && |Nibbles(Hex(s))| == 2 * |s|
  {
    if s != [] {
      FromHexOfHex(s[1..]);
      TwoNibbles(s[0], Hex(s[1..]));
      PairsOfByte(s[0], Nibbles(Hex(s)), Nibbles(Hex(s[1..])));
    }
  }

  lemma PairsOfByte(b: byte, all: seq<nibble>, rest: seq<nibble>)
    requires all == [b as int / 16, b as int % 16] + rest && |rest| % 2 == 0
    ensures Paired(all) == [b] + Paired(rest)
  {
    Halves(b);
    PairedStep(all, b, rest);
  }

  lemma Halves(b: byte)
    ensures 16 * (b as int / 16) + b as int % 16 == b as int
  {
  }

  lemma PairedStep(n: seq<nibble>, b: byte, rest: seq<nibble>)
    requires |n| >= 2 && |n| % 2 == 0 && 16 * n[0] as int + n[1] as int == b as int && n[2..] == rest
    ensures Paired(n) == [b] + Paired(rest)
  {
  }

  lemma TwoNibbles(b: byte, rest: string)
    ensures Nibbles([HexChar(b as int / 16), HexChar(b as int % 16)] + rest)
         == [b as int / 16, b as int % 16] + Nibbles(rest)
  {
    var s := [HexChar(b as int / 16), HexChar(b as int % 16)] + rest;
    assert s[1..] == [HexChar(b as int % 16)] + rest && s[1..][1..] == rest;
  }

  // ---------------------------------------------------------------- components

  // split at every slash, keeping empty parts
  function Split(path: string): (parts: seq<string>)
    ensures parts != []
  {
    if path == "" then [""]
    else
      var rest := Split(path[1..]);
      if path[0] == '/' then [""] + rest else [[path[0]] + rest[0]] + rest[1..]
  }

  function Join(parts: seq<string>): string
    requires parts != []
  {
    if |parts| == 1 then parts[0] else parts[0] + "/" + Join(parts[1..])
  }

  predicate IsClean(component: string) {
    component != "" && component != "." && component != ".." && ':' !in component
  }

  predicate AllClean(parts: seq<string>) {
    forall i :: 0 <= i < |parts| ==> IsClean(parts[i])
  }

  lemma {:induction false} JoinSplit(path: string)
    ensures Join(Split(path)) == path
  {
    if path != "" {
      JoinSplit(path[1..]);
    }
  }

  lemma {:induction false} SplitSegment(part: string, rest: string)
    requires '/' !in part
    ensures Split(part) == [part]
    ensures Split(part + "/" + rest) == [part] + Split(rest)
  {
    var whole := part + "/" + rest;
    if part == "" {
      assert whole[1..] == rest;
    } else {
      SplitSegment(part[1..], rest);
      assert whole[1..] == part[1..] + "/" + rest && [part[0]] + part[1..] == part;
    }
  }

  predicate SlashFree(parts: seq<string>) {
    forall i :: 0 <= i < |parts| ==> '/' !in parts[i]
  }

  lemma {:induction false} SplitJoin(parts: seq<string>)
    requires parts != [] && SlashFree(parts)
    ensures Split(Join(parts)) == parts
  {
    if |parts| == 1 {
      SplitSegment(parts[0], "");
    } else {
      SplitJoin(parts[1..]);
      SplitSegment(parts[0], Join(parts[1..]));
    }
  }

  // ------------------------------------------------------------------ decoding

  const PREFIX := "v1-"
  const BYTE_ORDER_MARK: char := 0xFEFF as char
  const NUL: char := 0 as char

  function FromNative(p: Platform, s: string): (t: string)
    ensures |t| == |s|
    ensures forall i :: 0 <= i < |s| ==> t[i] == if p.windows && s[i] == '\\' then '/' else s[i]
  {
    seq(|s|, i requires 0 <= i < |s| => if p.windows && s[i] == '\\' then '/' else s[i])
  }

  // The decoder drops a byte order mark at the beginning.
  function WithoutMark(s: string): string {
    if s != "" && s[0] == BYTE_ORDER_MARK then s[1..] else s
  }

  predicate IsAbsolute(p: Platform, path: string) {
    path != "" && (path[0] == '/' || (p.windows && |path| >= 3 && path[1] == ':' && path[2] == '/'))
  }

  // absoluteFilePath of a relative path in an absolute directory
  function Under(root: string, relative: string): string {
    if root != "" && root[|root| - 1] == '/' then root + relative else root + "/" + relative
  }

  predicate StartsWith(p: Platform, path: string, prefix: string) {
    |prefix| <= |path|
    && forall i :: 0 <= i < |prefix| ==>
         path[i] == prefix[i] || (p.windows && p.fold(path[i]) == p.fold(prefix[i]))
  }

  predicate IsStrictDescendant(p: Platform, path: string, root: string) {
    path != "" && root != "" && StartsWith(p, path, Under(root, ""))
  }

  // The text an identifier carries, if its form is right.
  function Payload(id: string): Option<string> {
    if !(PREFIX <= id) then None
    else
      var encoded := Latin1(id[|PREFIX|..]);
      if encoded == "" || |encoded| % 2 != 0 || !IsHexText(encoded) then None
      else match Utf8.Decode(FromHex(encoded))
        case None => None
        case Some(text) => Some(WithoutMark(text))
  }

  function Located(p: Platform, relative: string, root: string): Option<string> {
    if IsAbsolute(p, relative) || !AllClean(Split(relative)) then None
    else
      var candidate := FromNative(p, p.clean(Under(root, relative)));
      if IsStrictDescendant(p, candidate, root) then Some(candidate) else None
  }

  function Decode(p: Platform, id: string, root: string): Option<string> {
    match Payload(id)
    case None => None
    case Some(text) =>
      if text == "" || NUL in text then None else Located(p, FromNative(p, text), root)
  }

  // The identifier of a path below the cache root.
  function Key(relative: string): string {
    PREFIX + Hex(Utf8.Encode(relative))
  }

  // --------------------------------------------------------------------- theorems

  ghost predicate LeftAlone(p: Platform, root: string, relative: string) {
    p.clean(Under(root, relative)) == Under(root, relative)
  }

  // A normal cache root: cleaning leaves clean paths below it alone.
  ghost predicate NormalRoot(p: Platform, root: string) {
    && root != ""
    && (p.windows ==> '\\' !in root)
    && forall relative {:trigger LeftAlone(p, root, relative)} ::
         AllClean(Split(relative)) && (p.windows ==> '\\' !in relative) ==> LeftAlone(p, root, relative)
  }

  lemma PayloadOf(id: string, hex: string, text: string)
    requires id == PREFIX + hex && Latin1(hex) == hex && IsHexText(hex) && |hex| % 2 == 0
    requires Utf8.Decode(FromHex(hex)) == Some(text)
    ensures Payload(id) == Some(WithoutMark(text))
  {
    assert id[|PREFIX|..] == hex;
  }

  lemma HexForm(bytes: seq<byte>, hex: string)
    requires bytes != [] && |hex| == 2 * |bytes| && AllHex(hex)
    ensures Latin1(hex) == hex && IsHexText(hex) && |hex| % 2 == 0
  {
    HexIsLatin1(hex);
  }

  lemma PayloadOfHex(bytes: seq<byte>, hex: string, text: string)
    requires bytes != [] && |hex| == 2 * |bytes| && AllHex(hex)
    requires FromHex(hex) == bytes && Utf8.Decode(bytes) == Some(text)
    ensures Payload(PREFIX + hex) == Some(WithoutMark(text))
  {
    HexForm(bytes, hex);
    PayloadOf(PREFIX + hex, hex, text);
  }

  lemma PayloadOfKey(relative: string)
    requires relative != ""
    ensures Payload(Key(relative)) == Some(WithoutMark(relative))
  {
    var bytes := Utf8.Encode(relative);
    Utf8.DecodeEncode(relative);
    HexIsHexText(bytes);
    FromHexOfHex(bytes);
    PayloadOfHex(bytes, Hex(bytes), relative);
  }

  lemma HexIsLatin1(hex: string)
    requires hex != "" && AllHex(hex)
    ensures Latin1(hex) == hex && IsHexText(hex)
  {
  }

  lemma NativeTwice(p: Platform, s: string)
    ensures FromNative(p, FromNative(p, s)) == FromNative(p, s)
    ensures p.windows ==> '\\' !in FromNative(p, s)
    ensures FromNative(p, s) == s <==> (p.windows ==> '\\' !in s)
  {
    if p.windows && '\\' in s {
      var i :| 0 <= i < |s| && s[i] == '\\';
      assert FromNative(p, s)[i] == '/';
    }
  }

  lemma RejoinedPath(p: Platform, relative: string, root: string)
    requires NormalRoot(p, root) && AllClean(Split(relative)) && (p.windows ==> '\\' !in relative)
    ensures Located(p, relative, root) == Some(Under(root, relative))
  {
    assert LeftAlone(p, root, relative);
    var path := Under(root, relative);
    NativeTwice(p, path);
    ColonFree(relative);
    assert StartsWith(p, path, Under(root, ""));
  }

  // Clean components make a relative path.
  lemma ColonFree(relative: string)
    requires AllClean(Split(relative))
    ensures relative != "" && relative[0] != '/' && ':' !in relative
  {
    assert IsClean(Split(relative)[0]);
    if ':' in relative {
      HasColon(relative);
    }
  }

  lemma {:induction false} HasColon(relative: string)
    requires ':' in relative
    ensures !AllClean(Split(relative))
  {
    var rest := Split(relative[1..]);
    if relative[0] == ':' {
      assert ':' in Split(relative)[0];
    } else {
      PartHasColon(relative[1..]);
      var i :| 0 <= i < |rest| && ':' in rest[i];
      assert ':' in Split(relative)[if relative[0] == '/' then i + 1 else i];
    }
  }

  lemma {:induction false} PartHasColon(relative: string)
    requires ':' in relative
    ensures exists i :: 0 <= i < |Split(relative)| && ':' in Split(relative)[i]
  {
    if relative[0] == ':' {
      assert ':' in Split(relative)[0];
    } else {
      PartHasColon(relative[1..]);
      var rest := Split(relative[1..]);
      var i :| 0 <= i < |rest| && ':' in rest[i];
      assert ':' in Split(relative)[if relative[0] == '/' then i + 1 else i];
    }
  }

  lemma {:induction false} SplitSlashFree(path: string)
    ensures SlashFree(Split(path))
  {
    if path != "" {
      SplitSlashFree(path[1..]);
    }
  }

  // A name that is not empty, no dots and has neither a colon nor a slash in it.
  predicate IsComponent(name: string) {
    |name| > 0 && name != "." && name != ".." && forall c :: c in name ==> c != ':' && c != '/'
  }

  // A path below a directory, which may end in a slash.
  function Below(root: string, relative: string): string
    requires root != ""
  {
    root + (if root[|root| - 1] == '/' then "" else "/") + relative
  }

  lemma UnderIsBelow(root: string, relative: string)
    requires root != ""
    ensures Under(root, relative) == Below(root, relative)
  {
    assert root + "" + relative == root + relative;
  }

  lemma CleanIsComponent(part: string)
    ensures IsComponent(part) <==> IsClean(part) && '/' !in part
  {
  }

  lemma AcceptedParts(p: Platform, id: string, root: string) returns (parts: seq<string>)
    requires NormalRoot(p, root) && Decode(p, id, root).Some?
    ensures parts != [] && AllClean(parts) && SlashFree(parts)
    ensures Decode(p, id, root) == Some(Under(root, Join(parts)))
  {
    var relative := FromNative(p, Payload(id).value);
    NativeTwice(p, Payload(id).value);
    RejoinedPath(p, relative, root);
    parts := Split(relative);
    JoinSplit(relative);
    SplitSlashFree(relative);
  }

  // Every accepted identifier names a path strictly below the root, made of the
  // root and of components between slashes that are neither empty nor dots and
  // have no colon.
  lemma AcceptedIsBelowRoot(p: Platform, id: string, root: string) returns (parts: seq<string>)
    requires NormalRoot(p, root) && Decode(p, id, root).Some?
    ensures parts != [] && forall i :: 0 <= i < |parts| ==> IsComponent(parts[i])
    ensures Decode(p, id, root) == Some(Below(root, Join(parts)))
    ensures Below(root, "") < Below(root, Join(parts))
  {
    parts := AcceptedParts(p, id, root);
    UnderIsBelow(root, Join(parts));
    forall i | 0 <= i < |parts|
      ensures IsComponent(parts[i])
    {
      CleanIsComponent(parts[i]);
    }
    JoinFirst(parts);
    BelowGrows(root, Join(parts));
  }

  lemma BelowGrows(root: string, relative: string)
    requires root != "" && relative != ""
    ensures Below(root, "") < Below(root, relative)
  {
    assert Below(root, relative) == Below(root, "") + relative;
  }

  // Nothing in the text is dropped, converted or refused.
  predicate IsKept(p: Platform, relative: string) {
    && relative != "" && relative[0] != BYTE_ORDER_MARK
    && NUL !in relative
    && (p.windows ==> '\\' !in relative)
    && AllClean(Split(relative))
  }

  lemma KeptRoundTrip(p: Platform, relative: string, root: string)
    requires NormalRoot(p, root)
    ensures Decode(p, Key(relative), root) == Some(Under(root, relative)) <==> IsKept(p, relative)
  {
    if relative == "" {
      EmptyKey();
    } else {
      NonEmptyRoundTrip(p, relative, root);
    }
  }

  // Which texts survive.
  predicate Survives(p: Platform, relative: string) {
    && relative != "" && relative[0] as int != 0xFEFF
    && '\0' !in relative
    && (p.windows ==> '\\' !in relative)
    && (forall i :: 0 <= i < |Split(relative)| ==> IsComponent(Split(relative)[i]))
  }

  lemma KeptSurvives(p: Platform, relative: string)
    ensures IsKept(p, relative) <==> Survives(p, relative)
  {
    assert '\0' == NUL;
    SplitSlashFree(relative);
    var parts := Split(relative);
    forall i | 0 <= i < |parts|
      ensures IsComponent(parts[i]) <==> IsClean(parts[i])
    {
      CleanIsComponent(parts[i]);
    }
  }

  // The round trip, over all texts.
  lemma KeyRoundTrip(p: Platform, relative: string, root: string)
    requires NormalRoot(p, root)
    ensures Decode(p, Key(relative), root) == Some(Below(root, relative)) <==> Survives(p, relative)
  {
    KeptRoundTrip(p, relative, root);
    KeptSurvives(p, relative);
    UnderIsBelow(root, relative);
  }

  lemma EmptyKey()
    ensures Payload(Key("")) == None
  {
    assert Key("") == PREFIX && PREFIX[|PREFIX|..] == "";
  }

  lemma NonEmptyRoundTrip(p: Platform, relative: string, root: string)
    requires NormalRoot(p, root) && relative != ""
    ensures Decode(p, Key(relative), root) == Some(Under(root, relative)) <==> IsKept(p, relative)
  {
    PayloadOfKey(relative);
    var text := WithoutMark(relative);
    NativeTwice(p, text);
    if IsKept(p, relative) {
      RejoinedPath(p, relative, root);
    } else if Decode(p, Key(relative), root) == Some(Under(root, relative)) {
      RejoinedPath(p, FromNative(p, text), root);
      UnderInjective(root, FromNative(p, text), relative);
    }
  }

  lemma UnderInjective(root: string, a: string, b: string)
    requires Under(root, a) == Under(root, b)
    ensures a == b
  {
    var n := |Under(root, "")|;
    assert Under(root, a)[n..] == a && Under(root, b)[n..] == b;
  }

  // Distinct texts have distinct identifiers.
  lemma KeyInjective(a: string, b: string)
    requires Key(a) == Key(b)
    ensures a == b
  {
    var x, y := Utf8.Encode(a), Utf8.Encode(b);
    assert Key(a)[|PREFIX|..] == Hex(x) && Key(b)[|PREFIX|..] == Hex(y);
    FromHexOfHex(x);
    FromHexOfHex(y);
    Utf8.EncodeInjective(a, b);
  }

  // In particular for every list of clean components.
  lemma ComponentsRoundTrip(p: Platform, parts: seq<string>, root: string)
    requires NormalRoot(p, root) && parts != [] && AllClean(parts)
    requires SlashFree(parts)
    requires forall i :: 0 <= i < |parts| ==> NUL !in parts[i] && (p.windows ==> '\\' !in parts[i])
    requires parts[0][0] != BYTE_ORDER_MARK
    ensures Decode(p, Key(Join(parts)), root) == Some(Under(root, Join(parts)))
  {
    SplitJoin(parts);
    JoinFree(parts, NUL);
    if p.windows {
      JoinFree(parts, '\\');
    }
    JoinFirst(parts);
    KeptRoundTrip(p, Join(parts), root);
  }

  // ------------------------------------------------------------- what is refused

  const LOWER := "0123456789abcdef"
  const UPPER := "0123456789ABCDEF"

  lemma HexDigitsAreTheSixteen(c: char)
    ensures HexValue(c) >= 0 <==> c in LOWER || c in UPPER
    ensures forall i :: 0 <= i < 16 ==> HexValue(LOWER[i]) == i && HexValue(UPPER[i]) == i
  {
    assert LOWER[0] == '0' && LOWER[1] == '1' && LOWER[2] == '2' && LOWER[3] == '3' && LOWER[4] == '4';
    assert LOWER[5] == '5' && LOWER[6] == '6' && LOWER[7] == '7' && LOWER[8] == '8' && LOWER[9] == '9';
    assert LOWER[10] == 'a' && LOWER[11] == 'b' && LOWER[12] == 'c' && LOWER[13] == 'd';
    assert LOWER[14] == 'e' && LOWER[15] == 'f';
    assert UPPER[0] == '0' && UPPER[1] == '1' && UPPER[2] == '2' && UPPER[3] == '3' && UPPER[4] == '4';
    assert UPPER[5] == '5' && UPPER[6] == '6' && UPPER[7] == '7' && UPPER[8] == '8' && UPPER[9] == '9';
    assert UPPER[10] == 'A' && UPPER[11] == 'B' && UPPER[12] == 'C' && UPPER[13] == 'D';
    assert UPPER[14] == 'E' && UPPER[15] == 'F';
    var n := HexValue(c);
    if n >= 0 {
      assert c == LOWER[n] || c == UPPER[n];
    }
  }

  predicate AllDigits(s: string) {
    forall i :: 0 <= i < |s| ==> s[i] in LOWER || s[i] in UPPER
  }

  // An identifier whose text can be read begins with v1- and goes on in pairs of
  // hexadecimal digits, or in one digit less and a line feed.
  lemma OnlyHexIsRead(id: string)
    ensures Payload(id).Some? ==>
              && |id| > 3 && id[..3] == "v1-"
              && var body := id[3..];
                 (|body| % 2 == 0 && AllDigits(body))
                 || (|body| % 2 == 0 && body[|body| - 1] == '\n' && AllDigits(body[..|body| - 1]))
  {
    if Payload(id).Some? {
      var body, encoded := id[3..], Latin1(id[3..]);
      forall i | 0 <= i < |body|
        ensures encoded[i] in LOWER || encoded[i] in UPPER ==> body[i] == encoded[i]
        ensures encoded[i] == '\n' ==> body[i] == '\n'
      {
        HexDigitsAreTheSixteen('?');
      }
      var digits := if encoded[|encoded| - 1] == '\n' then encoded[..|encoded| - 1] else encoded;
      forall i | 0 <= i < |digits|
        ensures body[i] in LOWER || body[i] in UPPER
      {
        HexDigitsAreTheSixteen(digits[i]);
        assert digits[i] == encoded[i];
      }
    }
  }

  // Whatever the root and however paths are cleaned, an accepted path begins with
  // the root and a slash, on Windows up to the case of letters.
  lemma AcceptedStartsWithRoot(p: Platform, id: string, root: string)
    requires Decode(p, id, root).Some?
    ensures root != ""
    ensures var path, front := Decode(p, id, root).value, Below(root, "");
            && |front| <= |path|
            && forall i :: 0 <= i < |front| ==>
                 path[i] == front[i] || (p.windows && p.fold(path[i]) == p.fold(front[i]))
  {
    assert root + "/" + "" == root + "/" && root + "" + "" == root;
  }

  lemma {:induction false} LineFeedIsSkipped(s: string)
    requires AllHex(s)
    ensures Nibbles(s + "\n") == Nibbles(s) && |Nibbles(s)| == |s|
  {
    if s != "" {
      assert (s + "\n")[1..] == s[1..] + "\n";
      LineFeedIsSkipped(s[1..]);
    } else {
      assert Nibbles("\n") == Nibbles("\n"[1..]);
    }
  }

  lemma PairedOdd(n: seq<nibble>)
    requires |n| % 2 == 1
    ensures Paired(n) == [n[0] as int] + Paired(n[1..])
  {
  }

  lemma LeadingZero(led: seq<nibble>, n: seq<nibble>)
    requires |n| % 2 == 1 && led == [0] + n
    ensures Paired(led) == Paired(n)
  {
    PairedOdd(n);
    assert led[2..] == n[1..];
    PairedStep(led, n[0], n[1..]);
  }

  lemma LineFeedForm(digits: string)
    requires digits != "" && AllHex(digits)
    ensures var fed := digits + "\n"; Latin1(fed) == fed && IsHexText(fed)
  {
    var fed := digits + "\n";
    HexIsLatin1(digits);
    assert fed[..|fed| - 1] == digits;
    assert Latin1(fed) == fed;
  }

  lemma ZeroForm(digits: string)
    requires AllHex(digits)
    ensures var led := "0" + digits;
            led != "" && Latin1(led) == led && IsHexText(led) && Nibbles(led) == [0] + Nibbles(digits)
  {
    var led := "0" + digits;
    assert led[1..] == digits && AllHex(led);
    HexIsLatin1(led);
  }

  lemma SamePayload(a: string, b: string)
    requires a != "" && Latin1(a) == a && IsHexText(a) && |a| % 2 == 0
    requires b != "" && Latin1(b) == b && IsHexText(b) && |b| % 2 == 0
    requires FromHex(a) == FromHex(b)
    ensures Payload(PREFIX + a) == Payload(PREFIX + b)
  {
    assert (PREFIX + a)[|PREFIX|..] == a && (PREFIX + b)[|PREFIX|..] == b;
  }

  lemma OddPayload(a: string)
    requires |a| % 2 == 1
    ensures Payload(PREFIX + a) == None
  {
    assert (PREFIX + a)[|PREFIX|..] == a;
  }

  lemma LineFeedBytes(digits: string, fed: string, led: string)
    requires AllHex(digits) && |digits| % 2 == 1 && Nibbles(fed) == Nibbles(digits) && |Nibbles(digits)| == |digits|
    requires Nibbles(led) == [0] + Nibbles(digits)
    ensures FromHex(fed) == FromHex(led)
  {
    LeadingZero(Nibbles(led), Nibbles(digits));
  }

  lemma OddLineFeed(digits: string)
    requires digits != "" && AllHex(digits) && |digits| % 2 == 1
    ensures Payload(PREFIX + (digits + "\n")) == Payload(PREFIX + ("0" + digits))
  {
    var fed, led := digits + "\n", "0" + digits;
    LineFeedForm(digits);
    LineFeedIsSkipped(digits);
    ZeroForm(digits);
    LineFeedBytes(digits, fed, led);
    SamePayload(fed, led);
  }

  // Digits in front of a final line feed are accepted exactly if their number is
  // odd, the wrong one; they are then read as if a zero preceded them.
  lemma FinalLineFeed(digits: string)
    requires digits != "" && AllHex(digits)
    ensures |digits| % 2 == 0 ==> Payload(PREFIX + (digits + "\n")) == None
    ensures |digits| % 2 == 1 ==> Payload(PREFIX + (digits + "\n")) == Payload(PREFIX + ("0" + digits))
  {
    if |digits| % 2 == 0 {
      OddPayload(digits + "\n");
    } else {
      OddLineFeed(digits);
    }
  }

  lemma {:induction false} JoinFree(parts: seq<string>, c: char)
    requires parts != [] && c != '/' && forall i :: 0 <= i < |parts| ==> c !in parts[i]
    ensures c !in Join(parts)
  {
    if |parts| > 1 {
      JoinFree(parts[1..], c);
    }
  }

  lemma JoinFirst(parts: seq<string>)
    requires parts != [] && parts[0] != ""
    ensures Join(parts) != "" && Join(parts)[0] == parts[0][0]
  {
  }

  lemma CleaningHasAModel(windows: bool, fold: char -> char, root: string)
    requires root != "" && (windows ==> '\\' !in root)
    ensures NormalRoot(Platform(windows, fold, path => path), root)
  {
  }
}

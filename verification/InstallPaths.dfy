// Path containment and the choice of the installation directory.
module InstallPaths {
  import opened Decimal
  import opened Options

  // What the host contributes: case folding, letters, and GetFullPathNameW.
  datatype Host = Host(fold: char -> char, alpha: char -> bool, full: string -> Option<string>)

  // ---------------------------------------------------------- comparing paths

  predicate IsSeparator(c: char) {
    c == '\\' || c == '/'
  }

  function Trimmed(path: string): (t: string)
    ensures t <= path && (|t| <= 3 || !IsSeparator(t[|t| - 1]))
  {
    if |path| > 3 && IsSeparator(path[|path| - 1]) then Trimmed(path[..|path| - 1]) else path
  }

  method TrimTrailingSeparators(path: string) returns (trimmed: string)
    ensures trimmed == Trimmed(path)
  {
    trimmed := path;
    while |trimmed| > 3 && IsSeparator(trimmed[|trimmed| - 1])
      invariant Trimmed(trimmed) == Trimmed(path)
    {
      trimmed := trimmed[..|trimmed| - 1];
    }
  }

  // _wcsnicmp over the length of the prefix.
  predicate StartsAlike(h: Host, s: string, prefix: string) {
    |prefix| <= |s| && forall i :: 0 <= i < |prefix| ==> h.fold(s[i]) == h.fold(prefix[i])
  }

  predicate SamePath(h: Host, left: string, right: string) {
    |Trimmed(left)| == |Trimmed(right)| && StartsAlike(h, Trimmed(left), Trimmed(right))
  }

  predicate HasPathPrefix(h: Host, child: string, parent: string, allowEqual: bool) {
    var c, p := Trimmed(child), Trimmed(parent);
    && StartsAlike(h, c, p)
    && (if |c| == |p| then allowEqual else (|p| == 3 && p[2] == '\\') || c[|p|] == '\\')
  }

  predicate Within(h: Host, child: string, parent: string) {
    HasPathPrefix(h, child, parent, true)
  }

  // Folding leaves the separator alone.
  predicate FoldsWell(h: Host, c: char) {
    h.fold(c) == h.fold('\\') ==> c == '\\'
  }

  ghost predicate FoldLaw(h: Host) {
    forall c {:trigger h.fold(c)} :: FoldsWell(h, c)
  }

  lemma WithinTransitive(h: Host, a: string, b: string, c: string)
    requires FoldLaw(h) && Within(h, a, b) && Within(h, b, c)
    ensures Within(h, a, c)
  {
    var ta, tb, tc := Trimmed(a), Trimmed(b), Trimmed(c);
    assert forall i :: 0 <= i < |tc| ==> h.fold(ta[i]) == h.fold(tb[i]) == h.fold(tc[i]);
    if |tb| > |tc| {
      assert h.fold(ta[|tc|]) == h.fold(tb[|tc|]);
      assert FoldsWell(h, ta[|tc|]);
    } else if |ta| > |tb| && |tc| == 3 {
      assert FoldsWell(h, tc[2]);
    }
  }

  // Containment is a partial order up to the comparison of paths.
  lemma WithinIsAnOrder(h: Host, a: string, b: string)
    ensures Within(h, a, a) && !HasPathPrefix(h, a, a, false)
    ensures Within(h, a, b) && Within(h, b, a) <==> SamePath(h, a, b)
    ensures SamePath(h, a, b) <==> SamePath(h, b, a)
  {
  }

  lemma SamePathWithin(h: Host, a: string, b: string, c: string)
    requires FoldLaw(h) && SamePath(h, a, b)
    ensures Within(h, a, c) <==> Within(h, b, c)
    ensures Within(h, c, a) <==> Within(h, c, b)
  {
    WithinIsAnOrder(h, a, b);
    if Within(h, a, c) { WithinTransitive(h, b, a, c); }
    if Within(h, b, c) { WithinTransitive(h, a, b, c); }
    if Within(h, c, a) { WithinTransitive(h, c, a, b); }
    if Within(h, c, b) { WithinTransitive(h, c, b, a); }
  }

  // ------------------------------------------------------------- normal forms

  datatype PathError =
    | EmptyPath
    | InvalidCharacter
    | NotAbsolute
    | AlternateStream
    | NotNormalizable
    | UnsafeEnding
    | DriveRoot
    | Protected
    | RegisteredInvalid(reason: PathError)
    | RegisteredElsewhere
    | RegisteredInaccessible
    | OccupiedByFile
    | NotEmpty
    | NotInspectable
    | NoChildAvailable

  datatype Normalized = Normal(path: string) | Invalid(error: PathError)

  predicate IsInvalid(c: char) {
    c < ' ' || c == '"' || c == '<' || c == '>' || c == '|' || c == '?' || c == '*'
  }

  predicate HasInvalid(path: string) {
    exists i :: 0 <= i < |path| && IsInvalid(path[i])
  }

  predicate HasDrive(h: Host, path: string) {
    |path| >= 3 && h.alpha(path[0]) && path[1] == ':' && IsSeparator(path[2])
  }

  predicate HasStream(path: string) {
    exists i :: 2 <= i < |path| && path[i] == ':'
  }

  // A segment behind the drive that is empty or ends in a space or a period,
  // seen from the separator, or the end, behind it.
  predicate UnsafeAt(path: string, end: int)
    requires 3 <= end <= |path|
  {
    if end == |path| then end > 3 && (path[end - 1] == '.' || path[end - 1] == ' ')
    else path[end] == '\\'
         && (end == 3 || path[end - 1] == '\\' || path[end - 1] == '.' || path[end - 1] == ' ')
  }

  predicate HasUnsafeEnding(path: string) {
    exists end :: 3 <= end <= |path| && UnsafeAt(path, end)
  }

  // find(separator, start), the size of the path standing for npos.
  function NextSeparator(path: string, start: nat): (end: nat)
    requires start <= |path|
    ensures start <= end <= |path|
    ensures forall i :: start <= i < end ==> path[i] != '\\'
    ensures end < |path| ==> path[end] == '\\'
    decreases |path| - start
  {
    if start == |path| || path[start] == '\\' then start else NextSeparator(path, start + 1)
  }

  method HasUnsafeSegmentEnding(path: string) returns (unsafe: bool)
    requires |path| >= 3
    ensures unsafe == HasUnsafeEnding(path)
  {
    var start := 3;
    while start < |path|
      invariant 3 <= start <= |path|
      invariant start == 3 || start == |path| || path[start - 1] == '\\'
      invariant forall e :: 3 <= e < start ==> !UnsafeAt(path, e)
      invariant start == |path| ==> !UnsafeAt(path, start)
    {
      var end := NextSeparator(path, start);
      if end == start {
        assert UnsafeAt(path, end);
        return true;
      }
      var last := path[end - 1];
      if last == '.' || last == ' ' {
        assert UnsafeAt(path, end);
        return true;
      }
      assert !UnsafeAt(path, end);
      start := if end == |path| then end else end + 1;
      assert start < |path| || end == |path| || path[|path| - 1] == '\\';
    }
    return false;
  }

  predicate Syntactic(h: Host, path: string) {
    !HasInvalid(path) && HasDrive(h, path) && !HasStream(path)
  }

  // A normal form: nothing is left for GetFullPathNameW to change.
  predicate Clean(h: Host, path: string) {
    Syntactic(h, path) && '/' !in path && Trimmed(path) == path && !HasUnsafeEnding(path)
  }

  function Backslashed(path: string): (r: string)
    ensures |r| == |path|
    ensures forall i :: 0 <= i < |path| ==> r[i] == if path[i] == '/' then '\\' else path[i]
  {
    seq(|path|, i requires 0 <= i < |path| => if path[i] == '/' then '\\' else path[i])
  }

  function Normalize(h: Host, path: string): Normalized {
    if path == "" then Invalid(EmptyPath)
    else if HasInvalid(path) then Invalid(InvalidCharacter)
    else if !HasDrive(h, path) then Invalid(NotAbsolute)
    else if HasStream(path) then Invalid(AlternateStream)
    else match h.full(path)
      case None => Invalid(NotNormalizable)
      case Some(full) =>
        var normalized := Trimmed(Backslashed(full));
        if HasUnsafeEnding(normalized) then Invalid(UnsafeEnding) else Normal(normalized)
  }

  // GetFullPathNameW leaves normal forms alone and makes drive paths of drive
  // paths; a slash is no letter.
  ghost predicate FullLaw(h: Host) {
    && !h.alpha('/')
    && (forall p {:trigger h.full(p)} :: Clean(h, p) ==> h.full(p) == Some(p))
    && (forall p {:trigger h.full(p)} :: Syntactic(h, p) && h.full(p).Some? ==> Syntactic(h, h.full(p).value))
  }

  ghost predicate Lawful(h: Host) {
    FoldLaw(h) && FullLaw(h)
  }

  // Folding leaves digits alone.
  ghost predicate DigitLaw(h: Host) {
    forall c, d {:trigger h.fold(c), h.fold(d)} :: IsDigit(d) && h.fold(c) == h.fold(d) ==> c == d
  }

  lemma LawsHaveAModel(alpha: char -> bool)
    requires !alpha('/')
    ensures Lawful(Host(c => c, alpha, p => Some(p))) && DigitLaw(Host(c => c, alpha, p => Some(p)))
  {
    var h := Host(c => c, alpha, p => Some(p));
    forall c
      ensures FoldsWell(h, c)
    {
    }
  }

  lemma TrimmedBackslashed(h: Host, full: string)
    requires !h.alpha('/') && Syntactic(h, full) && !HasUnsafeEnding(Trimmed(Backslashed(full)))
    ensures Clean(h, Trimmed(Backslashed(full)))
  {
    var r := Trimmed(Backslashed(full));
    TrimmedLength(Backslashed(full));
    TrimmedTwice(Backslashed(full));
    forall i | 0 <= i < |r|
      ensures !IsInvalid(r[i]) && r[i] != '/' && (i >= 2 ==> r[i] != ':')
    {
      assert !IsInvalid(full[i]) && (i >= 2 ==> full[i] != ':');
    }
    assert r[0] == full[0] && r[1] == full[1];
  }

  lemma {:induction false} TrimmedLength(path: string)
    requires |path| >= 3
    ensures |Trimmed(path)| >= 3
    decreases |path|
  {
    if |path| > 3 && IsSeparator(path[|path| - 1]) {
      TrimmedLength(path[..|path| - 1]);
    }
  }

  lemma TrimmedTwice(path: string)
    ensures Trimmed(Trimmed(path)) == Trimmed(path)
  {
  }

  // Normal forms are clean, and clean paths are their own normal form.
  lemma NormalFormIsClean(h: Host, path: string)
    requires FullLaw(h) && Normalize(h, path).Normal?
    ensures Clean(h, Normalize(h, path).path)
  {
    TrimmedBackslashed(h, h.full(path).value);
  }

  lemma CleanIsNormal(h: Host, path: string)
    requires FullLaw(h) && Clean(h, path)
    ensures Normalize(h, path) == Normal(path)
  {
    assert h.full(path) == Some(path);
    assert Backslashed(path) == path;
  }

  lemma NormalizeIdempotent(h: Host, path: string)
    requires FullLaw(h) && Normalize(h, path).Normal?
    ensures Normalize(h, Normalize(h, path).path) == Normalize(h, path)
  {
    NormalFormIsClean(h, path);
    CleanIsNormal(h, Normalize(h, path).path);
  }

  // ------------------------------------------------------------- what is there

  datatype Attributes = Missing | Denied | Present(directory: bool, reparse: bool)

  // complete: the enumeration ended because there were no more files.
  datatype Listing = Listing(names: seq<string>, complete: bool)

  datatype Tree = Tree(attributes: string -> Attributes, listing: string -> Listing)

  datatype ExistingPathState = MissingPath | EmptyDirectory | NonEmptyDirectory | NotDirectory | Inaccessible

  // The prefixes the inspection looks at: the drive, up to every later
  // separator, and the whole path.
  predicate IsComponentEnd(path: string, end: int) {
    3 <= end <= |path| && (end == 3 || end == |path| || (end > 3 && path[end] == '\\'))
  }

  predicate PlainDirectory(a: Attributes) {
    a.Present? && a.directory && !a.reparse
  }

  ghost predicate PlainUpTo(t: Tree, path: string, limit: int) {
    forall end {:trigger IsComponentEnd(path, end)} ::
      end < limit && IsComponentEnd(path, end) ==> PlainDirectory(t.attributes(path[..end]))
  }

  // What an end whose prefix is not a plain directory makes of the path.
  function Obstacle(a: Attributes): ExistingPathState {
    match a
    case Missing => MissingPath
    case Denied => Inaccessible
    case Present(_, reparse) => if reparse then Inaccessible else NotDirectory
  }

  function Contents(l: Listing): ExistingPathState {
    if exists i :: 0 <= i < |l.names| && l.names[i] != "." && l.names[i] != ".." then NonEmptyDirectory
    else if l.complete then EmptyDirectory
    else Inaccessible
  }

  // Which state a path is in: that of its first obstacle, or of its contents.
  ghost predicate HasState(t: Tree, path: string, state: ExistingPathState) {
    || (PlainUpTo(t, path, |path| + 1) && state == Contents(t.listing(path)))
    || (exists end :: IsComponentEnd(path, end) && PlainUpTo(t, path, end)
                      && !PlainDirectory(t.attributes(path[..end])) && state == Obstacle(t.attributes(path[..end])))
  }

  function InspectFrom(t: Tree, path: string, end: nat): ExistingPathState
    requires end <= |path|
    decreases |path| - end
  {
    var a := t.attributes(path[..end]);
    if !PlainDirectory(a) then Obstacle(a)
    else if end == |path| then Contents(t.listing(path))
    else InspectFrom(t, path, NextSeparator(path, end + 1))
  }

  function Inspect(t: Tree, path: string): ExistingPathState
    requires |path| >= 3
  {
    InspectFrom(t, path, 3)
  }

  lemma {:induction false} InspectFromState(t: Tree, path: string, end: nat)
    requires IsComponentEnd(path, end) && PlainUpTo(t, path, end)
    ensures HasState(t, path, InspectFrom(t, path, end))
    decreases |path| - end
  {
    if PlainDirectory(t.attributes(path[..end])) && end < |path| {
      var next := NextSeparator(path, end + 1);
      assert forall e :: end < e < next ==> !IsComponentEnd(path, e);
      InspectFromState(t, path, next);
    }
  }

  // The inspection finds the state the definition above describes.
  lemma InspectFindsTheState(t: Tree, path: string, state: ExistingPathState)
    requires |path| >= 3
    ensures Inspect(t, path) == state <==> HasState(t, path, state)
  {
    InspectFromState(t, path, 3);
    if HasState(t, path, state) {
      StateIsUnique(t, path, state, Inspect(t, path));
    }
  }

  // A path is taken for a directory, empty or not, only if no component of it is
  // a reparse point, a file or missing.
  lemma NoReparsePointIsFollowed(t: Tree, path: string)
    requires |path| >= 3 && Inspect(t, path) in {EmptyDirectory, NonEmptyDirectory}
    ensures PlainUpTo(t, path, |path| + 1)
  {
    InspectFindsTheState(t, path, Inspect(t, path));
  }

  lemma StateIsUnique(t: Tree, path: string, s: ExistingPathState, s': ExistingPathState)
    requires HasState(t, path, s) && HasState(t, path, s')
    ensures s == s'
  {
  }

  method InspectExistingPath(t: Tree, path: string) returns (state: ExistingPathState)
    requires |path| >= 3
    ensures state == Inspect(t, path)
  {
    var end := 3;
    while true
      invariant 3 <= end <= |path| && InspectFrom(t, path, end) == Inspect(t, path)
      decreases |path| - end
    {
      var a := t.attributes(path[..end]);
      if a == Missing {
        return MissingPath;
      }
      if a == Denied || a.reparse {
        return Inaccessible;
      }
      if !a.directory {
        return NotDirectory;
      }
      if end == |path| {
        break;
      }
      end := NextSeparator(path, end + 1);
    }
    var l := t.listing(path);
    var i := 0;
    while i < |l.names|
      invariant 0 <= i <= |l.names|
      invariant forall j :: 0 <= j < i ==> l.names[j] == "." || l.names[j] == ".."
    {
      if l.names[i] != "." && l.names[i] != ".." {
        return NonEmptyDirectory;
      }
      i := i + 1;
    }
    return if l.complete then EmptyDirectory else Inaccessible;
  }

  // ------------------------------------------------------------------- policy

  type Roots = seq<string>

  datatype Verdict = Verdict(ok: bool, existing: bool, path: string, error: Option<PathError>)

  function Accept(path: string, existing: bool): Verdict {
    Verdict(true, existing, path, None)
  }

  function Refuse(path: string, error: PathError): Verdict {
    Verdict(false, false, path, Some(error))
  }

  predicate Covers(h: Host, root: string, path: string) {
    && root != ""
    && Normalize(h, root).Normal?
    && Within(h, path, Normalize(h, root).path)
  }

  predicate InProtected(h: Host, roots: Roots, path: string) {
    exists i :: 0 <= i < |roots| && Covers(h, roots[i], path)
  }

  function Validate(h: Host, candidate: string, registered: Option<string>, roots: Roots,
                    state: ExistingPathState): Verdict
  {
    match Normalize(h, candidate)
    case Invalid(error) => Refuse("", error)
    case Normal(path) =>
      if |path| == 3 then Refuse(path, DriveRoot)
      else if InProtected(h, roots, path) then Refuse(path, Protected)
      else if registered.Some? then ValidateRepair(h, path, registered.value, state)
      else ValidateNew(path, state)
  }

  function ValidateRepair(h: Host, path: string, registered: string, state: ExistingPathState): Verdict {
    match Normalize(h, registered)
    case Invalid(error) => Refuse(path, RegisteredInvalid(error))
    case Normal(installed) =>
      if !SamePath(h, path, installed) then Refuse(path, RegisteredElsewhere)
      else if state == NotDirectory || state == Inaccessible then Refuse(path, RegisteredInaccessible)
      else Accept(path, true)
  }

  function ValidateNew(path: string, state: ExistingPathState): Verdict {
    match state
    case NotDirectory => Refuse(path, OccupiedByFile)
    case NonEmptyDirectory => Refuse(path, NotEmpty)
    case Inaccessible => Refuse(path, NotInspectable)
    case _ => Accept(path, false)
  }

  function StateOf(t: Tree, path: string): ExistingPathState {
    if |path| < 3 then MissingPath else Inspect(t, path)
  }

  // validateInstallDirectory of the installer window: the strict check the
  // worker makes again.
  function ValidateDirectory(h: Host, t: Tree, candidate: string, registered: Option<string>, roots: Roots): Verdict {
    var state := match Normalize(h, candidate)
      case Normal(path) => StateOf(t, path)
      case Invalid(_) => MissingPath;
    Validate(h, candidate, registered, roots, state)
  }

  // The strict check accepts exactly these candidates.
  lemma AcceptedExactly(h: Host, t: Tree, candidate: string, registered: Option<string>, roots: Roots)
    requires FullLaw(h)
    ensures ValidateDirectory(h, t, candidate, registered, roots).ok
            <==> Normalize(h, candidate).Normal?
                 && var path := Normalize(h, candidate).path;
                    && |path| > 3
                    && (forall i :: 0 <= i < |roots| ==> !Covers(h, roots[i], path))
                    && (if registered == None then StateOf(t, path) in {MissingPath, EmptyDirectory}
                        else IsInstalledAt(h, path, registered.value)
                             && StateOf(t, path) !in {NotDirectory, Inaccessible})
  {
    if Normalize(h, candidate).Normal? {
      NormalFormIsClean(h, candidate);
    }
  }

  predicate IsInstalledAt(h: Host, path: string, registered: string) {
    match Normalize(h, registered)
    case Invalid(_) => false
    case Normal(installed) => SamePath(h, path, installed)
  }

  // Whatever lies below something inside a protected root is refused.
  lemma NothingInsideProtected(h: Host, candidate: string, between: string, registered: Option<string>, roots: Roots,
                               state: ExistingPathState, i: nat)
    requires Lawful(h) && Normalize(h, candidate).Normal?
    requires i < |roots| && Within(h, Normalize(h, candidate).path, between) && Covers(h, roots[i], between)
    ensures !Validate(h, candidate, registered, roots, state).ok
  {
    WithinTransitive(h, Normalize(h, candidate).path, between, Normalize(h, roots[i]).path);
    assert Covers(h, roots[i], Normalize(h, candidate).path);
  }

  // -------------------------------------------------------------- the children

  const LAST_SUFFIX := 100

  function ChildName(n: nat): string {
    if n == 1 then "Yanami" else "Yanami (" + Digits(n) + ")"
  }

  function Child(parent: string, n: nat): string {
    parent + "\\" + ChildName(n)
  }

  // The directory a normal form lies in; a drive root lies in itself.
  function ParentPath(path: string): string
    requires |path| >= 3
  {
    if |path| == 3 then path else ParentFrom(path, |path| - 1)
  }

  function ParentFrom(path: string, i: nat): string
    requires 2 <= i < |path|
  {
    if i == 2 then path[..3]
    else if path[i] == '\\' then path[..i]
    else ParentFrom(path, i - 1)
  }

  predicate PlainName(name: string) {
    && name != ""
    && (forall i :: 0 <= i < |name| ==> !IsInvalid(name[i]) && !IsSeparator(name[i]) && name[i] != ':')
    && name[|name| - 1] != '.' && name[|name| - 1] != ' '
  }

  lemma ChildNameIsPlain(n: nat)
    ensures PlainName(ChildName(n))
  {
    var name := ChildName(n);
    assert forall i :: 0 <= i < |Digits(n)| ==> IsDigit(Digits(n)[i]);
  }

  lemma ChildIsClean(h: Host, parent: string, name: string)
    requires Clean(h, parent) && |parent| > 3 && PlainName(name)
    ensures Clean(h, parent + "\\" + name)
  {
    var path := parent + "\\" + name;
    forall i | 0 <= i < |path|
      ensures !IsInvalid(path[i]) && path[i] != '/' && (i >= 2 ==> path[i] != ':')
    {
      if i < |parent| {
        assert path[i] == parent[i];
      } else if i > |parent| {
        assert path[i] == name[i - |parent| - 1];
      }
    }
    forall end | 3 <= end <= |path|
      ensures !UnsafeAt(path, end)
    {
      ChildEnds(parent, name, end);
    }
  }

  lemma ChildEnds(parent: string, name: string, end: nat)
    requires |parent| > 3 && !IsSeparator(parent[|parent| - 1]) && !HasUnsafeEnding(parent) && PlainName(name)
    requires 3 <= end <= |parent| + 1 + |name|
    ensures !UnsafeAt(parent + "\\" + name, end)
  {
    var path := parent + "\\" + name;
    if end <= |parent| {
      assert !UnsafeAt(parent, end);
      assert path[end - 1] == parent[end - 1];
    } else if end < |path| {
      assert path[end] == name[end - |parent| - 1];
    } else {
      assert path[end - 1] == name[|name| - 1];
    }
  }

  // --------------------------------------------------------------- resolution

  function ChildVerdict(h: Host, t: Tree, parent: string, registered: Option<string>, roots: Roots, n: nat): Verdict {
    Validate(h, Child(parent, n), registered, roots, StateOf(t, Child(parent, n)))
  }

  // The children from a suffix on: the first whose validation is returned. With
  // a registered installation only the child that is the same path is looked at.
  function FirstChild(h: Host, t: Tree, parent: string, registered: Option<string>, installed: Option<string>,
                      roots: Roots, suffix: nat): Option<Verdict>
    decreases LAST_SUFFIX + 1 - suffix
  {
    if suffix > LAST_SUFFIX then None
    else
      if installed.Some? && !SamePath(h, Child(parent, suffix), installed.value) then
        FirstChild(h, t, parent, registered, installed, roots, suffix + 1)
      else
        var v := ChildVerdict(h, t, parent, registered, roots, suffix);
        if v.ok || installed.Some? then Some(v)
        else FirstChild(h, t, parent, registered, installed, roots, suffix + 1)
  }

  function InstalledIn(h: Host, parent: string, registered: string): Option<string> {
    match Normalize(h, registered)
    case Invalid(_) => None
    case Normal(path) => if |path| >= 3 && SamePath(h, ParentPath(path), parent) then Some(path) else None
  }

  function Resolve(h: Host, t: Tree, selected: string, registered: Option<string>, roots: Roots): Verdict {
    var policy := Validate(h, selected, None, roots, MissingPath);
    if !policy.ok then policy else ResolveIn(h, t, policy.path, registered, roots)
  }

  function Direct(h: Host, t: Tree, parent: string, registered: Option<string>, roots: Roots): Verdict {
    Validate(h, parent, registered, roots, StateOf(t, parent))
  }

  function ResolveIn(h: Host, t: Tree, parent: string, registered: Option<string>, roots: Roots): Verdict {
    var direct := Direct(h, t, parent, registered, roots);
    if direct.ok || StateOf(t, parent) != NonEmptyDirectory then direct
    else if registered.Some? then
      var installed := InstalledIn(h, parent, registered.value);
      if installed == None then direct
      else
        var child := FirstChild(h, t, parent, registered, installed, roots, 1);
        if child.Some? then child.value else direct
    else
      var child := FirstChild(h, t, parent, None, None, roots, 1);
      if child.Some? then child.value else direct.(error := Some(NoChildAvailable))
  }

  method ResolveInstallDirectory(h: Host, t: Tree, selected: string, registered: Option<string>, roots: Roots)
    returns (result: Verdict)
    requires Lawful(h)
    ensures result == Resolve(h, t, selected, registered, roots)
  {
    var policy := Validate(h, selected, None, roots, MissingPath);
    if !policy.ok {
      return policy;
    }
    PolicyPathIsClean(h, selected, roots);
    var parent := policy.path;
    var state := InspectExistingPath(t, parent);
    result := Validate(h, parent, registered, roots, state);
    if result.ok || state != NonEmptyDirectory {
      return result;
    }
    var installed := None;
    if registered.Some? {
      installed := InstalledIn(h, parent, registered.value);
      if installed == None {
        return result;
      }
    }
    var suffix := 1;
    while suffix <= LAST_SUFFIX
      invariant 1 <= suffix <= LAST_SUFFIX + 1
      invariant FirstChild(h, t, parent, registered, installed, roots, suffix)
             == FirstChild(h, t, parent, registered, installed, roots, 1)
    {
      var proposed := Child(parent, suffix);
      if !(installed.Some? && !SamePath(h, proposed, installed.value)) {
        var proposedState := InspectExistingPath(t, proposed);
        var validation := Validate(h, proposed, registered, roots, proposedState);
        if validation.ok || installed.Some? {
          return validation;
        }
      }
      suffix := suffix + 1;
    }
    if registered == None {
      result := result.(error := Some(NoChildAvailable));
    }
  }

  lemma PolicyPathIsClean(h: Host, selected: string, roots: Roots)
    requires FullLaw(h) && Validate(h, selected, None, roots, MissingPath).ok
    ensures var path := Validate(h, selected, None, roots, MissingPath).path;
            && Normalize(h, selected) == Normal(path) && Clean(h, path) && |path| > 3
  {
    NormalFormIsClean(h, selected);
  }

  // ------------------------------------------------------------------ theorems

  // What an accepted verdict on a clean path says, whatever led to it.
  ghost predicate Strict(h: Host, t: Tree, v: Verdict, registered: Option<string>, roots: Roots) {
    && Clean(h, v.path) && |v.path| > 3
    && v == Validate(h, v.path, registered, roots, StateOf(t, v.path))
  }

  // The n-th child can take a new installation.
  predicate Free(h: Host, t: Tree, parent: string, roots: Roots, n: nat) {
    ChildVerdict(h, t, parent, None, roots, n).ok
  }

  ghost predicate Taken(h: Host, t: Tree, parent: string, roots: Roots, first: nat, end: nat) {
    forall m {:trigger Free(h, t, parent, roots, m)} :: first <= m < end ==> !Free(h, t, parent, roots, m)
  }

  function LeastFree(h: Host, t: Tree, parent: string, roots: Roots, suffix: nat): (n: nat)
    requires suffix <= LAST_SUFFIX + 1
    ensures suffix <= n <= LAST_SUFFIX + 1
    ensures n <= LAST_SUFFIX ==> Free(h, t, parent, roots, n)
    ensures Taken(h, t, parent, roots, suffix, n)
    decreases LAST_SUFFIX + 1 - suffix
  {
    if suffix > LAST_SUFFIX || Free(h, t, parent, roots, suffix) then suffix
    else LeastFree(h, t, parent, roots, suffix + 1)
  }

  lemma AcceptedIsStrict(h: Host, t: Tree, path: string, registered: Option<string>, roots: Roots)
    requires Lawful(h) && Clean(h, path) && |path| > 3
    ensures var v := Validate(h, path, registered, roots, StateOf(t, path));
            v.ok ==> v.path == path && Strict(h, t, v, registered, roots)
  {
    CleanIsNormal(h, path);
  }

  lemma ChildIsStrict(h: Host, t: Tree, parent: string, registered: Option<string>, roots: Roots, n: nat)
    requires Lawful(h) && Clean(h, parent) && |parent| > 3
    ensures var v := ChildVerdict(h, t, parent, registered, roots, n);
            v.ok ==> v.path == Child(parent, n) && Strict(h, t, v, registered, roots)
  {
    ChildNameIsPlain(n);
    ChildIsClean(h, parent, ChildName(n));
    AcceptedIsStrict(h, t, Child(parent, n), registered, roots);
  }

  // Without a registered installation the first child that is acceptable is taken.
  lemma {:induction false} LeastChild(h: Host, t: Tree, parent: string, roots: Roots, suffix: nat)
    requires suffix <= LAST_SUFFIX + 1
    ensures FirstChild(h, t, parent, None, None, roots, suffix) == ChildAt(h, t, parent, roots, suffix)
    decreases LAST_SUFFIX + 1 - suffix
  {
    if suffix <= LAST_SUFFIX && !Free(h, t, parent, roots, suffix) {
      LeastChild(h, t, parent, roots, suffix + 1);
      NextChild(h, t, parent, roots, suffix);
    }
  }

  function ChildAt(h: Host, t: Tree, parent: string, roots: Roots, suffix: nat): Option<Verdict>
    requires suffix <= LAST_SUFFIX + 1
  {
    var n := LeastFree(h, t, parent, roots, suffix);
    if n <= LAST_SUFFIX then Some(ChildVerdict(h, t, parent, None, roots, n)) else None
  }

  lemma NextChild(h: Host, t: Tree, parent: string, roots: Roots, suffix: nat)
    requires suffix <= LAST_SUFFIX && !Free(h, t, parent, roots, suffix)
    ensures FirstChild(h, t, parent, None, None, roots, suffix)
         == FirstChild(h, t, parent, None, None, roots, suffix + 1)
  {
  }

  // The least suffix whose child is the installed path, or one more than the last.
  function SuffixOf(h: Host, parent: string, installed: string, suffix: nat): (n: nat)
    requires suffix <= LAST_SUFFIX + 1
    ensures suffix <= n <= LAST_SUFFIX + 1
    ensures n <= LAST_SUFFIX ==> SamePath(h, Child(parent, n), installed)
    ensures forall m :: suffix <= m < n ==> !SamePath(h, Child(parent, m), installed)
    decreases LAST_SUFFIX + 1 - suffix
  {
    if suffix > LAST_SUFFIX || SamePath(h, Child(parent, suffix), installed) then suffix
    else SuffixOf(h, parent, installed, suffix + 1)
  }

  function VerdictAt(h: Host, t: Tree, parent: string, registered: Option<string>, roots: Roots, n: nat)
    : Option<Verdict>
  {
    if n <= LAST_SUFFIX then Some(ChildVerdict(h, t, parent, registered, roots, n)) else None
  }

  lemma SuffixSkips(h: Host, parent: string, installed: string, suffix: nat)
    requires suffix <= LAST_SUFFIX && !SamePath(h, Child(parent, suffix), installed)
    ensures SuffixOf(h, parent, installed, suffix) == SuffixOf(h, parent, installed, suffix + 1)
  {
  }

  lemma {:induction false} InstalledChild(h: Host, t: Tree, parent: string, registered: Option<string>,
                                          installed: string, roots: Roots, suffix: nat)
    requires suffix <= LAST_SUFFIX + 1
    ensures FirstChild(h, t, parent, registered, Some(installed), roots, suffix)
         == VerdictAt(h, t, parent, registered, roots, SuffixOf(h, parent, installed, suffix))
    decreases LAST_SUFFIX + 1 - suffix
  {
    if suffix <= LAST_SUFFIX && !SamePath(h, Child(parent, suffix), installed) {
      SkippedChild(h, t, parent, registered, installed, roots, suffix);
      SuffixSkips(h, parent, installed, suffix);
      InstalledChild(h, t, parent, registered, installed, roots, suffix + 1);
    } else {
      FoundChild(h, t, parent, registered, installed, roots, suffix);
    }
  }

  lemma FoundChild(h: Host, t: Tree, parent: string, registered: Option<string>, installed: string,
                   roots: Roots, suffix: nat)
    requires suffix <= LAST_SUFFIX ==> SamePath(h, Child(parent, suffix), installed)
    requires suffix <= LAST_SUFFIX + 1
    ensures FirstChild(h, t, parent, registered, Some(installed), roots, suffix)
         == VerdictAt(h, t, parent, registered, roots, suffix)
    ensures SuffixOf(h, parent, installed, suffix) == suffix
  {
  }

  lemma SkippedChild(h: Host, t: Tree, parent: string, registered: Option<string>, installed: string,
                     roots: Roots, suffix: nat)
    requires suffix <= LAST_SUFFIX && !SamePath(h, Child(parent, suffix), installed)
    ensures FirstChild(h, t, parent, registered, Some(installed), roots, suffix)
         == FirstChild(h, t, parent, registered, Some(installed), roots, suffix + 1)
  {
  }

  // An accepted resolution passes the strict check on the same file system with
  // the same verdict.
  lemma ResolutionIsStrict(h: Host, t: Tree, selected: string, registered: Option<string>, roots: Roots)
    requires Lawful(h) && Resolve(h, t, selected, registered, roots).ok
    ensures Strict(h, t, Resolve(h, t, selected, registered, roots), registered, roots)
  {
    PolicyPathIsClean(h, selected, roots);
    var parent := Validate(h, selected, None, roots, MissingPath).path;
    if Direct(h, t, parent, registered, roots).ok {
      AcceptedIsStrict(h, t, parent, registered, roots);
    } else if registered == None {
      LeastChild(h, t, parent, roots, 1);
      ChildIsStrict(h, t, parent, None, roots, LeastFree(h, t, parent, roots, 1));
    } else {
      var installed := InstalledIn(h, parent, registered.value).value;
      InstalledChild(h, t, parent, registered, installed, roots, 1);
      ChildIsStrict(h, t, parent, registered, roots, SuffixOf(h, parent, installed, 1));
    }
  }

  lemma ResolutionRevalidates(h: Host, t: Tree, selected: string, registered: Option<string>, roots: Roots)
    requires Lawful(h) && Resolve(h, t, selected, registered, roots).ok
    ensures var v := Resolve(h, t, selected, registered, roots);
            && ValidateDirectory(h, t, v.path, registered, roots) == v
            && Resolve(h, t, v.path, registered, roots) == v
  {
    var v := Resolve(h, t, selected, registered, roots);
    ResolutionIsStrict(h, t, selected, registered, roots);
    CleanIsNormal(h, v.path);
  }

  // It lies outside every protected root, and where an installation is
  // registered it is that installation.
  lemma ResolutionRespectsThePolicy(h: Host, t: Tree, selected: string, registered: Option<string>, roots: Roots)
    requires Lawful(h) && Resolve(h, t, selected, registered, roots).ok
    ensures var v := Resolve(h, t, selected, registered, roots);
            && (forall i :: 0 <= i < |roots| ==> !Covers(h, roots[i], v.path))
            && (registered.Some? ==>
                  Normalize(h, registered.value).Normal? && SamePath(h, v.path, Normalize(h, registered.value).path))
            && (registered == None ==> StateOf(t, v.path) in {MissingPath, EmptyDirectory})
            && v.existing == registered.Some?
  {
    var v := Resolve(h, t, selected, registered, roots);
    ResolutionIsStrict(h, t, selected, registered, roots);
    CleanIsNormal(h, v.path);
  }

  // A path that can take a new installation.
  predicate CanTake(h: Host, t: Tree, path: string, roots: Roots) {
    && (forall i :: 0 <= i < |roots| ==> !Covers(h, roots[i], path))
    && (StateOf(t, path) == MissingPath || StateOf(t, path) == EmptyDirectory)
  }

  predicate IsNamed(parent: string, n: nat, path: string) {
    if n == 1 then path == parent + "\\Yanami" else path == parent + "\\Yanami (" + Digits(n) + ")"
  }

  lemma ChildIsNamed(parent: string, n: nat, path: string)
    ensures IsNamed(parent, n, path) <==> path == Child(parent, n)
  {
    assert parent + "\\" + "Yanami" == parent + "\\Yanami";
    assert parent + "\\" + ("Yanami (" + Digits(n) + ")") == parent + "\\Yanami (" + Digits(n) + ")";
  }

  lemma FreeCanTake(h: Host, t: Tree, parent: string, roots: Roots, n: nat)
    requires Lawful(h) && Clean(h, parent) && |parent| > 3
    ensures Free(h, t, parent, roots, n) <==> CanTake(h, t, Child(parent, n), roots)
  {
    ChildNameIsPlain(n);
    ChildIsClean(h, parent, ChildName(n));
    CleanIsNormal(h, Child(parent, n));
  }

  // No child with a number from 1 on and below end can take one.
  ghost predicate AllTaken(h: Host, t: Tree, parent: string, roots: Roots, end: nat) {
    forall n, path :: 1 <= n < end && IsNamed(parent, n, path) ==> !CanTake(h, t, path, roots)
  }

  lemma TakenAll(h: Host, t: Tree, parent: string, roots: Roots, end: nat)
    requires Lawful(h) && Clean(h, parent) && |parent| > 3 && Taken(h, t, parent, roots, 1, end)
    ensures AllTaken(h, t, parent, roots, end)
  {
    forall n: nat, path | 1 <= n < end && IsNamed(parent, n, path)
      ensures !CanTake(h, t, path, roots)
    {
      ChildIsNamed(parent, n, path);
      FreeCanTake(h, t, parent, roots, n);
    }
  }

  // A new installation goes to the selected directory if that can take it, or
  // else, if that is in use, to its child with the least number that can; it is
  // refused when none of them can.
  lemma NewInstallTakesTheLeast(h: Host, t: Tree, selected: string, roots: Roots)
    requires Lawful(h) && Validate(h, selected, None, roots, MissingPath).ok
    ensures var parent := Normalize(h, selected).path;
            var v := Resolve(h, t, selected, None, roots);
            match StateOf(t, parent)
            case MissingPath => v == Accept(parent, false)
            case EmptyDirectory => v == Accept(parent, false)
            case NonEmptyDirectory =>
              if v.ok then
                !v.existing && CanTake(h, t, v.path, roots)
                && exists n :: 1 <= n <= 100 && IsNamed(parent, n, v.path) && AllTaken(h, t, parent, roots, n)
              else v == Refuse(parent, NoChildAvailable) && AllTaken(h, t, parent, roots, 101)
            case NotDirectory => v == Refuse(parent, OccupiedByFile)
            case Inaccessible => v == Refuse(parent, NotInspectable)
  {
    PolicyPathIsClean(h, selected, roots);
    var parent := Normalize(h, selected).path;
    CleanIsNormal(h, parent);
    if StateOf(t, parent) == NonEmptyDirectory {
      UsedFolder(h, t, parent, roots);
    }
  }

  lemma UsedFolder(h: Host, t: Tree, parent: string, roots: Roots)
    requires Lawful(h) && Clean(h, parent) && |parent| > 3 && StateOf(t, parent) == NonEmptyDirectory
    requires Validate(h, parent, None, roots, MissingPath).ok
    ensures var v := ResolveIn(h, t, parent, None, roots);
            if v.ok then
              !v.existing && CanTake(h, t, v.path, roots)
              && exists n :: 1 <= n <= 100 && IsNamed(parent, n, v.path) && AllTaken(h, t, parent, roots, n)
            else v == Refuse(parent, NoChildAvailable) && AllTaken(h, t, parent, roots, 101)
  {
    var n := LeastFree(h, t, parent, roots, 1);
    UsedFolderTakes(h, t, parent, roots, n);
    TakenAll(h, t, parent, roots, n);
    if n <= LAST_SUFFIX {
      FreeCanTake(h, t, parent, roots, n);
      ChildIsNamed(parent, n, Child(parent, n));
    }
  }

  lemma UsedFolderTakes(h: Host, t: Tree, parent: string, roots: Roots, n: nat)
    requires Lawful(h) && Clean(h, parent) && |parent| > 3 && StateOf(t, parent) == NonEmptyDirectory
    requires Validate(h, parent, None, roots, MissingPath).ok && n == LeastFree(h, t, parent, roots, 1)
    ensures ResolveIn(h, t, parent, None, roots)
         == if n <= LAST_SUFFIX then Accept(Child(parent, n), false) else Refuse(parent, NoChildAvailable)
  {
    UseIsRefused(h, t, parent, roots);
    LeastChild(h, t, parent, roots, 1);
    if n <= LAST_SUFFIX {
      FreeIsAccepted(h, t, parent, roots, n);
      assert ResolveIn(h, t, parent, None, roots) == ChildVerdict(h, t, parent, None, roots, n);
    }
  }

  lemma FreeIsAccepted(h: Host, t: Tree, parent: string, roots: Roots, n: nat)
    requires Lawful(h) && Clean(h, parent) && |parent| > 3 && Free(h, t, parent, roots, n)
    ensures ChildVerdict(h, t, parent, None, roots, n) == Accept(Child(parent, n), false)
  {
    ChildNameIsPlain(n);
    ChildIsClean(h, parent, ChildName(n));
    CleanIsNormal(h, Child(parent, n));
  }

  lemma UseIsRefused(h: Host, t: Tree, parent: string, roots: Roots)
    requires FullLaw(h) && Clean(h, parent) && StateOf(t, parent) == NonEmptyDirectory
    requires Validate(h, parent, None, roots, MissingPath).ok
    ensures Direct(h, t, parent, None, roots) == Refuse(parent, NotEmpty)
  {
    CleanIsNormal(h, parent);
  }

  predicate Repairable(h: Host, t: Tree, path: string, registered: string, roots: Roots) {
    Direct(h, t, path, Some(registered), roots).ok
  }

  // Whether the folder holds the installation under one of the names given there,
  // in a state to be repaired.
  predicate HoldsRepairable(h: Host, t: Tree, parent: string, registered: string, roots: Roots) {
    var installed := InstalledIn(h, parent, registered);
    && installed.Some?
    && var n := SuffixOf(h, parent, installed.value, 1);
       n <= LAST_SUFFIX && Repairable(h, t, Child(parent, n), registered, roots)
  }

  lemma RepairIsLookedUp(h: Host, t: Tree, parent: string, registered: string, roots: Roots)
    ensures var v := ResolveIn(h, t, parent, Some(registered), roots);
            && (v.ok <==> Repairable(h, t, parent, registered, roots)
                          || (StateOf(t, parent) == NonEmptyDirectory
                              && HoldsRepairable(h, t, parent, registered, roots)))
            && (Repairable(h, t, parent, registered, roots) ==> v == Direct(h, t, parent, Some(registered), roots))
            && (v.ok && !Repairable(h, t, parent, registered, roots) ==>
                  v == Direct(h, t, Child(parent, SuffixOf(h, parent, InstalledIn(h, parent, registered).value, 1)),
                              Some(registered), roots))
  {
    var installed := InstalledIn(h, parent, registered);
    if installed.Some? {
      InstalledChild(h, t, parent, Some(registered), installed.value, roots, 1);
    }
  }

  // Two paths that are the same have their separators in the same places.
  lemma SameSeparators(h: Host, a: string, b: string, i: nat)
    requires FoldLaw(h) && Trimmed(a) == a && Trimmed(b) == b && SamePath(h, a, b) && i < |a|
    ensures |a| == |b| && (a[i] == '\\' <==> b[i] == '\\')
  {
    assert h.fold(a[i]) == h.fold(b[i]);
    assert FoldsWell(h, a[i]) && FoldsWell(h, b[i]);
  }

  lemma ParentIsFound(path: string, i: nat, k: nat)
    requires 2 < k <= i < |path| && path[k] == '\\' && forall j :: k < j <= i ==> path[j] != '\\'
    ensures ParentFrom(path, i) == path[..k]
    decreases i
  {
    if k < i {
      ParentIsFound(path, i - 1, k);
    }
  }

  // A registered path that is the same as a child lies in the same folder.
  lemma ChildLiesInFolder(h: Host, parent: string, n: nat, installed: string)
    requires Lawful(h) && Clean(h, parent) && |parent| > 3 && Clean(h, installed)
    requires SamePath(h, Child(parent, n), installed)
    ensures SamePath(h, ParentPath(installed), parent)
  {
    var child, k := Child(parent, n), |parent|;
    ChildNameIsPlain(n);
    ChildIsClean(h, parent, ChildName(n));
    forall j | k <= j < |child|
      ensures |installed| == |child| && (installed[j] == '\\' <==> j == k)
    {
      SameSeparators(h, child, installed, j);
      assert j > k ==> child[j] == ChildName(n)[j - k - 1];
    }
    assert child[k] == '\\';
    ParentIsFound(installed, |installed| - 1, k);
    assert !UnsafeAt(installed, k);
    assert Trimmed(installed[..k]) == installed[..k];
    forall i | 0 <= i < k
      ensures h.fold(installed[..k][i]) == h.fold(parent[i])
    {
      assert child[i] == parent[i];
    }
  }

  lemma SameDigits(h: Host, m: nat, n: nat)
    requires DigitLaw(h) && |ChildName(m)| == |ChildName(n)|
    requires forall i :: 0 <= i < |ChildName(m)| ==> h.fold(ChildName(m)[i]) == h.fold(ChildName(n)[i])
    requires m >= 1 && n >= 1
    ensures m == n
  {
    if m != 1 && n != 1 {
      var a, b := Digits(m), Digits(n);
      var front := |"Yanami ("|;
      assert |a| == |b|;
      forall i | 0 <= i < |a|
        ensures a[i] == b[i]
      {
        assert ChildName(m)[front + i] == a[i] && ChildName(n)[front + i] == b[i];
        assert IsDigit(b[i]);
      }
      assert a == b;
      DigitsInjective(m, n);
    }
  }

  // At most one child is the same path as another.
  lemma OneChild(h: Host, parent: string, m: nat, n: nat, installed: string)
    requires Lawful(h) && DigitLaw(h) && Clean(h, parent) && |parent| > 3 && m >= 1 && n >= 1
    requires SamePath(h, Child(parent, m), installed) && SamePath(h, Child(parent, n), installed)
    ensures m == n
  {
    ChildIsCleanToo(h, parent, m);
    ChildIsCleanToo(h, parent, n);
    var k := |parent| + 1;
    assert |ChildName(m)| == |ChildName(n)|;
    forall i | 0 <= i < |ChildName(m)|
      ensures h.fold(ChildName(m)[i]) == h.fold(ChildName(n)[i])
    {
      assert Child(parent, m)[k + i] == ChildName(m)[i] && Child(parent, n)[k + i] == ChildName(n)[i];
    }
    SameDigits(h, m, n);
  }

  // A path at which the registered installation can be repaired.
  predicate CanRepair(h: Host, t: Tree, path: string, installed: string, roots: Roots) {
    && SamePath(h, path, installed)
    && (forall i :: 0 <= i < |roots| ==> !Covers(h, roots[i], path))
    && StateOf(t, path) != NotDirectory && StateOf(t, path) != Inaccessible
  }

  lemma RepairableCanRepair(h: Host, t: Tree, path: string, registered: string, installed: string, roots: Roots)
    requires FullLaw(h) && Clean(h, path) && |path| > 3 && Normalize(h, registered) == Normal(installed)
    ensures Repairable(h, t, path, registered, roots) <==> CanRepair(h, t, path, installed, roots)
    ensures Repairable(h, t, path, registered, roots) ==>
              Direct(h, t, path, Some(registered), roots) == Accept(path, true)
  {
    CleanIsNormal(h, path);
  }

  // The folder holds the installation exactly if it is the same path as one of
  // the hundred children.
  lemma LookedUpChild(h: Host, parent: string, registered: string, installed: string, n: nat)
    requires Lawful(h) && DigitLaw(h) && Clean(h, parent) && |parent| > 3
    requires Normalize(h, registered) == Normal(installed) && 1 <= n <= 100
    requires SamePath(h, Child(parent, n), installed)
    ensures InstalledIn(h, parent, registered) == Some(installed) && SuffixOf(h, parent, installed, 1) == n
  {
    NormalFormIsClean(h, registered);
    ChildLiesInFolder(h, parent, n, installed);
    var m := SuffixOf(h, parent, installed, 1);
    OneChild(h, parent, m, n, installed);
  }

  // The numbered child of a folder in use that is the registered installation.
  ghost predicate IsInstalledChild(h: Host, t: Tree, parent: string, installed: string, path: string) {
    && StateOf(t, parent) == NonEmptyDirectory && SamePath(h, path, installed)
    && exists n :: 1 <= n <= 100 && IsNamed(parent, n, path)
  }

  // From a selection that passes the policy, a registered installation is found
  // exactly if it can be repaired at the selection itself, or at a child that the
  // installer names in a folder in use; no other path is ever accepted for it.
  lemma RepairIsResolvedExactly(h: Host, t: Tree, selected: string, registered: string, roots: Roots, path: string)
    requires Lawful(h) && DigitLaw(h) && Validate(h, selected, None, roots, MissingPath).ok
    ensures var parent := Normalize(h, selected).path;
            Resolve(h, t, selected, Some(registered), roots) == Accept(path, true)
            <==> Normalize(h, registered).Normal?
                 && var installed := Normalize(h, registered).path;
                    && CanRepair(h, t, path, installed, roots)
                    && (path == parent || IsInstalledChild(h, t, parent, installed, path))
    ensures var v := Resolve(h, t, selected, Some(registered), roots); v.ok ==> v == Accept(v.path, true)
  {
    PolicyPathIsClean(h, selected, roots);
    var parent := Normalize(h, selected).path;
    if Normalize(h, registered).Normal? {
      ResolvedRepair(h, t, parent, registered, Normalize(h, registered).path, roots, path);
    }
    if Resolve(h, t, selected, Some(registered), roots).ok {
      RepairIsAccepted(h, t, selected, registered, roots);
    }
  }

  lemma RepairIsAccepted(h: Host, t: Tree, selected: string, registered: string, roots: Roots)
    requires Lawful(h) && Resolve(h, t, selected, Some(registered), roots).ok
    ensures var v := Resolve(h, t, selected, Some(registered), roots); v == Accept(v.path, true)
  {
    ResolutionIsStrict(h, t, selected, Some(registered), roots);
  }

  lemma ResolvedRepair(h: Host, t: Tree, parent: string, registered: string, installed: string, roots: Roots,
                       path: string)
    requires Lawful(h) && DigitLaw(h) && Clean(h, parent) && |parent| > 3
    requires Normalize(h, registered) == Normal(installed)
    ensures ResolveIn(h, t, parent, Some(registered), roots) == Accept(path, true)
            <==> CanRepair(h, t, path, installed, roots)
                 && (path == parent || IsInstalledChild(h, t, parent, installed, path))
  {
    if ResolveIn(h, t, parent, Some(registered), roots) == Accept(path, true) {
      AcceptedRepair(h, t, parent, registered, installed, roots);
    }
    if CanRepair(h, t, path, installed, roots) {
      if path == parent {
        RepairIsLookedUp(h, t, parent, registered, roots);
        RepairableCanRepair(h, t, parent, registered, installed, roots);
      } else if IsInstalledChild(h, t, parent, installed, path) {
        var n :| 1 <= n <= 100 && IsNamed(parent, n, path);
        ChildIsNamed(parent, n, path);
        RepairedChild(h, t, parent, registered, installed, roots, n);
      }
    }
  }

  lemma AcceptedRepair(h: Host, t: Tree, parent: string, registered: string, installed: string, roots: Roots)
    requires Lawful(h) && Clean(h, parent) && |parent| > 3 && Normalize(h, registered) == Normal(installed)
    requires ResolveIn(h, t, parent, Some(registered), roots).ok
    ensures var path := ResolveIn(h, t, parent, Some(registered), roots).path;
            && CanRepair(h, t, path, installed, roots)
            && (path == parent || IsInstalledChild(h, t, parent, installed, path))
  {
    RepairIsLookedUp(h, t, parent, registered, roots);
    if Repairable(h, t, parent, registered, roots) {
      RepairableCanRepair(h, t, parent, registered, installed, roots);
    } else {
      var n := SuffixOf(h, parent, InstalledIn(h, parent, registered).value, 1);
      ChildIsCleanToo(h, parent, n);
      RepairableCanRepair(h, t, Child(parent, n), registered, installed, roots);
      ChildIsNamed(parent, n, Child(parent, n));
    }
  }

  lemma ChildIsCleanToo(h: Host, parent: string, n: nat)
    requires Clean(h, parent) && |parent| > 3
    ensures Clean(h, Child(parent, n)) && |Child(parent, n)| > |parent|
  {
    ChildNameIsPlain(n);
    ChildIsClean(h, parent, ChildName(n));
  }

  lemma RepairedChild(h: Host, t: Tree, parent: string, registered: string, installed: string, roots: Roots, n: nat)
    requires Lawful(h) && DigitLaw(h) && Clean(h, parent) && |parent| > 3
    requires Normalize(h, registered) == Normal(installed) && StateOf(t, parent) == NonEmptyDirectory
    requires 1 <= n <= 100 && CanRepair(h, t, Child(parent, n), installed, roots)
    ensures ResolveIn(h, t, parent, Some(registered), roots) == Accept(Child(parent, n), true)
  {
    var child := Child(parent, n);
    LookedUpChild(h, parent, registered, installed, n);
    ChildIsCleanToo(h, parent, n);
    RepairIsLookedUp(h, t, parent, registered, roots);
    RepairableCanRepair(h, t, child, registered, installed, roots);
    RepairableCanRepair(h, t, parent, registered, installed, roots);
    assert |Trimmed(child)| != |Trimmed(parent)|;
  }

  // Elsewhere it is refused, and the verdict says why.
  lemma RepairElsewhereIsRefused(h: Host, t: Tree, selected: string, registered: string, roots: Roots)
    requires Lawful(h) && Validate(h, selected, None, roots, MissingPath).ok
    ensures var parent := Normalize(h, selected).path;
            var v := Resolve(h, t, selected, Some(registered), roots);
            match Normalize(h, registered)
            case Invalid(error) => v == Refuse(parent, RegisteredInvalid(error))
            case Normal(installed) =>
              !SamePath(h, parent, installed)
              && (forall n, path :: 1 <= n <= 100 && IsNamed(parent, n, path) ==> !SamePath(h, path, installed))
              ==> v == Refuse(parent, RegisteredElsewhere)
  {
    PolicyPathIsClean(h, selected, roots);
    var parent := Normalize(h, selected).path;
    CleanIsNormal(h, parent);
    if Normalize(h, registered).Normal? {
      var installed := Normalize(h, registered).path;
      if !SamePath(h, parent, installed)
         && (forall n, path :: 1 <= n <= 100 && IsNamed(parent, n, path) ==> !SamePath(h, path, installed)) {
        ElsewhereIsRefused(h, t, parent, registered, installed, roots);
      }
    }
  }

  lemma ElsewhereIsRefused(h: Host, t: Tree, parent: string, registered: string, installed: string, roots: Roots)
    requires FullLaw(h) && Clean(h, parent) && |parent| > 3 && Validate(h, parent, None, roots, MissingPath).ok
    requires Normalize(h, registered) == Normal(installed) && !SamePath(h, parent, installed)
    requires forall n, path :: 1 <= n <= 100 && IsNamed(parent, n, path) ==> !SamePath(h, path, installed)
    ensures ResolveIn(h, t, parent, Some(registered), roots) == Refuse(parent, RegisteredElsewhere)
  {
    CleanIsNormal(h, parent);
    var n := SuffixOf(h, parent, installed, 1);
    ChildIsNamed(parent, n, Child(parent, n));
    InstalledChild(h, t, parent, Some(registered), installed, roots, 1);
  }
}

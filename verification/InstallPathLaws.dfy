// What containment, normal forms, inspection and the policy come to, in terms of
// the components of a path and the characters in it.
module InstallPathLaws {
  import opened InstallPaths
  import opened Options

  // ---------------------------------------------------------------- containment

  // A path lies within another exactly if one of the prefixes that end at one of
  // its components is the same path.
  ghost predicate HasPrefix(h: Host, path: string, parent: string) {
    exists end :: IsComponentEnd(path, end) && SamePath(h, path[..end], parent)
  }

  lemma PrefixIsTrimmed(h: Host, path: string, end: int)
    requires Clean(h, path) && IsComponentEnd(path, end)
    ensures Trimmed(path[..end]) == path[..end]
  {
    if end > 3 && end < |path| {
      assert !UnsafeAt(path, end);
      assert path[..end][end - 1] == path[end - 1];
    }
  }

  lemma WithinExactly(h: Host, path: string, parent: string)
    requires Clean(h, path) && Clean(h, parent)
    ensures Within(h, path, parent) <==> HasPrefix(h, path, parent)
  {
    if Within(h, path, parent) {
      var end := |parent|;
      assert IsComponentEnd(path, end);
      PrefixIsTrimmed(h, path, end);
    }
    if HasPrefix(h, path, parent) {
      var end :| IsComponentEnd(path, end) && SamePath(h, path[..end], parent);
      PrefixIsTrimmed(h, path, end);
      assert end == |parent|;
      assert forall i :: 0 <= i < end ==> h.fold(path[i]) == h.fold(path[..end][i]);
    }
  }

  // ------------------------------------------------------------- normal forms

  // A segment behind the drive.
  predicate IsSegment(path: string, start: int, end: int) {
    && 3 <= start < |path| && start <= end <= |path|
    && (start == 3 || path[start - 1] == '\\')
    && (end == |path| || path[end] == '\\')
    && '\\' !in path[start..end]
  }

  predicate EndsBadly(segment: string) {
    segment == "" || segment[|segment| - 1] == '.' || segment[|segment| - 1] == ' '
  }

  ghost predicate HasBadSegment(path: string) {
    exists start, end :: IsSegment(path, start, end) && EndsBadly(path[start..end])
  }

  function SegmentStart(path: string, end: nat): (start: nat)
    requires 3 <= end <= |path|
    ensures 3 <= start <= end && '\\' !in path[start..end]
    ensures start == 3 || path[start - 1] == '\\'
  {
    if end == 3 || path[end - 1] == '\\' then end
    else
      var start := SegmentStart(path, end - 1);
      assert path[start..end] == path[start..end - 1] + [path[end - 1]];
      start
  }

  lemma BadSegments(path: string)
    requires |path| >= 3
    ensures HasUnsafeEnding(path) <==> HasBadSegment(path)
  {
    if HasUnsafeEnding(path) {
      var end :| 3 <= end <= |path| && UnsafeAt(path, end);
      var start := SegmentStart(path, end);
      assert start < end ==> path[start..end][end - start - 1] == path[end - 1];
      assert IsSegment(path, start, end) && EndsBadly(path[start..end]);
    }
    if HasBadSegment(path) {
      var start, end :| IsSegment(path, start, end) && EndsBadly(path[start..end]);
      assert start < end ==> path[start..end][end - start - 1] == path[end - 1];
      assert UnsafeAt(path, end);
    }
  }

  // Characters that no file name may contain.
  const FORBIDDEN := "\"<>|?*"

  predicate HasForbidden(path: string) {
    exists i :: 0 <= i < |path| && (path[i] in FORBIDDEN || path[i] as int < 32)
  }

  lemma ForbiddenIsInvalid(path: string)
    ensures HasInvalid(path) <==> HasForbidden(path)
  {
    assert FORBIDDEN[0] == '"' && FORBIDDEN[1] == '<' && FORBIDDEN[2] == '>';
    assert FORBIDDEN[3] == '|' && FORBIDDEN[4] == '?' && FORBIDDEN[5] == '*';
    assert forall c :: IsInvalid(c) <==> c in FORBIDDEN || c as int < 32;
  }

  predicate IsDrivePath(h: Host, path: string) {
    |path| >= 3 && h.alpha(path[0]) && path[1] == ':' && (path[2] == '\\' || path[2] == '/')
  }

  // The errors in their order.
  lemma NormalizedForTheFirst(h: Host, path: string)
    requires FullLaw(h)
    ensures var n := Normalize(h, path);
            if path == "" then n == Invalid(EmptyPath)
            else if HasForbidden(path) then n == Invalid(InvalidCharacter)
            else if !IsDrivePath(h, path) then n == Invalid(NotAbsolute)
            else if ':' in path[2..] then n == Invalid(AlternateStream)
            else match h.full(path)
              case None => n == Invalid(NotNormalizable)
              case Some(full) =>
                if HasBadSegment(Trimmed(Backslashed(full))) then n == Invalid(UnsafeEnding)
                else n == Normal(Trimmed(Backslashed(full)))
  {
    ForbiddenIsInvalid(path);
    if path != "" && !HasInvalid(path) && HasDrive(h, path) {
      assert HasStream(path) <==> ':' in path[2..] by {
        if HasStream(path) {
          var i :| 2 <= i < |path| && path[i] == ':';
          assert path[2..][i - 2] == ':';
        }
      }
      if !HasStream(path) && h.full(path).Some? {
        TrimmedLength(Backslashed(h.full(path).value));
        BadSegments(Trimmed(Backslashed(h.full(path).value)));
      }
    }
  }

  // ------------------------------------------------------------- inspection

  const PLAIN := Present(true, false)

  ghost predicate AllPlain(t: Tree, path: string, limit: int) {
    forall end {:trigger IsComponentEnd(path, end)} ::
      end < limit && IsComponentEnd(path, end) ==> t.attributes(path[..end]) == PLAIN
  }

  lemma PlainThroughout(t: Tree, path: string, limit: int)
    ensures AllPlain(t, path, limit) <==> PlainUpTo(t, path, limit)
  {
    if PlainUpTo(t, path, limit) {
      forall end | end < limit && IsComponentEnd(path, end)
        ensures t.attributes(path[..end]) == PLAIN
      {
        assert PlainDirectory(t.attributes(path[..end]));
      }
    }
  }

  predicate IsEntry(name: string) {
    name != "." && name != ".."
  }

  // The first prefix that is not a plain directory decides what is there; if there
  // is none, what is in the directory does.
  lemma InspectionIsDecided(t: Tree, path: string, end: int)
    requires |path| >= 3
    ensures IsComponentEnd(path, end) && AllPlain(t, path, end) ==>
              match t.attributes(path[..end])
              case Missing => Inspect(t, path) == MissingPath
              case Denied => Inspect(t, path) == Inaccessible
              case Present(directory, reparse) =>
                (reparse ==> Inspect(t, path) == Inaccessible)
                && (!directory && !reparse ==> Inspect(t, path) == NotDirectory)
    ensures AllPlain(t, path, |path| + 1) ==>
              Inspect(t, path) == if exists name :: name in t.listing(path).names && IsEntry(name)
                                  then NonEmptyDirectory
                                  else if t.listing(path).complete then EmptyDirectory
                                  else Inaccessible
  {
    if IsComponentEnd(path, end) && AllPlain(t, path, end) {
      PlainThroughout(t, path, end);
      if t.attributes(path[..end]) != PLAIN {
        InspectFindsTheState(t, path, Obstacle(t.attributes(path[..end])));
      }
    }
    if AllPlain(t, path, |path| + 1) {
      PlainThroughout(t, path, |path| + 1);
      InspectFindsTheState(t, path, Contents(t.listing(path)));
      var names := t.listing(path).names;
      if name :| name in names && IsEntry(name) {
        var i :| 0 <= i < |names| && names[i] == name;
      } else {
        assert forall i :: 0 <= i < |names| ==> names[i] in names;
      }
    }
  }

  // ------------------------------------------------------------------- policy

  // The path is a protected root or lies in one.
  ghost predicate IsProtected(h: Host, roots: Roots, path: string) {
    exists i :: 0 <= i < |roots| && LiesIn(h, roots[i], path)
  }

  ghost predicate LiesIn(h: Host, root: string, path: string) {
    Normalize(h, root).Normal? && HasPrefix(h, path, Normalize(h, root).path)
  }

  lemma CoveredLiesIn(h: Host, root: string, path: string)
    requires FullLaw(h) && Clean(h, path)
    ensures Covers(h, root, path) <==> LiesIn(h, root, path)
  {
    if Normalize(h, root).Normal? {
      NormalFormIsClean(h, root);
      WithinExactly(h, path, Normalize(h, root).path);
    }
  }

  lemma ProtectedExactly(h: Host, roots: Roots, path: string)
    requires FullLaw(h) && Clean(h, path)
    ensures InProtected(h, roots, path) <==> IsProtected(h, roots, path)
  {
    if InProtected(h, roots, path) {
      var i :| 0 <= i < |roots| && Covers(h, roots[i], path);
      CoveredLiesIn(h, roots[i], path);
    }
    if IsProtected(h, roots, path) {
      var i :| 0 <= i < |roots| && LiesIn(h, roots[i], path);
      CoveredLiesIn(h, roots[i], path);
    }
  }

  // What the policy says of a candidate, and the errors in their order: a drive
  // root, a protected place, a registration that cannot be used or that is
  // elsewhere, and what is in the way.
  lemma ValidatedForTheFirst(h: Host, candidate: string, registered: Option<string>, roots: Roots,
                             state: ExistingPathState)
    requires FullLaw(h)
    ensures var v := Validate(h, candidate, registered, roots, state);
            match Normalize(h, candidate)
            case Invalid(error) => v == Verdict(false, false, "", Some(error))
            case Normal(path) =>
              if |path| == 3 then v == Verdict(false, false, path, Some(DriveRoot))
              else if IsProtected(h, roots, path) then v == Verdict(false, false, path, Some(Protected))
              else match registered
                case None =>
                  (match state
                   case MissingPath => v == Verdict(true, false, path, None)
                   case EmptyDirectory => v == Verdict(true, false, path, None)
                   case NonEmptyDirectory => v == Verdict(false, false, path, Some(NotEmpty))
                   case NotDirectory => v == Verdict(false, false, path, Some(OccupiedByFile))
                   case Inaccessible => v == Verdict(false, false, path, Some(NotInspectable)))
                case Some(installed) =>
                  (match Normalize(h, installed)
                   case Invalid(error) => v == Verdict(false, false, path, Some(RegisteredInvalid(error)))
                   case Normal(place) =>
                     if !SamePath(h, path, place) then v == Verdict(false, false, path, Some(RegisteredElsewhere))
                     else if state == NotDirectory || state == Inaccessible then
                       v == Verdict(false, false, path, Some(RegisteredInaccessible))
                     else v == Verdict(true, true, path, None))
  {
    if Normalize(h, candidate).Normal? {
      NormalFormIsClean(h, candidate);
      ProtectedExactly(h, roots, Normalize(h, candidate).path);
    }
  }

  // The strict check, and every look the resolution takes, is at the normal form.
  lemma NormalFormIsInspected(h: Host, t: Tree, candidate: string, registered: Option<string>, roots: Roots)
    requires FullLaw(h) && Normalize(h, candidate).Normal?
    ensures var path := Normalize(h, candidate).path;
            && |path| >= 3 && StateOf(t, path) == Inspect(t, path)
            && ValidateDirectory(h, t, candidate, registered, roots)
            == Validate(h, candidate, registered, roots, Inspect(t, path))
  {
    NormalFormIsClean(h, candidate);
  }
}

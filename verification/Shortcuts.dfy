// Installing and removing the shell shortcut: synchronize and the steps under it.
module Shortcuts {
  import opened Options

  const MAXIMUM_BYTES := 1024 * 1024

  datatype Link = Link(
    target: string, arguments: string, directory: string, description: string,
    icon: string, iconIndex: int, appId: Option<string>)

  // What the shell and the path functions contribute: reading a link file,
  // writing one, absolutePath, CompareStringOrdinal, and whether a path names a
  // link (a stem and the extension .lnk).
  datatype Shell = Shell(
    load: string -> Option<Link>, save: Link -> string,
    absolute: string -> Option<string>, equal: (string, string) -> bool, namesLink: string -> bool)

  datatype Request = Request(
    path: string, target: string, directory: string, selected: bool, appId: string, description: string)

  datatype Result = Result(ok: bool, changed: bool)

  const FAILED := Result(false, false)

  datatype Node = File(id: nat, bytes: string, locked: bool) | Directory | Reparse

  // -------------------------------------------------------- reading a shortcut

  predicate SamePlace(sh: Shell, raw: string, wanted: string) {
    match sh.absolute(raw)
    case None => false
    case Some(path) => sh.equal(path, wanted)
  }

  // The link in bytes leads to the requested target, whatever else it says.
  predicate Owns(sh: Shell, r: Request, bytes: string) {
    match sh.load(bytes)
    case None => false
    case Some(link) => SamePlace(sh, link.target, r.target) && 0 < |bytes| <= MAXIMUM_BYTES
  }

  predicate Matches(sh: Shell, r: Request, bytes: string) {
    && Owns(sh, r, bytes)
    && var link := sh.load(bytes).value;
       && link.arguments == ""
       && SamePlace(sh, link.directory, r.directory)
       && link.description == r.description
       && link.iconIndex == 0
       && SamePlace(sh, link.icon, r.target)
       && link.appId == Some(r.appId)
  }

  function LinkFor(r: Request): Link {
    Link(r.target, "", r.directory, r.description, r.target, 0, Some(r.appId))
  }

  predicate HasNul(s: string) {
    (0 as char) in s
  }

  function Normalized(sh: Shell, input: Request): Option<Request> {
    match (sh.absolute(input.path), sh.absolute(input.target), sh.absolute(input.directory))
    case (Some(path), Some(target), Some(directory)) =>
      if !sh.namesLink(path) || input.appId == "" || HasNul(input.appId) || HasNul(input.description) then None
      else Some(input.(path := path, target := target, directory := directory))
    case _ => None
  }

  // ------------------------------------------------- what an undisturbed call does

  datatype Outcome = Outcome(result: Result, dest: Option<Node>)

  // id: that of the next file. A missing directory means that there is no file.
  function Settled(sh: Shell, input: Request, dest: Option<Node>, id: nat): Outcome {
    match Normalized(sh, input)
    case None => Outcome(FAILED, dest)
    case Some(r) =>
      if !r.selected then Deselected(sh, r, dest)
      else Selected(sh, r, dest, id)
  }

  // A read-only file cannot be deleted.
  function Deselected(sh: Shell, r: Request, dest: Option<Node>): Outcome {
    if dest.Some? && dest.value.File? && Owns(sh, r, dest.value.bytes) then
      if dest.value.locked then Outcome(FAILED, dest) else Outcome(Result(true, true), None)
    else Outcome(Result(true, false), dest)
  }

  function Selected(sh: Shell, r: Request, dest: Option<Node>, id: nat): Outcome {
    var placed := Outcome(Result(true, true), Some(File(id, sh.save(LinkFor(r)), false)));
    match dest
    case None => placed
    case Some(File(_, bytes, locked)) =>
      if Matches(sh, r, bytes) then Outcome(Result(true, false), dest)
      else if locked then Outcome(FAILED, dest)
      else placed
    case _ => Outcome(FAILED, dest)
  }

  // The shell reads back the link it writes for the request, and absolute paths
  // are their own absolute paths.
  predicate Faithful(sh: Shell, input: Request) {
    Normalized(sh, input).Some? ==>
      var r := Normalized(sh, input).value;
      var bytes := sh.save(LinkFor(r));
      && sh.load(bytes) == Some(LinkFor(r)) && 0 < |bytes| <= MAXIMUM_BYTES
      && SamePlace(sh, r.target, r.target) && SamePlace(sh, r.directory, r.directory)
  }

  // Repeating an undisturbed success changes nothing.
  lemma RepeatChangesNothing(sh: Shell, input: Request, dest: Option<Node>, id: nat, id': nat)
    requires Faithful(sh, input) && Settled(sh, input, dest, id).result.ok
    ensures var after := Settled(sh, input, dest, id).dest;
            Settled(sh, input, after, id') == Outcome(Result(true, false), after)
  {
  }

  // Deselecting undoes a successful selection, unless that had found a matching
  // link that is read-only: the link is then kept, with a warning.
  lemma DeselectUndoesSelect(sh: Shell, input: Request, dest: Option<Node>, id: nat, id': nat)
    requires Faithful(sh, input) && input.selected && Settled(sh, input, dest, id).result.ok
    ensures var after := Settled(sh, input, dest, id).dest;
            var undone := Settled(sh, input.(selected := false), after, id');
            && (undone == Outcome(Result(true, true), None) <==> !IsLocked(dest))
            && (undone == Outcome(FAILED, dest) <==> IsLocked(dest))
  {
    var r := Normalized(sh, input).value;
    assert Normalized(sh, input.(selected := false)) == Some(r.(selected := false));
  }

  // The file at a path leads to another.
  predicate LeadsTo(sh: Shell, path: string, target: string) {
    sh.absolute(path).Some? && sh.equal(sh.absolute(path).value, target)
  }

  predicate IsOwn(sh: Shell, bytes: string, target: string) {
    0 < |bytes| <= 1048576 && sh.load(bytes).Some? && LeadsTo(sh, sh.load(bytes).value.target, target)
  }

  predicate SaysAll(sh: Shell, link: Link, r: Request) {
    && link.arguments == "" && link.description == r.description
    && LeadsTo(sh, link.directory, r.directory)
    && link.iconIndex == 0 && LeadsTo(sh, link.icon, r.target)
    && link.appId.Some? && link.appId.value == r.appId
  }

  predicate IsRequest(sh: Shell, input: Request, r: Request) {
    && sh.absolute(input.path) == Some(r.path) && sh.absolute(input.target) == Some(r.target)
    && sh.absolute(input.directory) == Some(r.directory)
    && r.selected == input.selected && r.appId == input.appId && r.description == input.description
    && sh.namesLink(r.path) && r.appId != "" && '\0' !in r.appId && '\0' !in r.description
  }

  // A deselection removes a file exactly if it is a link that leads to the target
  // and is not read-only; a link that leads elsewhere stays, as does everything
  // that is no link. Only a read-only link of its own makes it fail.
  lemma DeselectionRemovesItsOwn(sh: Shell, input: Request, r: Request, dest: Option<Node>, id: nat)
    requires IsRequest(sh, input, r) && !r.selected
    ensures var o := Settled(sh, input, dest, id);
            var own := dest.Some? && dest.value.File? && IsOwn(sh, dest.value.bytes, r.target);
            && o.dest == (if own && !dest.value.locked then None else dest)
            && o.result == Result(!(own && dest.value.locked), own && !dest.value.locked)
  {
    assert '\0' == 0 as char;
  }

  // A selection leaves a link as it is that says all that was asked for, and
  // otherwise writes one that does; but it never takes the place of a read-only
  // file, a directory or a reparse point.
  lemma SelectionWritesTheLink(sh: Shell, input: Request, r: Request, dest: Option<Node>, id: nat)
    requires IsRequest(sh, input, r) && r.selected
    ensures var o := Settled(sh, input, dest, id);
            var said := dest.Some? && dest.value.File? && IsOwn(sh, dest.value.bytes, r.target)
                        && SaysAll(sh, sh.load(dest.value.bytes).value, r);
            if said then o == Outcome(Result(true, false), dest)
            else if dest.Some? && !(dest.value.File? && !dest.value.locked) then
              o == Outcome(Result(false, false), dest)
            else
              && o.result == Result(true, true) && o.dest.Some? && o.dest.value.File? && !o.dest.value.locked
              && o.dest.value.id == id
              && o.dest.value.bytes
              == sh.save(Link(r.target, "", r.directory, r.description, r.target, 0, Some(r.appId)))
  {
    assert '\0' == 0 as char;
  }

  // Any other request is refused.
  lemma OthersAreRefused(sh: Shell, input: Request, dest: Option<Node>, id: nat)
    ensures (forall r :: !IsRequest(sh, input, r)) <==> Normalized(sh, input) == None
    ensures (forall r :: !IsRequest(sh, input, r)) ==>
              Settled(sh, input, dest, id) == Outcome(Result(false, false), dest)
  {
    assert '\0' == 0 as char;
    if Normalized(sh, input).Some? {
      assert IsRequest(sh, input, Normalized(sh, input).value);
    } else if r :| IsRequest(sh, input, r) {
      assert false;
    }
  }

  predicate IsLocked(dest: Option<Node>) {
    dest.Some? && dest.value.File? && dest.value.locked
  }

  // ------------------------------------------------------------------ the folder

  // What this program does to the destination.
  datatype Act = Placed(before: Option<Node>, node: Node) | Removed(node: Node, inspectedId: nat, inspected: string)

  // Where other programs act: before the destination is looked at for the last
  // time, and between that look and the move.
  datatype Foreign = Foreign(early: bool, late: bool)
  {
    predicate Absent() {
      !early && !late
    }
  }

  class Folder {
    var dest: Option<Node>
    var parent: bool
    var staged: Option<string>
    var stagingDirectory: bool
    var nextId: nat
    ghost var acts: seq<Act>
    ghost var faulted: bool

    // A call that may fail for reasons of its own.
    method Attempt() returns (ok: bool)
      modifies `faulted
      ensures faulted == (old(faulted) || !ok)
    {
      ok := *;
      faulted := faulted || !ok;
    }

    // Another program gets its turn while no guard is held.
    method Interfere(foreign: bool)
      modifies `dest
      ensures !foreign ==> dest == old(dest)
    {
      if foreign {
        dest := *;
      }
    }

    // StagedShortcut::save. A failure may leave part of it behind.
    method Stage(sh: Shell, r: Request) returns (ok: bool)
      requires staged == None && !stagingDirectory
      modifies `staged, `stagingDirectory, `faulted
      ensures faulted == (old(faulted) || !ok)
      ensures staged.Some? ==> stagingDirectory
      ensures ok ==> staged == Some(sh.save(LinkFor(r)))
    {
      ok := Attempt();
      if !ok {
        return false;
      }
      stagingDirectory := true;
      ok := Attempt();
      if ok {
        staged := Some(sh.save(LinkFor(r)));
      } else {
        staged := *;
      }
    }

    // The destructor: what is staged, then its directory.
    method Unstage() returns (cleaned: bool)
      requires staged.Some? ==> stagingDirectory
      modifies `staged, `stagingDirectory, `faulted
      ensures cleaned <==> staged == None && !stagingDirectory
      ensures faulted == (old(faulted) || !cleaned)
    {
      if staged.Some? {
        var deleted := Attempt();
        if !deleted {
          return false;
        }
        staged := None;
      }
      if stagingDirectory {
        var removed := Attempt();
        if !removed {
          return false;
        }
        stagingDirectory := false;
      }
      return true;
    }

    // MoveFileExW of the staged file onto the destination, in one step.
    method Move(replace: bool) returns (ok: bool)
      requires staged.Some?
      modifies this
      ensures old(faulted) ==> faulted
      ensures parent == old(parent) && stagingDirectory == old(stagingDirectory)
      ensures var node := File(old(nextId), old(staged).value, false);
              if ok then dest == Some(node) && staged == None && acts == old(acts) + [Placed(old(dest), node)]
                         && Yields(old(dest), replace)
              else dest == old(dest) && staged == old(staged) && acts == old(acts)
                   && (faulted || !Yields(old(dest), replace))
    {
      if !Yields(dest, replace) {
        return false;
      }
      ok := Attempt();
      if ok {
        var node := File(nextId, staged.value, false);
        acts := acts + [Placed(dest, node)];
        dest := Some(node);
        staged := None;
        nextId := nextId + 1;
      }
    }
  }

  // What a move may take the place of: without the flag nothing, with it
  // whatever is neither a directory nor read-only, a reparse point included.
  predicate Yields(dest: Option<Node>, replace: bool) {
    dest == None || (replace && !dest.value.Directory? && !IsLocked(dest))
  }

  // What inspectShortcut learns; regularFile says that a guard is held.
  datatype Existing = Existing(regularFile: bool, id: nat, bytes: string, locked: bool, owned: bool, matches: bool)

  const UNKNOWN := Existing(false, 0, "", false, false, false)

  // The file the guard was opened on, and, of an owned one, its contents.
  predicate Describes(e: Existing, dest: Option<Node>) {
    && dest.Some? && dest.value.File?
    && dest.value.id == e.id && dest.value.locked == e.locked
    && (e.owned ==> dest.value.bytes == e.bytes)
  }

  // With the guard open nobody can change the file while the shell reads it.
  method Inspect(f: Folder, sh: Shell, r: Request) returns (e: Existing)
    modifies f`faulted
    ensures old(f.faulted) ==> f.faulted
    ensures e.regularFile ==> Describes(e, f.dest)
    ensures !e.regularFile ==> e == UNKNOWN && (f.faulted || f.dest == None || !f.dest.value.File?)
    ensures e.matches ==> e.owned
    ensures e.owned ==> e.regularFile && Owns(sh, r, e.bytes)
    ensures e.regularFile && !f.faulted ==> e.owned == Owns(sh, r, f.dest.value.bytes)
                                            && e.matches == Matches(sh, r, f.dest.value.bytes)
  {
    e := UNKNOWN;
    var reached := f.Attempt();
    if !reached || f.dest == None || !f.dest.value.File? {
      return;
    }
    var file := f.dest.value;
    e := Existing(true, file.id, "", file.locked, false, false);
    var decoded := f.Attempt();
    if !decoded || sh.load(file.bytes) == None {
      return;
    }
    var link := sh.load(file.bytes).value;
    var read := f.Attempt();
    if !SamePlace(sh, link.target, r.target) || !read || !(0 < |file.bytes| <= MAXIMUM_BYTES) {
      return;
    }
    e := e.(bytes := file.bytes, owned := true);
    var properties := f.Attempt();
    if !properties || link.arguments != "" || !SamePlace(sh, link.directory, r.directory)
       || link.description != r.description || link.iconIndex != 0 || !SamePlace(sh, link.icon, r.target) {
      return;
    }
    e := e.(matches := link.appId == Some(r.appId));
  }

  // The guard is closed before the move, and the destination looked at again. If
  // nobody acts after that look, what is replaced is a writable file; a reparse
  // point can be replaced only by acting then.
  method AtomicallyReplaceExisting(f: Folder, e: Existing, foreign: Foreign) returns (ok: bool)
    requires f.staged.Some?
    modifies f
    ensures old(f.faulted) ==> f.faulted
    ensures f.stagingDirectory == old(f.stagingDirectory) && f.parent == old(f.parent)
    ensures var node := File(old(f.nextId), old(f.staged).value, false);
            if ok then f.dest == Some(node) && f.staged == None
                       && exists before :: f.acts == old(f.acts) + [Placed(before, node)]
                                           && Replaceable(before, foreign)
            else f.acts == old(f.acts) && f.staged == old(f.staged) && (foreign.Absent() ==> f.dest == old(f.dest))
    ensures foreign.Absent() && !f.faulted && e.regularFile && Describes(e, old(f.dest)) ==> ok == !e.locked
  {
    if !e.regularFile || e.locked {
      return false;
    }
    var flushed := f.Attempt();
    if !flushed {
      return false;
    }
    f.Interfere(foreign.early);
    var inspected := f.Attempt();
    if !inspected || f.dest == None || !f.dest.value.File? || f.dest.value.locked {
      return false;
    }
    f.Interfere(foreign.late);
    ghost var before := f.dest;
    ok := f.Move(true);
    assert ok ==> Replaceable(before, foreign);
  }

  predicate Replaceable(before: Option<Node>, foreign: Foreign) {
    match before
    case None => foreign.late
    case Some(File(_, _, locked)) => !locked
    case Some(Reparse) => foreign.late
    case Some(Directory) => false
  }

  // The file is opened again, compared, and deleted through its own handle.
  method RemoveOwned(f: Folder, e: Existing, foreign: Foreign) returns (ok: bool)
    requires e.owned
    modifies f
    ensures old(f.faulted) ==> f.faulted
    ensures f.staged == old(f.staged) && f.stagingDirectory == old(f.stagingDirectory) && f.parent == old(f.parent)
    ensures if ok then f.dest == None && exists node :: f.acts == old(f.acts) + [Removed(node, e.id, e.bytes)]
                                                        && node == File(e.id, e.bytes, false)
            else f.acts == old(f.acts) && (!foreign.early ==> f.dest == old(f.dest))
    ensures !foreign.early && !f.faulted && Describes(e, old(f.dest)) && 0 < |e.bytes| <= MAXIMUM_BYTES ==>
              ok == !e.locked
  {
    f.Interfere(foreign.early);
    var reached := f.Attempt();
    if !reached || f.dest == None || !f.dest.value.File? {
      return false;
    }
    var file := f.dest.value;
    var read := f.Attempt();
    if file.id != e.id || !read || !(0 < |file.bytes| <= MAXIMUM_BYTES) || file.bytes != e.bytes {
      return false;
    }
    if file.locked {
      return false;
    }
    ok := f.Attempt();
    if ok {
      f.acts := f.acts + [Removed(file, e.id, e.bytes)];
      f.dest := None;
    }
  }

  // What this program may do to the destination for a request. A link is placed
  // where nothing was, if nothing was there when the call began; otherwise in
  // the place of what the second look saw, or of what has appeared after it. Only
  // a file that was inspected as owned is removed.
  ghost predicate Rightful(sh: Shell, r: Request, present: bool, foreign: Foreign, act: Act) {
    match act
    case Placed(before, node) =>
      r.selected && node.File? && node.bytes == sh.save(LinkFor(r))
      && (if present then Replaceable(before, foreign) else before == None)
    case Removed(node, id, inspected) =>
      !r.selected && node == File(id, inspected, false) && Owns(sh, r, inspected)
  }

  // No act, or one rightful act, which is then what the result reports.
  ghost predicate Accounted(sh: Shell, r: Request, present: bool, foreign: Foreign,
                            before: seq<Act>, after: seq<Act>, result: Result) {
    if result.changed then
      && result.ok && |after| == |before| + 1 && after[..|before|] == before
      && Rightful(sh, r, present, foreign, after[|before|])
    else after == before
  }

  method UpdateSelected(f: Folder, sh: Shell, r: Request, e: Existing, foreign: Foreign)
    returns (result: Result, cleaned: bool)
    requires r.selected && e.regularFile && f.staged == None && !f.stagingDirectory
    requires Describes(e, f.dest)
    modifies f
    ensures old(f.faulted) ==> f.faulted
    ensures f.parent == old(f.parent)
    ensures Accounted(sh, r, true, foreign, old(f.acts), f.acts, result)
    ensures cleaned <==> f.staged == None && !f.stagingDirectory
    ensures !cleaned ==> f.faulted
    ensures foreign.Absent() ==>
              f.dest == if result.changed then Some(File(old(f.nextId), sh.save(LinkFor(r)), false)) else old(f.dest)
    ensures foreign.Absent() && !f.faulted ==>
              result == if e.matches then Result(true, false) else if e.locked then FAILED else Result(true, true)
  {
    if e.matches {
      return Result(true, false), true;
    }
    var saved := f.Stage(sh, r);
    var replaced := false;
    if saved {
      replaced := AtomicallyReplaceExisting(f, e, foreign);
    }
    cleaned := f.Unstage();
    result := if replaced then Result(true, true) else FAILED;
  }

  // No file was there: the move must not replace one that has appeared since.
  method CreateSelected(f: Folder, sh: Shell, r: Request, foreign: Foreign) returns (result: Result, cleaned: bool)
    requires r.selected && f.dest == None && f.staged == None && !f.stagingDirectory
    modifies f
    ensures old(f.faulted) ==> f.faulted
    ensures f.parent == old(f.parent)
    ensures Accounted(sh, r, false, foreign, old(f.acts), f.acts, result)
    ensures cleaned <==> f.staged == None && !f.stagingDirectory
    ensures !cleaned ==> f.faulted
    ensures foreign.Absent() ==>
              f.dest == if result.changed then Some(File(old(f.nextId), sh.save(LinkFor(r)), false)) else None
    ensures foreign.Absent() && !f.faulted ==> result == Result(true, true)
  {
    var com := f.Attempt();
    if !com {
      return FAILED, true;
    }
    var saved := f.Stage(sh, r);
    var moved := false;
    if saved {
      f.Interfere(foreign.early);
      moved := f.Move(false);
    }
    cleaned := f.Unstage();
    result := if moved then Result(true, true) else FAILED;
  }

  method SynchronizeExisting(f: Folder, sh: Shell, r: Request, foreign: Foreign) returns (result: Result, cleaned: bool)
    requires f.dest.Some? && f.dest.value.File? && f.staged == None && !f.stagingDirectory
    modifies f
    ensures old(f.faulted) ==> f.faulted
    ensures f.parent == old(f.parent)
    ensures Accounted(sh, r, true, foreign, old(f.acts), f.acts, result)
    ensures cleaned <==> f.staged == None && !f.stagingDirectory
    ensures !cleaned ==> f.faulted
    ensures foreign.Absent() ==> f.dest == if !result.changed then old(f.dest)
                                   else if r.selected then Some(File(old(f.nextId), sh.save(LinkFor(r)), false))
                                   else None
    ensures foreign.Absent() && !f.faulted ==>
              Outcome(result, f.dest) == if r.selected then Selected(sh, r, old(f.dest), old(f.nextId))
                                         else Deselected(sh, r, old(f.dest))
  {
    var com := f.Attempt();
    if !com {
      return FAILED, true;
    }
    f.Interfere(foreign.early);
    var e := Inspect(f, sh, r);
    cleaned := true;
    if !r.selected {
      if !e.owned {
        return Result(true, false), true;
      }
      var removed := RemoveOwned(f, e, foreign);
      return Result(removed, removed), true;
    }
    if !e.regularFile {
      return FAILED, true;
    }
    result, cleaned := UpdateSelected(f, sh, r, e, foreign);
  }

  // What synchronize leaves behind, whatever fails and whoever interferes: at
  // most one rightful act, which the result reports; a failure keeps the file;
  // staging is gone unless removing it failed.
  ghost predicate Tidy(sh: Shell, input: Request, present: bool, foreign: Foreign,
                       before: seq<Act>, after: seq<Act>, result: Result) {
    match Normalized(sh, input)
    case None => after == before && result == FAILED
    case Some(r) => Accounted(sh, r, present, foreign, before, after, result)
  }

  // Without interference: the file as it was or, if the result says so, the
  // complete new link, or no file for a deselection.
  predicate Complete(sh: Shell, input: Request, before: Option<Node>, after: Option<Node>, id: nat, result: Result) {
    match Normalized(sh, input)
    case None => after == before
    case Some(r) =>
      if !result.changed then after == before
      else if r.selected then after == Some(File(id, sh.save(LinkFor(r)), false))
      else after == None && before.Some?
  }

  method Synchronize(f: Folder, sh: Shell, input: Request, foreign: Foreign) returns (result: Result, cleaned: bool)
    requires f.staged == None && !f.stagingDirectory && !f.faulted && (!f.parent ==> f.dest == None)
    modifies f
    ensures Tidy(sh, input, old(f.dest).Some?, foreign, old(f.acts), f.acts, result)
    ensures if result.ok && input.selected then f.parent else old(f.parent) ==> f.parent
    ensures cleaned <==> f.staged == None && !f.stagingDirectory
    ensures !cleaned ==> f.faulted
    ensures foreign.Absent() ==> Complete(sh, input, old(f.dest), f.dest, old(f.nextId), result)
    ensures foreign.Absent() && !f.faulted ==>
              Outcome(result, f.dest) == Settled(sh, input, old(f.dest), old(f.nextId))
  {
    var normalized := Normalized(sh, input);
    if normalized == None {
      return FAILED, true;
    }
    var r := normalized.value;
    if r.selected {
      var created := f.Attempt();
      if !created {
        return FAILED, true;
      }
      f.parent := true;
    } else if !f.parent {
      return Result(true, false), true;
    }
    var inspected := f.Attempt();
    if !inspected {
      return FAILED, true;
    }
    if f.dest == None {
      if !r.selected {
        return Result(true, false), true;
      }
      result, cleaned := CreateSelected(f, sh, r, foreign);
      return;
    }
    if !f.dest.value.File? {
      return Result(!r.selected, false), true;
    }
    result, cleaned := SynchronizeExisting(f, sh, r, foreign);
  }
}

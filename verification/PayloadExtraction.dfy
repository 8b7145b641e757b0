// Verified extraction of the payload: processPayload. Every system call may
// fail; the hash is an uninterpreted function of the bytes fed to it.
module PayloadExtraction {
  import opened Octets
  import opened Options
  import opened PayloadFooter

  type Files = map<string, seq<byte>>

  datatype Problem =
    | OpenFailed
    | SizeFailed
    | FooterMissing
    | SeekFailed
    | ReadFailed
    | EndedUnexpectedly
    | BadFooter(error: FooterError)
    | CreateFailed
    | HashFailed
    | WriteFailed
    | DigestMismatch
    | FlushFailed

  datatype Result = Done(metadata: Metadata) | Failed(problem: Problem)

  const CHUNK := 1024 * 1024

  // ------------------------------------------------------------ what is expected

  function Tail(source: seq<byte>): seq<byte> {
    if |source| < FOOTER_SIZE then source else source[|source| - FOOTER_SIZE..]
  }

  function Payload(source: seq<byte>, m: Metadata): seq<byte>
    requires m.offset + m.size <= |source|
  {
    source[m.offset..m.offset + m.size]
  }

  lemma AcceptedFits(source: seq<byte>)
    requires |source| >= FOOTER_SIZE && Parse(Tail(source), |source|).Accepted?
    ensures var m := Parse(Tail(source), |source|).metadata; m.offset + m.size + FOOTER_SIZE == |source|
  {
  }

  // Where the payload is, when no system call fails of its own accord.
  function Located(files: Files, path: string): Result {
    if path !in files then Failed(OpenFailed)
    else if |files[path]| < FOOTER_SIZE then Failed(FooterMissing)
    else match Parse(Tail(files[path]), |files[path]|)
      case Refused(error) => Failed(BadFooter(error))
      case Accepted(m) => Done(m)
  }

  // The outcome, under the same condition.
  function Expected(files: Files, path: string, destination: Option<string>, sha: seq<byte> -> seq<byte>): Result {
    var located := Located(files, path);
    if located.Failed? then located
    else if destination.Some? && destination.value in files then Failed(CreateFailed)
    else if sha(FoundPayload(files, path)) != located.metadata.sha256 then Failed(DigestMismatch)
    else located
  }

  predicate PayloadFound(files: Files, path: string) {
    Located(files, path).Done?
  }

  function FoundPayload(files: Files, path: string): seq<byte>
    requires PayloadFound(files, path)
  {
    AcceptedFits(files[path]);
    Payload(files[path], Located(files, path).metadata)
  }

  lemma PrintedAtTheEnd(front: seq<byte>, size: nat, digest: seq<byte>)
    requires |digest| == 32
    ensures |Footer(size, digest)| == 64 && Tail(front + Footer(size, digest)) == Footer(size, digest)
  {
    FooterParts(size, digest);
  }

  // A payload that was appended to a program, with its footer behind it, is found
  // and extracted exactly if the digest in the footer is its own; but not onto a
  // file that is there.
  lemma AppendedPayloadIsExtracted(files: Files, path: string, program: seq<byte>, payload: seq<byte>,
                                   digest: seq<byte>, destination: Option<string>, sha: seq<byte> -> seq<byte>)
    requires path in files && files[path] == program + payload + Footer(|payload|, digest)
    requires |digest| == 32 && 0 < |payload| < U64
    ensures var m := Metadata(|program|, |payload|, digest, 1);
            && Located(files, path) == Done(m) && FoundPayload(files, path) == payload
            && Expected(files, path, destination, sha)
            == if destination.Some? && destination.value in files then Failed(CreateFailed)
               else if sha(payload) == digest then Done(m)
               else Failed(DigestMismatch)
  {
    var front := program + payload;
    PrintedAtTheEnd(front, |payload|, digest);
    ParsePrinted(|payload|, digest, |files[path]|);
    Middle(program, payload, Footer(|payload|, digest));
  }

  lemma Middle(a: seq<byte>, b: seq<byte>, c: seq<byte>)
    ensures (a + b + c)[|a|..|a| + |b|] == b
  {
  }

  // What else can be extracted is of that form, and the failures come in order.
  lemma ExtractedWasAppended(files: Files, path: string, destination: Option<string>, sha: seq<byte> -> seq<byte>)
    ensures match Expected(files, path, destination, sha)
            case Done(m) =>
              && path in files && m.offset + m.size + 64 == |files[path]|
              && var payload := files[path][m.offset..m.offset + m.size];
                 && files[path] == files[path][..m.offset] + payload + Footer(|payload|, sha(payload))
                 && m == Metadata(m.offset, |payload|, sha(payload), 1)
                 && (destination.Some? ==> destination.value !in files)
            case Failed(problem) =>
              if path !in files then problem == OpenFailed
              else if |files[path]| < 64 then problem == FooterMissing
              else
                match Parse(files[path][|files[path]| - 64..], |files[path]|)
                case Refused(error) => problem == BadFooter(error)
                case Accepted(_) =>
                  problem == if destination.Some? && destination.value in files then CreateFailed else DigestMismatch
  {
    if Expected(files, path, destination, sha).Done? {
      var source, m := files[path], Located(files, path).metadata;
      AcceptedFits(source);
      PrintAccepted(Tail(source), |source|);
      assert source == source[..m.offset] + source[m.offset..m.offset + m.size] + source[m.offset + m.size..];
    }
  }

  // ---------------------------------------------------------------- the system

  class Disk {
    var files: Files
    // Whether some call failed that could have succeeded.
    ghost var faulted: bool
    // A file that was there could not be deleted.
    ghost var undeleted: bool

    constructor (initial: Files)
      ensures files == initial && !faulted && !undeleted
    {
      files, faulted, undeleted := initial, false, false;
    }

    // A call that may fail for reasons of its own.
    method Attempt() returns (ok: bool)
      modifies `faulted
      ensures faulted == (old(faulted) || !ok)
    {
      ok := *;
      faulted := faulted || !ok;
    }

    // Up to count bytes; a fault may shorten what is read.
    method Read(path: string, at: nat, count: nat) returns (ok: bool, data: seq<byte>)
      requires path in files && at + count <= |files[path]|
      modifies `faulted
      ensures |data| <= count && data == files[path][at..at + |data|]
      ensures old(faulted) ==> faulted
      ensures !ok || |data| != count ==> faulted
    {
      ok := Attempt();
      var n: nat :| n <= count;
      faulted := faulted || n != count;
      data := files[path][at..at + n];
    }

    // CREATE_NEW: never opens an existing file.
    method Create(path: string) returns (ok: bool)
      modifies `files, `faulted
      ensures old(faulted) ==> faulted
      ensures ok ==> path !in old(files) && files == old(files)[path := []]
      ensures !ok ==> files == old(files) && (path in files || faulted)
    {
      if path in files {
        return false;
      }
      ok := Attempt();
      if ok {
        files := files[path := []];
      }
    }

    // A failing write may have written some of the data.
    method Append(path: string, data: seq<byte>) returns (ok: bool)
      requires path in files
      modifies `files, `faulted
      ensures old(faulted) ==> faulted
      ensures !ok ==> faulted
      ensures ok ==> files == old(files)[path := old(files)[path] + data]
      ensures exists n: nat :: n <= |data| && files == old(files)[path := old(files)[path] + data[..n]]
    {
      var n: nat :| n <= |data|;
      ok := Attempt();
      ok := ok && n == |data|;
      faulted := faulted || !ok;
      files := files[path := files[path] + data[..n]];
      assert data[..|data|] == data;
    }

    method Delete(path: string) returns (ok: bool)
      requires path in files
      modifies `files, `faulted, `undeleted
      ensures old(faulted) ==> faulted
      ensures !ok ==> faulted
      ensures undeleted == (old(undeleted) || !ok)
      ensures files == if ok then old(files) - {path} else old(files)
    {
      ok := Attempt();
      undeleted := undeleted || !ok;
      if ok {
        files := files - {path};
      }
    }

    // readExactly over the last size bytes.
    method ReadTail(path: string, size: nat) returns (problem: Option<Problem>, data: seq<byte>)
      requires path in files && size <= |files[path]|
      modifies `faulted
      ensures old(faulted) ==> faulted
      ensures problem == None ==> data == files[path][|files[path]| - size..]
      ensures problem.Some? ==> faulted
    {
      data := [];
      ghost var all := files[path];
      var start := |files[path]| - size;
      var remaining := size;
      while remaining > 0
        invariant 0 <= remaining && remaining + |data| == size && start + size == |all|
        invariant data == all[start..start + |data|]
        invariant old(faulted) ==> faulted
      {
        var ok, read := Read(path, start + |data|, remaining);
        if !ok {
          return Some(ReadFailed), data;
        }
        if read == [] {
          return Some(EndedUnexpectedly), data;
        }
        data := data + read;
        remaining := remaining - |read|;
      }
      assert data == all[start..];
      return None, data;
    }
  }

  // The part of the file system an extraction writes: the destination holds
  // written, everything else is as before.
  ghost predicate Holds(before: Files, now: Files, destination: Option<string>, written: seq<byte>) {
    now == if destination.Some? then before[destination.value := written] else before
  }

  ghost predicate HoldsStart(before: Files, now: Files, destination: Option<string>, payload: seq<byte>) {
    exists n: nat {:trigger payload[..n]} :: n <= |payload| && Holds(before, now, destination, payload[..n])
  }

  // deleteDestination; the result of DeleteFileW is not looked at.
  method DeleteDestination(disk: Disk, destination: Option<string>)
    requires destination.Some? ==> destination.value in disk.files
    requires !disk.undeleted
    modifies disk
    ensures disk.files == if destination.Some? && !disk.undeleted then old(disk.files) - {destination.value}
                          else old(disk.files)
    ensures disk.undeleted ==> destination.Some? && disk.faulted
    ensures old(disk.faulted) ==> disk.faulted
  {
    if destination.Some? {
      var deleted := disk.Delete(destination.value);
    }
  }

  // Up to the first byte of the payload.
  method Locate(disk: Disk, path: string) returns (r: Result)
    modifies disk`faulted
    ensures old(disk.faulted) ==> disk.faulted
    ensures r.Done? || !disk.faulted ==> r == Located(disk.files, path)
  {
    var ok := disk.Attempt();
    if !ok || path !in disk.files {
      return Failed(OpenFailed);
    }
    ghost var source := disk.files[path];
    ok := disk.Attempt();
    if !ok {
      return Failed(SizeFailed);
    }
    if |disk.files[path]| < FOOTER_SIZE {
      return Failed(FooterMissing);
    }
    ok := disk.Attempt();
    if !ok {
      return Failed(SeekFailed);
    }
    var problem, footer := disk.ReadTail(path, FOOTER_SIZE);
    if problem.Some? {
      return Failed(problem.value);
    }
    assert footer == Tail(source);
    var parsed := Parse(footer, |disk.files[path]|);
    if parsed.Refused? {
      return Failed(BadFooter(parsed.error));
    }
    ok := disk.Attempt();
    if !ok {
      return Failed(SeekFailed);
    }
    return Done(parsed.metadata);
  }

  lemma SliceOfSlice(s: seq<byte>, at: nat, size: nat, done: nat, n: nat)
    requires at + size <= |s| && done + n <= size
    ensures s[at..at + size][done..done + n] == s[at + done..at + done + n]
  {
    var outer, inner := s[at..at + size], s[at + done..at + done + n];
    forall i | 0 <= i < n
      ensures outer[done..done + n][i] == inner[i]
    {
      assert outer[done + i] == s[at + (done + i)];
    }
    assert outer[done..done + n] == inner;
  }

  // One round of the copying loop, done bytes being copied.
  method CopyChunk(disk: Disk, path: string, m: Metadata, done: nat, requested: nat, destination: Option<string>,
                   ghost before: Files)
    returns (problem: Option<Problem>, data: seq<byte>)
    requires path in before && m.offset + m.size <= |before[path]| && done + requested <= m.size
    requires destination.Some? ==> destination.value != path
    requires Holds(before, disk.files, destination, Payload(before[path], m)[..done])
    modifies disk`files, disk`faulted
    ensures old(disk.faulted) ==> disk.faulted
    ensures problem.Some? ==> disk.faulted && HoldsStart(before, disk.files, destination, Payload(before[path], m))
    ensures problem == None ==> data == Payload(before[path], m)[done..done + requested]
                                && Holds(before, disk.files, destination, Payload(before[path], m)[..done + requested])
  {
    ghost var payload := Payload(before[path], m);
    assert disk.files[path] == before[path];
    var ok, read := disk.Read(path, m.offset + done, requested);
    if !ok || |read| != requested {
      return Some(ReadFailed), read;
    }
    var hashed := disk.Attempt();
    if !hashed {
      return Some(HashFailed), read;
    }
    SliceOfSlice(before[path], m.offset, m.size, done, requested);
    assert payload[..done + requested] == payload[..done] + read;
    if destination.Some? {
      var appended := disk.Append(destination.value, read);
      if !appended {
        ghost var n: nat :| n <= |read| && disk.files == before[destination.value := payload[..done] + read[..n]];
        assert payload[..done] + read[..n] == payload[..done + n];
        return Some(WriteFailed), read;
      }
    }
    return None, read;
  }

  // The hash is fed chunk by chunk; absorbed is what it has been fed.
  method CopyPayload(disk: Disk, path: string, m: Metadata, destination: Option<string>, ghost before: Files)
    returns (problem: Option<Problem>, absorbed: seq<byte>)
    requires path in before && m.offset + m.size <= |before[path]|
    requires destination.Some? ==> destination.value != path
    requires Holds(before, disk.files, destination, [])
    modifies disk`files, disk`faulted
    ensures old(disk.faulted) ==> disk.faulted
    ensures problem.Some? ==> disk.faulted && HoldsStart(before, disk.files, destination, Payload(before[path], m))
    ensures problem == None ==> absorbed == Payload(before[path], m)
                                && Holds(before, disk.files, destination, absorbed)
  {
    ghost var payload := Payload(before[path], m);
    assert payload[..0] == [];
    absorbed := [];
    var remaining := m.size;
    while remaining > 0
      invariant 0 <= remaining <= m.size && absorbed == payload[..m.size - remaining]
      invariant Holds(before, disk.files, destination, payload[..m.size - remaining])
      invariant old(disk.faulted) ==> disk.faulted
    {
      var requested := if remaining < CHUNK then remaining else CHUNK;
      ghost var done := m.size - remaining;
      var failed, read := CopyChunk(disk, path, m, m.size - remaining, requested, destination, before);
      if failed.Some? {
        return failed, absorbed;
      }
      assert payload[..done + requested] == payload[..done] + payload[done..done + requested];
      absorbed := absorbed + read;
      remaining := remaining - |read|;
    }
    assert payload[..m.size] == payload;
    return None, absorbed;
  }

  // After a failure the file system is as before exactly if deleting has not
  // failed; if it has, the beginning of the payload is left in a new file.
  ghost predicate Left(before: Files, disk: Disk, path: string, destination: Option<string>)
    reads disk
  {
    && (disk.files == before <==> !disk.undeleted)
    && (disk.undeleted ==>
         && destination.Some? && destination.value !in before
         && PayloadFound(before, path)
         && HoldsStart(before, disk.files, destination, FoundPayload(before, path)))
  }

  method Abandon(disk: Disk, path: string, destination: Option<string>, ghost before: Files)
    requires PayloadFound(before, path) && HoldsStart(before, disk.files, destination, FoundPayload(before, path))
    requires destination.Some? ==> destination.value !in before
    requires !disk.undeleted
    modifies disk
    ensures Left(before, disk, path, destination)
    ensures disk.undeleted ==> disk.faulted
    ensures old(disk.faulted) ==> disk.faulted
  {
    DeleteDestination(disk, destination);
    if destination.Some? && !disk.undeleted {
      assert disk.files == before;
    }
  }

  // From the creation of the destination on.
  method ExtractInto(disk: Disk, path: string, m: Metadata, destination: Option<string>, sha: seq<byte> -> seq<byte>,
                     ghost before: Files)
    returns (r: Result)
    requires Located(before, path) == Done(m)
    requires destination.Some? ==> destination.value !in before
    requires Holds(before, disk.files, destination, []) && !disk.undeleted
    modifies disk
    ensures old(disk.faulted) ==> disk.faulted
    ensures disk.undeleted ==> disk.faulted
    ensures r.Done? ==> r.metadata == m && Holds(before, disk.files, destination, FoundPayload(before, path))
    ensures r.Done? || !disk.faulted ==>
              r == if sha(FoundPayload(before, path)) == m.sha256 then Done(m) else Failed(DigestMismatch)
    ensures r.Failed? ==> Left(before, disk, path, destination)
  {
    AcceptedFits(before[path]);
    ghost var payload := FoundPayload(before, path);
    assert payload[..0] == [] && payload[..|payload|] == payload;
    var begun := disk.Attempt();
    if !begun {
      Abandon(disk, path, destination, before);
      return Failed(HashFailed);
    }
    var problem, absorbed := CopyPayload(disk, path, m, destination, before);
    if problem.Some? {
      Abandon(disk, path, destination, before);
      return Failed(problem.value);
    }
    var finished := disk.Attempt();
    if !finished {
      Abandon(disk, path, destination, before);
      return Failed(HashFailed);
    }
    if sha(absorbed) != m.sha256 {
      Abandon(disk, path, destination, before);
      return Failed(DigestMismatch);
    }
    if destination.Some? {
      var flushed := disk.Attempt();
      if !flushed {
        Abandon(disk, path, destination, before);
        return Failed(FlushFailed);
      }
    }
    return Done(m);
  }

  method ProcessPayload(disk: Disk, path: string, destination: Option<string>, sha: seq<byte> -> seq<byte>)
    returns (r: Result)
    requires !disk.faulted && !disk.undeleted
    modifies disk
    ensures !disk.faulted ==> r == Expected(old(disk.files), path, destination, sha)
    ensures r.Done? ==>
              r == Expected(old(disk.files), path, destination, sha)
              && sha(FoundPayload(old(disk.files), path)) == r.metadata.sha256
              && Holds(old(disk.files), disk.files, destination, FoundPayload(old(disk.files), path))
    ensures r.Failed? ==> Left(old(disk.files), disk, path, destination)
    ensures disk.undeleted ==> disk.faulted
  {
    ghost var before := disk.files;
    r := Locate(disk, path);
    if r.Failed? {
      return r;
    }
    var m := r.metadata;
    if destination.Some? {
      var created := disk.Create(destination.value);
      if !created {
        return Failed(CreateFailed);
      }
    }
    r := ExtractInto(disk, path, m, destination, sha, before);
  }
}

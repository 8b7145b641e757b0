// MediaActionsViewModel: one FIFO lane per operation and item, dispatching to a
// port that may answer at once, late, repeatedly or under the wrong key, and
// emitting signals whose handlers may submit and settle again before they return.
module MediaQueues {
  import opened OperationState
  import opened MediaRequestIds

  // A queued operation, with the key of the lane it stands in.
  datatype Pending = Pending(requestId: string, key: string, item: string, operation: nat)

  // What a lane's environment has seen of it, in order: the requests submitted,
  // those handed to the port, and those reported by a signal.
  datatype History = History(submitted: seq<Pending>, dispatched: seq<Pending>, settled: seq<Pending>)

  // What an issued id stands for: the request, its place in its lane, and the
  // sequence number it was given.
  datatype Ticket = Ticket(entry: Pending, index: nat, number: nat)

  // The view model's fields, and what its environment can tell of a run:
  // resuming holds, innermost last, the lanes whose dispatchNextOperation call
  // waits for a signal handler to return.
  datatype Queues = Queues(
    sequence: nat,
    pending: map<string, seq<Pending>>,
    known: map<string, string>,
    states: map<string, Operation>,
    resuming: seq<string>,
    histories: map<string, History>,
    issued: map<string, Ticket>)
  {
    function Queue(key: string): seq<Pending> {
      if key in pending then pending[key] else []
    }

    function State(key: string): Operation {
      if key in states then states[key] else IDLE
    }

    function Seen(key: string): History {
      if key in histories then histories[key] else History([], [], [])
    }
  }

  const EMPTY := Queues(0, map[], map[], map[], [], map[], map[])

  function DispatchNext(q: Queues, key: string): Queues {
    if q.Queue(key) == [] then q
    else
      var seen := q.Seen(key);
      q.(histories := q.histories[key := seen.(dispatched := seen.dispatched + [q.Queue(key)[0]])])
  }

  // The entry submitOperation makes when it counts its request as number sequence.
  function Entry(item: string, operation: nat, sequence: nat): Pending {
    Pending(RequestId(operation, item, sequence), OperationKey(item, operation), item, operation)
  }

  // The queue and the indices after a submission, before anything is dispatched.
  function Append(q: Queues, entry: Pending): Queues {
    var key, seen := entry.key, q.Seen(entry.key);
    var state := if q.Queue(key) == [] then q.State(key).Begun(entry.requestId) else q.State(key);
    Queues(
      q.sequence + 1,
      q.pending[key := q.Queue(key) + [entry]],
      q.known[entry.requestId := key],
      q.states[key := state],
      q.resuming,
      q.histories[key := seen.(submitted := seen.submitted + [entry])],
      q.issued[entry.requestId := Ticket(entry, |seen.submitted|, q.sequence + 1)])
  }

  function Enqueue(q: Queues, entry: Pending): Queues {
    if q.Queue(entry.key) == [] then DispatchNext(Append(q, entry), entry.key) else Append(q, entry)
  }

  // The ways a settlement can leave handleCompleted and handleFailed.
  datatype Verdict = Unknown | NotHead | Refused | Orphan | Reported

  function Judge(q: Queues, id: string, key: string): Verdict {
    if id !in q.known || q.known[id] != key then Unknown
    else if key !in q.pending then Orphan
    else if q.pending[key] == [] || q.pending[key][0].requestId != id then NotHead
    else if key !in q.states || !q.states[key].Accepts(id) then Refused
    else Reported
  }

  // Whether the operation succeeded, with its result or its message.
  datatype Answer = Completed(text: string) | Failed(text: string)

  function Answered(o: Operation, id: string, answer: Answer): Operation {
    if answer.Completed? then o.Resolved(id, answer.text) else o.Rejected(id, answer.text)
  }

  function Report(q: Queues, entry: Pending): map<string, History> {
    var seen := q.Seen(entry.key);
    q.histories[entry.key := seen.(settled := seen.settled + [entry])]
  }

  // The settlement of one request, which names its id, item and operation.
  function CloseRequest(q: Queues, entry: Pending, answer: Answer): Queues {
    var id, key := entry.requestId, entry.key;
    match Judge(q, id, key)
    case Unknown => q
    case NotHead => q
    case Orphan => q.(known := q.known - {id}, histories := Report(q, entry))
    case Refused => q.(known := q.known - {id}, pending := q.pending[key := q.pending[key][1..]])
    case Reported =>
      var rest := q.pending[key][1..];
      var state := Answered(q.states[key], id, answer);
      if rest == [] then
        q.(known := q.known - {id}, histories := Report(q, entry),
           pending := q.pending - {key}, states := q.states[key := state])
      else
        q.(known := q.known - {id}, histories := Report(q, entry),
           pending := q.pending[key := rest],
           states := q.states[key := state.Begun(rest[0].requestId)],
           resuming := q.resuming + [key])
  }

  // handleCompleted and handleFailed
  function Settle(q: Queues, id: string, item: string, operation: nat, answer: Answer): Queues {
    CloseRequest(q, Pending(id, OperationKey(item, operation), item, operation), answer)
  }

  // The innermost signal handler returns, and the lane it interrupted goes on.
  function Resume(q: Queues): Queues
    requires q.resuming != []
  {
    var last := |q.resuming| - 1;
    DispatchNext(q.(resuming := q.resuming[..last]), q.resuming[last])
  }

  // -------------------------------------------------------------- a single lane

  // Everything the view model and its environment know of one lane.
  datatype Lane = Lane(queue: seq<Pending>, state: Operation, seen: History, waiting: bool)

  function LaneAt(q: Queues, key: string): Lane {
    Lane(q.Queue(key), q.State(key), q.Seen(key), key in q.resuming)
  }

  function LaneEnqueued(l: Lane, entry: Pending): Lane {
    var submitted := l.seen.submitted + [entry];
    if l.queue == [] then
      Lane([entry], l.state.Begun(entry.requestId),
           History(submitted, l.seen.dispatched + [entry], l.seen.settled), l.waiting)
    else
      Lane(l.queue + [entry], l.state, History(submitted, l.seen.dispatched, l.seen.settled), l.waiting)
  }

  function LaneReported(l: Lane, entry: Pending, answer: Answer): Lane
    requires l.queue != []
  {
    var rest := l.queue[1..];
    var state := Answered(l.state, entry.requestId, answer);
    var seen := l.seen.(settled := l.seen.settled + [entry]);
    if rest == [] then Lane([], state, seen, l.waiting)
    else Lane(rest, state.Begun(rest[0].requestId), seen, true)
  }

  function LaneResumed(l: Lane): Lane
    requires l.queue != []
  {
    l.(seen := l.seen.(dispatched := l.seen.dispatched + [l.queue[0]]), waiting := false)
  }

  lemma EnqueueOneLane(q: Queues, entry: Pending, key: string)
    ensures LaneAt(Enqueue(q, entry), key)
         == if key == entry.key then LaneEnqueued(LaneAt(q, key), entry) else LaneAt(q, key)
  {
  }

  lemma CloseOneLane(q: Queues, entry: Pending, answer: Answer, key: string)
    requires Judge(q, entry.requestId, entry.key) == Reported
    ensures LaneAt(CloseRequest(q, entry, answer), key)
         == if key == entry.key then LaneReported(LaneAt(q, key), entry, answer) else LaneAt(q, key)
  {
  }

  lemma ResumeOneLane(q: Queues, key: string)
    requires q.resuming != []
    requires forall i, j :: 0 <= i < j < |q.resuming| ==> q.resuming[i] != q.resuming[j]
    requires var own := q.resuming[|q.resuming| - 1]; q.Queue(own) != []
    ensures LaneAt(Resume(q), key)
         == if key == q.resuming[|q.resuming| - 1] then LaneResumed(LaneAt(q, key)) else LaneAt(q, key)
  {
    var last := |q.resuming| - 1;
    assert q.resuming == q.resuming[..last] + [q.resuming[last]];
  }

  // ------------------------------------------------------------------ invariant

  // The settled requests and the queue are what was submitted; the port has been
  // handed one request more than were settled, the head, unless the lane waits
  // for a signal handler; and exactly the head is running.
  predicate LaneOk(l: Lane) {
    && l.seen.submitted == l.seen.settled + l.queue
    && l.seen.dispatched == l.seen.settled + (if l.queue == [] || l.waiting then [] else l.queue[..1])
    && (l.waiting ==> l.queue != [])
    && (if l.queue == [] then l.state.phase != Running
        else l.state.phase == Running && l.state.mutationId == l.queue[0].requestId)
  }

  predicate Trim(id: string) {
    id != "" && Trimmed(id) == id
  }

  lemma EnqueuedLaneOk(l: Lane, entry: Pending)
    requires LaneOk(l) && Trim(entry.requestId)
    ensures LaneOk(LaneEnqueued(l, entry))
  {
  }

  lemma ReportedLaneOk(l: Lane, entry: Pending, answer: Answer)
    requires LaneOk(l) && l.queue != [] && !l.waiting && entry == l.queue[0] && entry.requestId != ""
    requires |l.queue| > 1 ==> Trim(l.queue[1].requestId)
    ensures LaneOk(LaneReported(l, entry, answer))
  {
    var rest := l.queue[1..];
    assert l.queue == [entry] + rest;
    assert l.seen.submitted == (l.seen.settled + [entry]) + rest;
  }

  lemma ResumedLaneOk(l: Lane)
    requires LaneOk(l) && l.waiting
    ensures LaneOk(LaneResumed(l))
  {
  }

  // --------------------------------------------------------------- all the lanes

  ghost predicate Ticketed(issued: map<string, Ticket>, p: Pending, key: string, i: nat) {
    && p.key == key && p.requestId in issued
    && issued[p.requestId].entry == p && issued[p.requestId].index == i
  }

  ghost predicate LanesOk(q: Queues) {
    && (forall key :: LaneOk(LaneAt(q, key)))
    && (forall key :: key in q.pending ==> q.pending[key] != [])
    && (forall i, j :: 0 <= i < j < |q.resuming| ==> q.resuming[i] != q.resuming[j])
  }

  ghost predicate TicketsOk(issued: map<string, Ticket>, submitted: seq<Pending>, key: string) {
    forall i :: 0 <= i < |submitted| ==> Ticketed(issued, submitted[i], key, i)
  }

  // Each issued id stands for one submitted request, and no other has that id.
  ghost predicate IssuedOk(q: Queues) {
    && (forall key :: TicketsOk(q.issued, q.Seen(key).submitted, key))
    && (forall id {:trigger TicketOk(q, id, q.issued[id])} :: id in q.issued ==> TicketOk(q, id, q.issued[id]))
  }

  ghost predicate TicketOk(q: Queues, id: string, t: Ticket) {
    && t.index < |q.Seen(t.entry.key).submitted|
    && q.Seen(t.entry.key).submitted[t.index] == t.entry && t.entry.requestId == id
  }

  ghost predicate NamesOk(issued: map<string, Ticket>, sequence: nat) {
    forall id {:trigger NameOk(issued[id], sequence)} :: id in issued ==> NameOk(issued[id], sequence)
  }

  // What the later lemmas need of a request's id and key.
  ghost predicate Named(entry: Pending, number: nat) {
    && Trim(entry.requestId) && EndsIn(entry.requestId, number)
    && entry.key == OperationKey(entry.item, entry.operation)
  }

  ghost predicate NameOk(t: Ticket, sequence: nat) {
    t.number <= sequence && Named(t.entry, t.number)
  }

  ghost predicate StillQueued(q: Queues, id: string) {
    id in q.issued && q.issued[id].index >= |q.Seen(q.issued[id].entry.key).settled|
  }

  // m_knownRequests is the inverse index of the ids that are still queued.
  ghost predicate KnownOk(q: Queues) {
    forall id ::
      (id in q.known <==> StillQueued(q, id)) && (id in q.known ==> q.known[id] == q.issued[id].entry.key)
  }

  ghost predicate Inv(q: Queues) {
    LanesOk(q) && IssuedOk(q) && KnownOk(q) && NamesOk(q.issued, q.sequence)
  }

  // ------------------------------------------------------------------- submitting

  lemma NextEntryIsNamed(entry: Pending, number: nat)
    requires entry == Entry(entry.item, entry.operation, number) && PlainItem(entry.item)
    ensures Named(entry, number)
  {
    RequestIdIsTrimmed(entry.operation, entry.item, number);
    EndsInSequence(entry.operation, entry.item, number);
  }

  lemma NextNameIsFresh(q: Queues, entry: Pending)
    requires IssuedOk(q) && NamesOk(q.issued, q.sequence) && Named(entry, q.sequence + 1)
    ensures entry.requestId !in q.issued
  {
    if entry.requestId in q.issued {
      var t := q.issued[entry.requestId];
      assert TicketOk(q, entry.requestId, t) && NameOk(t, q.sequence);
      EndsInOneNumber(entry.requestId, t.number, q.sequence + 1);
    }
  }

  lemma NamesGrow(issued: map<string, Ticket>, sequence: nat, entry: Pending, index: nat)
    requires NamesOk(issued, sequence) && Named(entry, sequence + 1)
    ensures NamesOk(issued[entry.requestId := Ticket(entry, index, sequence + 1)], sequence + 1)
  {
    forall id | id in issued
      ensures NameOk(issued[id], sequence + 1)
    {
      assert NameOk(issued[id], sequence);
    }
  }

  lemma EnqueueKeepsLanes(q: Queues, entry: Pending)
    requires LanesOk(q) && Trim(entry.requestId)
    ensures LanesOk(Enqueue(q, entry))
  {
    var q' := Enqueue(q, entry);
    forall key
      ensures LaneOk(LaneAt(q', key))
    {
      EnqueueOneLane(q, entry, key);
      assert LaneOk(LaneAt(q, key));
      if key == entry.key {
        EnqueuedLaneOk(LaneAt(q, key), entry);
      }
    }
  }

  lemma EnqueueIssues(q: Queues, entry: Pending)
    ensures Enqueue(q, entry).sequence == q.sequence + 1
    ensures Enqueue(q, entry).issued
         == q.issued[entry.requestId := Ticket(entry, |q.Seen(entry.key).submitted|, q.sequence + 1)]
  {
  }

  lemma TicketsStay(issued: map<string, Ticket>, submitted: seq<Pending>, key: string, id: string, t: Ticket)
    requires TicketsOk(issued, submitted, key) && id !in issued
    ensures TicketsOk(issued[id := t], submitted, key)
  {
    forall i | 0 <= i < |submitted|
      ensures Ticketed(issued[id := t], submitted[i], key, i)
    {
      assert Ticketed(issued, submitted[i], key, i);
    }
  }

  lemma TicketsGrow(issued: map<string, Ticket>, submitted: seq<Pending>, entry: Pending, number: nat)
    requires TicketsOk(issued, submitted, entry.key) && entry.requestId !in issued
    ensures TicketsOk(issued[entry.requestId := Ticket(entry, |submitted|, number)], submitted + [entry], entry.key)
  {
    TicketsStay(issued, submitted, entry.key, entry.requestId, Ticket(entry, |submitted|, number));
  }

  lemma SubmittedGrows(q: Queues, entry: Pending, key: string)
    ensures Enqueue(q, entry).Seen(key).submitted
         == if key == entry.key then q.Seen(key).submitted + [entry] else q.Seen(key).submitted
  {
    EnqueueOneLane(q, entry, key);
  }

  lemma EnqueueKeepsTickets(q: Queues, entry: Pending, key: string)
    requires TicketsOk(q.issued, q.Seen(key).submitted, key) && entry.requestId !in q.issued
    ensures TicketsOk(Enqueue(q, entry).issued, Enqueue(q, entry).Seen(key).submitted, key)
  {
    SubmittedGrows(q, entry, key);
    EnqueueIssues(q, entry);
    if key == entry.key {
      TicketsGrow(q.issued, q.Seen(key).submitted, entry, q.sequence + 1);
    } else {
      TicketsStay(q.issued, q.Seen(key).submitted, key, entry.requestId,
                  Ticket(entry, |q.Seen(entry.key).submitted|, q.sequence + 1));
    }
  }

  lemma EnqueueKeepsIssued(q: Queues, entry: Pending)
    requires IssuedOk(q) && entry.requestId !in q.issued
    ensures IssuedOk(Enqueue(q, entry))
  {
    var q' := Enqueue(q, entry);
    forall key
      ensures TicketsOk(q'.issued, q'.Seen(key).submitted, key)
    {
      assert TicketsOk(q.issued, q.Seen(key).submitted, key);
      EnqueueKeepsTickets(q, entry, key);
    }
    forall id | id in q'.issued
      ensures TicketOk(q', id, q'.issued[id])
    {
      EnqueueOneLane(q, entry, q'.issued[id].entry.key);
      assert id != entry.requestId ==> TicketOk(q, id, q.issued[id]);
    }
  }

  lemma EnqueueKnows(q: Queues, entry: Pending, key: string)
    ensures Enqueue(q, entry).known == q.known[entry.requestId := entry.key]
    ensures Enqueue(q, entry).Seen(key).settled == q.Seen(key).settled
  {
    EnqueueOneLane(q, entry, key);
  }

  lemma EnqueueKeepsKnown(q: Queues, entry: Pending)
    requires KnownOk(q) && |q.Seen(entry.key).settled| <= |q.Seen(entry.key).submitted|
    requires entry.requestId !in q.issued
    ensures KnownOk(Enqueue(q, entry))
  {
    var q' := Enqueue(q, entry);
    EnqueueIssues(q, entry);
    EnqueueKnows(q, entry, entry.key);
    forall id
      ensures id in q'.known <==> StillQueued(q', id)
      ensures id in q'.known ==> q'.known[id] == q'.issued[id].entry.key
    {
      if id in q.issued {
        EnqueueKnows(q, entry, q.issued[id].entry.key);
      }
      assert id in q.known <==> StillQueued(q, id);
    }
  }

  lemma EnqueueKeepsAll(q: Queues, entry: Pending)
    requires LanesOk(q) && IssuedOk(q) && KnownOk(q) && entry.requestId !in q.issued && Trim(entry.requestId)
    ensures LanesOk(Enqueue(q, entry)) && IssuedOk(Enqueue(q, entry)) && KnownOk(Enqueue(q, entry))
  {
    assert LaneOk(LaneAt(q, entry.key));
    EnqueueKeepsLanes(q, entry);
    EnqueueKeepsIssued(q, entry);
    EnqueueKeepsKnown(q, entry);
  }

  lemma EnqueueKeepsNames(q: Queues, entry: Pending)
    requires NamesOk(q.issued, q.sequence) && Named(entry, q.sequence + 1)
    ensures NamesOk(Enqueue(q, entry).issued, Enqueue(q, entry).sequence)
  {
    EnqueueIssues(q, entry);
    NamesGrow(q.issued, q.sequence, entry, |q.Seen(entry.key).submitted|);
  }

  lemma EnqueueKeepsInv(q: Queues, entry: Pending)
    requires Inv(q) && Named(entry, q.sequence + 1)
    ensures Inv(Enqueue(q, entry))
  {
    NextNameIsFresh(q, entry);
    EnqueueKeepsAll(q, entry);
    EnqueueKeepsNames(q, entry);
  }

  // --------------------------------------------------------------------- settling

  // The port's contract: it settles only ids it was handed.
  ghost predicate WasDispatched(q: Queues, id: string) {
    exists key, i :: 0 <= i < |q.Seen(key).dispatched| && q.Seen(key).dispatched[i].requestId == id
  }

  // An id the port was handed belongs to a request that is settled or is the
  // head of its lane.
  lemma DispatchedIsSettledOrHead(q: Queues, id: string)
    requires Inv(q) && WasDispatched(q, id)
    ensures id in q.issued
    ensures StillQueued(q, id) ==>
              var l := LaneAt(q, q.issued[id].entry.key);
              l.queue != [] && !l.waiting && l.queue[0].requestId == id
  {
    var key, i :| 0 <= i < |q.Seen(key).dispatched| && q.Seen(key).dispatched[i].requestId == id;
    var l := LaneAt(q, key);
    assert LaneOk(l);
    assert l.seen.submitted[i] == l.seen.dispatched[i];
    assert TicketsOk(q.issued, q.Seen(key).submitted, key);
    assert Ticketed(q.issued, l.seen.submitted[i], key, i);
  }

  // What a settlement of a dispatched id does is decided by its key and by
  // whether it came before: the branches for a known id without a queue, with
  // another head, or with a state that refuses it are never taken.
  lemma JudgedByKey(q: Queues, id: string, item: string, operation: nat)
    requires Inv(q) && WasDispatched(q, id)
    ensures var key := OperationKey(item, operation);
            Judge(q, id, key) == if StillQueued(q, id) && q.issued[id].entry.key == key then Reported else Unknown
  {
    DispatchedIsSettledOrHead(q, id);
    var key := OperationKey(item, operation);
    assert id in q.known <==> StillQueued(q, id);
    if StillQueued(q, id) && q.issued[id].entry.key == key {
      assert LaneOk(LaneAt(q, key));
      IssuedIsTrimmed(q, id);
    }
  }

  lemma IssuedIsTrimmed(q: Queues, id: string)
    requires IssuedOk(q) && NamesOk(q.issued, q.sequence) && id in q.issued
    ensures Trim(id)
    ensures q.issued[id].entry.key == OperationKey(q.issued[id].entry.item, q.issued[id].entry.operation)
  {
    assert TicketOk(q, id, q.issued[id]) && NameOk(q.issued[id], q.sequence);
  }

  lemma ReportedEntry(q: Queues, entry: Pending)
    requires Inv(q) && WasDispatched(q, entry.requestId)
    requires entry.key == OperationKey(entry.item, entry.operation)
    requires Judge(q, entry.requestId, entry.key) == Reported
    ensures var l := LaneAt(q, entry.key);
            l.queue != [] && !l.waiting && l.queue[0] == entry
    ensures entry.requestId in q.issued
    ensures q.issued[entry.requestId].entry == entry
    ensures q.issued[entry.requestId].index == |q.Seen(entry.key).settled|
  {
    var l := LaneAt(q, entry.key);
    DispatchedIsSettledOrHead(q, entry.requestId);
    assert entry.requestId in q.known <==> StillQueued(q, entry.requestId);
    assert LaneOk(l);
    var n := |l.seen.settled|;
    assert l.seen.submitted[n] == l.queue[0];
    assert TicketsOk(q.issued, q.Seen(entry.key).submitted, entry.key);
    assert Ticketed(q.issued, l.seen.submitted[n], entry.key, n);
    IssuedIsTrimmed(q, entry.requestId);
    var p := l.queue[0];
    OperationKeyInjective(p.item, p.operation, entry.item, entry.operation);
  }

  lemma CloseKeepsLanes(q: Queues, entry: Pending, answer: Answer)
    requires LanesOk(q) && Judge(q, entry.requestId, entry.key) == Reported
    requires var l := LaneAt(q, entry.key); l.queue != [] && !l.waiting && l.queue[0] == entry
    requires |q.Queue(entry.key)| > 1 ==> Trim(q.Queue(entry.key)[1].requestId)
    requires entry.requestId != ""
    ensures LanesOk(CloseRequest(q, entry, answer))
  {
    var q' := CloseRequest(q, entry, answer);
    forall key
      ensures LaneOk(LaneAt(q', key))
    {
      CloseOneLane(q, entry, answer, key);
      assert LaneOk(LaneAt(q, key));
      if key == entry.key {
        ReportedLaneOk(LaneAt(q, key), entry, answer);
      }
    }
  }

  lemma NextIsTrimmed(q: Queues, key: string)
    requires Inv(q)
    ensures |q.Queue(key)| > 1 ==> Trim(q.Queue(key)[1].requestId)
    ensures q.Queue(key) != [] ==> Trim(q.Queue(key)[0].requestId)
  {
    var l := LaneAt(q, key);
    assert LaneOk(l) && TicketsOk(q.issued, q.Seen(key).submitted, key);
    forall i | 0 <= i < |l.queue|
      ensures Trim(l.queue[i].requestId)
    {
      var n := |l.seen.settled| + i;
      assert l.seen.submitted[n] == l.queue[i];
      assert Ticketed(q.issued, l.seen.submitted[n], key, n);
      IssuedIsTrimmed(q, l.queue[i].requestId);
    }
  }

  lemma CloseKeepsIssued(q: Queues, entry: Pending, answer: Answer)
    requires IssuedOk(q) && Judge(q, entry.requestId, entry.key) == Reported
    ensures IssuedOk(CloseRequest(q, entry, answer))
  {
    var q' := CloseRequest(q, entry, answer);
    forall key
      ensures q'.Seen(key).submitted == q.Seen(key).submitted
    {
      CloseOneLane(q, entry, answer, key);
    }
    forall id | id in q'.issued
      ensures TicketOk(q', id, q'.issued[id])
    {
      assert TicketOk(q, id, q.issued[id]);
    }
    forall key
      ensures TicketsOk(q'.issued, q'.Seen(key).submitted, key)
    {
      assert TicketsOk(q.issued, q.Seen(key).submitted, key);
    }
  }

  lemma CloseKeepsKnown(q: Queues, entry: Pending, answer: Answer)
    requires IssuedOk(q) && KnownOk(q) && Judge(q, entry.requestId, entry.key) == Reported
    requires entry.requestId in q.issued && q.issued[entry.requestId].entry == entry
    requires q.issued[entry.requestId].index == |q.Seen(entry.key).settled|
    ensures KnownOk(CloseRequest(q, entry, answer))
  {
    var q' := CloseRequest(q, entry, answer);
    assert q'.known == q.known - {entry.requestId} && q'.issued == q.issued;
    forall id
      ensures id in q'.known <==> StillQueued(q', id)
      ensures id in q'.known ==> q'.known[id] == q'.issued[id].entry.key
    {
      assert id in q.known <==> StillQueued(q, id);
      if id in q.issued {
        var key := q.issued[id].entry.key;
        SettledGrows(q, entry, answer, key);
        assert TicketOk(q, id, q.issued[id]) && TicketOk(q, entry.requestId, q.issued[entry.requestId]);
      }
    }
  }

  lemma SettledGrows(q: Queues, entry: Pending, answer: Answer, key: string)
    requires Judge(q, entry.requestId, entry.key) == Reported
    ensures var n := |q.Seen(key).settled|;
            |CloseRequest(q, entry, answer).Seen(key).settled| == if key == entry.key then n + 1 else n
  {
    CloseOneLane(q, entry, answer, key);
  }

  lemma CloseKeepsInv(q: Queues, entry: Pending, answer: Answer)
    requires Inv(q) && WasDispatched(q, entry.requestId)
    requires entry.key == OperationKey(entry.item, entry.operation)
    requires Judge(q, entry.requestId, entry.key) == Reported
    ensures Inv(CloseRequest(q, entry, answer))
  {
    ReportedEntry(q, entry);
    NextIsTrimmed(q, entry.key);
    CloseKeepsLanes(q, entry, answer);
    CloseKeepsIssued(q, entry, answer);
    CloseKeepsKnown(q, entry, answer);
  }

  lemma SettleKeepsInv(q: Queues, id: string, item: string, operation: nat, answer: Answer)
    requires Inv(q) && WasDispatched(q, id)
    ensures Inv(Settle(q, id, item, operation, answer))
  {
    var entry := Pending(id, OperationKey(item, operation), item, operation);
    JudgedByKey(q, id, item, operation);
    if Judge(q, id, entry.key) == Reported {
      CloseKeepsInv(q, entry, answer);
    }
  }

  lemma ResumeKeepsInv(q: Queues)
    requires Inv(q) && q.resuming != []
    ensures Inv(Resume(q))
  {
    var q' := Resume(q);
    var own := q.resuming[|q.resuming| - 1];
    assert LaneOk(LaneAt(q, own));
    forall key
      ensures LaneOk(LaneAt(q', key))
      ensures q'.Seen(key).submitted == q.Seen(key).submitted && q'.Seen(key).settled == q.Seen(key).settled
    {
      ResumeOneLane(q, key);
      assert LaneOk(LaneAt(q, key));
      if key == own {
        ResumedLaneOk(LaneAt(q, key));
      }
    }
    forall id | id in q'.issued
      ensures TicketOk(q', id, q'.issued[id])
    {
      assert TicketOk(q, id, q.issued[id]);
    }
    forall key
      ensures TicketsOk(q'.issued, q'.Seen(key).submitted, key)
    {
      assert TicketsOk(q.issued, q.Seen(key).submitted, key);
    }
    forall id
      ensures (id in q'.known <==> StillQueued(q', id)) && (id in q'.known ==> q'.known[id] == q'.issued[id].entry.key)
    {
      assert id in q.known <==> StillQueued(q, id);
    }
  }

  // -------------------------------------------------------------------- all runs

  datatype Event =
    | Submission(entry: Pending)
    | Settlement(id: string, item: string, operation: nat, answer: Answer)
    | HandlerReturn

  ghost predicate Allowed(q: Queues, e: Event) {
    match e
    case Submission(entry) =>
      PlainItem(entry.item) && entry == Entry(entry.item, entry.operation, q.sequence + 1)
    case Settlement(id, _, _, _) => WasDispatched(q, id)
    case HandlerReturn => q.resuming != []
  }

  function After(q: Queues, e: Event): Queues {
    match e
    case Submission(entry) => Enqueue(q, entry)
    case Settlement(id, item, operation, answer) => Settle(q, id, item, operation, answer)
    case HandlerReturn => if q.resuming == [] then q else Resume(q)
  }

  ghost predicate Runs(q: Queues, events: seq<Event>)
    decreases |events|
  {
    events == [] || (Allowed(q, events[0]) && Runs(After(q, events[0]), events[1..]))
  }

  function Execute(q: Queues, events: seq<Event>): Queues
    decreases |events|
  {
    if events == [] then q else Execute(After(q, events[0]), events[1..])
  }

  lemma AfterKeepsInv(q: Queues, e: Event)
    requires Inv(q) && Allowed(q, e)
    ensures Inv(After(q, e))
  {
    match e
    case Submission(entry) =>
      NextEntryIsNamed(entry, q.sequence + 1);
      EnqueueKeepsInv(q, entry);
    case Settlement(id, item, operation, answer) => SettleKeepsInv(q, id, item, operation, answer);
    case HandlerReturn => ResumeKeepsInv(q);
  }

  lemma {:induction false} RunKeepsInv(q: Queues, events: seq<Event>)
    requires Inv(q) && Runs(q, events)
    ensures Inv(Execute(q, events))
    decreases |events|
  {
    if events != [] {
      AfterKeepsInv(q, events[0]);
      RunKeepsInv(After(q, events[0]), events[1..]);
    }
  }

  lemma EmptyInv()
    ensures Inv(EMPTY)
  {
  }

  // A lane hands its requests to the port one at a time and in submit order,
  // reports them in that order, and runs exactly its head. With no signal
  // handler active, no queued head is left waiting.
  lemma LanesAreServedInOrder(events: seq<Event>, key: string)
    requires Runs(EMPTY, events)
    ensures var q := Execute(EMPTY, events);
            var seen := q.Seen(key);
            && seen.settled <= seen.dispatched <= seen.submitted
            && |seen.dispatched| <= |seen.settled| + 1
            && seen.submitted == seen.settled + q.Queue(key)
            && (q.Queue(key) == [] <==> q.State(key).phase != Running)
            && (q.Queue(key) != [] ==> q.State(key).mutationId == q.Queue(key)[0].requestId)
            && (q.resuming == [] && q.Queue(key) != [] ==> |seen.dispatched| == |seen.settled| + 1)
  {
    EmptyInv();
    RunKeepsInv(EMPTY, events);
    assert LaneOk(LaneAt(Execute(EMPTY, events), key));
  }

  // No id is given to two requests, in whatever lanes they stand; with the lemma
  // above, each is dispatched once and reported at most once.
  lemma IdsAreUnique(events: seq<Event>, key: string, i: nat, key': string, i': nat)
    requires Runs(EMPTY, events)
    requires i < |Execute(EMPTY, events).Seen(key).submitted|
    requires i' < |Execute(EMPTY, events).Seen(key').submitted|
    requires Execute(EMPTY, events).Seen(key).submitted[i].requestId
          == Execute(EMPTY, events).Seen(key').submitted[i'].requestId
    ensures key == key' && i == i'
  {
    EmptyInv();
    RunKeepsInv(EMPTY, events);
    var q := Execute(EMPTY, events);
    assert TicketsOk(q.issued, q.Seen(key).submitted, key);
    assert TicketsOk(q.issued, q.Seen(key').submitted, key');
    assert Ticketed(q.issued, q.Seen(key).submitted[i], key, i);
    assert Ticketed(q.issued, q.Seen(key').submitted[i'], key', i');
  }

  ghost predicate InQueue(queue: seq<Pending>, id: string) {
    exists i :: 0 <= i < |queue| && queue[i].requestId == id
  }

  lemma QueuedIsTicketed(q: Queues, key: string, i: nat)
    requires LaneOk(LaneAt(q, key)) && TicketsOk(q.issued, q.Seen(key).submitted, key) && i < |q.Queue(key)|
    ensures Ticketed(q.issued, q.Queue(key)[i], key, |q.Seen(key).settled| + i)
  {
    assert q.Seen(key).submitted[|q.Seen(key).settled| + i] == q.Queue(key)[i];
  }

  lemma QueuedIsKnown(q: Queues, key: string, i: nat)
    requires Inv(q) && i < |q.Queue(key)|
    ensures var id := q.Queue(key)[i].requestId; id in q.known && q.known[id] == key
  {
    assert LaneOk(LaneAt(q, key)) && TicketsOk(q.issued, q.Seen(key).submitted, key);
    QueuedIsTicketed(q, key, i);
    assert StillQueued(q, q.Queue(key)[i].requestId);
  }

  lemma KnownIsQueued(q: Queues, id: string)
    requires Inv(q) && id in q.known
    ensures InQueue(q.Queue(q.known[id]), id)
  {
    assert StillQueued(q, id) && TicketOk(q, id, q.issued[id]);
    var l := LaneAt(q, q.known[id]);
    assert LaneOk(l);
    var n := q.issued[id].index;
    assert l.queue[n - |l.seen.settled|] == l.seen.submitted[n];
  }

  // m_knownRequests maps exactly the queued ids, each to the lane it stands in.
  lemma KnownIsTheInverseIndex(events: seq<Event>, id: string, key: string)
    requires Runs(EMPTY, events)
    ensures var q := Execute(EMPTY, events);
            InQueue(q.Queue(key), id) <==> id in q.known && q.known[id] == key
  {
    EmptyInv();
    RunKeepsInv(EMPTY, events);
    QueuedAndKnown(Execute(EMPTY, events), id, key);
  }

  lemma QueuedAndKnown(q: Queues, id: string, key: string)
    requires Inv(q)
    ensures InQueue(q.Queue(key), id) <==> id in q.known && q.known[id] == key
  {
    if InQueue(q.Queue(key), id) {
      var i :| 0 <= i < |q.Queue(key)| && q.Queue(key)[i].requestId == id;
      QueuedIsKnown(q, key, i);
    }
    if id in q.known {
      KnownIsQueued(q, id);
    }
  }

  lemma JudgedByQueue(q: Queues, id: string, item: string, operation: nat)
    requires Inv(q) && WasDispatched(q, id)
    ensures var key := OperationKey(item, operation);
            Judge(q, id, key) == if InQueue(q.Queue(key), id) then Reported else Unknown
  {
    JudgedByKey(q, id, item, operation);
    QueuedAndKnown(q, id, OperationKey(item, operation));
  }

  lemma CloseReports(q: Queues, entry: Pending, answer: Answer)
    requires Inv(q) && WasDispatched(q, entry.requestId)
    requires entry.key == OperationKey(entry.item, entry.operation)
    requires Judge(q, entry.requestId, entry.key) == Reported
    ensures var q' := CloseRequest(q, entry, answer);
            && q'.Seen(entry.key).settled == q.Seen(entry.key).settled + [entry]
            && q.Queue(entry.key) == [entry] + q'.Queue(entry.key)
            && CloseRequest(q', entry, answer) == q'
  {
    ReportedEntry(q, entry);
    CloseOneLane(q, entry, answer, entry.key);
    assert entry.requestId !in CloseRequest(q, entry, answer).known;
  }

  // A settlement of an id the port was handed is reported exactly when it comes
  // under the request's own key and for the first time; any other leaves the
  // view model as it was. None is lost to a branch that drops it.
  lemma SettlementReportsOnce(events: seq<Event>, id: string, item: string, operation: nat, answer: Answer)
    requires Runs(EMPTY, events) && WasDispatched(Execute(EMPTY, events), id)
    ensures var q := Execute(EMPTY, events);
            var key := OperationKey(item, operation);
            var q' := Settle(q, id, item, operation, answer);
            && (InQueue(q.Queue(key), id) ==>
                  && q'.Seen(key).settled == q.Seen(key).settled + [Pending(id, key, item, operation)]
                  && q.Queue(key) == [Pending(id, key, item, operation)] + q'.Queue(key)
                  && Settle(q', id, item, operation, answer) == q')
            && (!InQueue(q.Queue(key), id) ==> q' == q)
  {
    EmptyInv();
    RunKeepsInv(EMPTY, events);
    var q := Execute(EMPTY, events);
    var key := OperationKey(item, operation);
    JudgedByQueue(q, id, item, operation);
    if InQueue(q.Queue(key), id) {
      CloseReports(q, Pending(id, key, item, operation), answer);
    }
  }

  // ------------------------------------------------------- the state of a lane

  // What the operation state shows of a request that has been answered.
  function Told(id: string, answer: Answer): Operation {
    match answer
    case Completed(text) => Operation(Succeeded, id, text, "")
    case Failed(text) => Operation(Phase.Failed, id, "", Trimmed(text))
  }

  // The lane shows its head running, or else what is given.
  predicate Shows(l: Lane, idle: Operation) {
    l.state == if l.queue == [] then idle else Operation(Running, l.queue[0].requestId, "", "")
  }

  // The answer of the request of a lane that was settled last.
  ghost function LastTold(q: Queues, events: seq<Event>, key: string, told: Operation): Operation
    decreases |events|
  {
    if events == [] then told
    else LastTold(After(q, events[0]), events[1..], key, NextTold(q, events[0], key, told))
  }

  ghost function NextTold(q: Queues, e: Event, key: string, told: Operation): Operation {
    if e.Settlement? && OperationKey(e.item, e.operation) == key && InQueue(q.Queue(key), e.id)
    then Told(e.id, e.answer) else told
  }

  lemma EnqueuedShows(l: Lane, entry: Pending, idle: Operation)
    requires Shows(l, idle) && Trim(entry.requestId)
    ensures Shows(LaneEnqueued(l, entry), idle)
  {
  }

  lemma ReportedShows(l: Lane, entry: Pending, answer: Answer, idle: Operation)
    requires Shows(l, idle) && l.queue != [] && entry == l.queue[0] && Trim(entry.requestId)
    requires |l.queue| > 1 ==> Trim(l.queue[1].requestId)
    ensures Shows(LaneReported(l, entry, answer), Told(entry.requestId, answer))
  {
  }

  lemma SettlementShows(q: Queues, entry: Pending, answer: Answer, key: string, idle: Operation)
    requires Inv(q) && WasDispatched(q, entry.requestId) && entry.key == OperationKey(entry.item, entry.operation)
    requires Shows(LaneAt(q, key), idle)
    ensures var told := if entry.key == key && InQueue(q.Queue(key), entry.requestId)
                        then Told(entry.requestId, answer) else idle;
            Shows(LaneAt(CloseRequest(q, entry, answer), key), told)
  {
    JudgedByQueue(q, entry.requestId, entry.item, entry.operation);
    if Judge(q, entry.requestId, entry.key) == Reported {
      ReportedEntry(q, entry);
      CloseOneLane(q, entry, answer, key);
      NextIsTrimmed(q, key);
      if entry.key == key {
        ReportedShows(LaneAt(q, key), entry, answer, idle);
      }
    }
  }

  lemma SubmissionShows(q: Queues, entry: Pending, key: string, idle: Operation)
    requires Shows(LaneAt(q, key), idle) && Trim(entry.requestId)
    ensures Shows(LaneAt(Enqueue(q, entry), key), idle)
  {
    EnqueueOneLane(q, entry, key);
    if key == entry.key {
      EnqueuedShows(LaneAt(q, key), entry, idle);
    }
  }

  lemma ResumptionShows(q: Queues, key: string, idle: Operation)
    requires Inv(q) && q.resuming != [] && Shows(LaneAt(q, key), idle)
    ensures Shows(LaneAt(Resume(q), key), idle)
  {
    assert LaneOk(LaneAt(q, q.resuming[|q.resuming| - 1]));
    ResumeOneLane(q, key);
  }

  lemma AfterShows(q: Queues, e: Event, key: string, idle: Operation)
    requires Inv(q) && Allowed(q, e) && Shows(LaneAt(q, key), idle)
    ensures Shows(LaneAt(After(q, e), key), NextTold(q, e, key, idle))
  {
    match e
    case Submission(entry) =>
      NextEntryIsNamed(entry, q.sequence + 1);
      SubmissionShows(q, entry, key, idle);
    case Settlement(id, item, operation, answer) =>
      SettlementShows(q, Pending(id, OperationKey(item, operation), item, operation), answer, key, idle);
    case HandlerReturn => ResumptionShows(q, key, idle);
  }

  lemma {:induction false} RunShows(q: Queues, events: seq<Event>, key: string, idle: Operation)
    requires Inv(q) && Runs(q, events) && Shows(LaneAt(q, key), idle)
    ensures Shows(LaneAt(Execute(q, events), key), LastTold(q, events, key, idle))
    decreases |events|
  {
    if events != [] {
      AfterKeepsInv(q, events[0]);
      AfterShows(q, events[0], key, idle);
      RunShows(After(q, events[0]), events[1..], key, NextTold(q, events[0], key, idle));
    }
  }

  // Over every run the operation state of a lane shows its head running, and when
  // the lane is empty the answer of the request settled last: a success with its
  // result, a failure with its message.
  lemma StateTellsTheAnswer(events: seq<Event>, key: string)
    requires Runs(EMPTY, events)
    ensures var q := Execute(EMPTY, events);
            q.State(key) == if q.Queue(key) == [] then LastTold(EMPTY, events, key, IDLE)
                            else Operation(Running, q.Queue(key)[0].requestId, "", "")
  {
    EmptyInv();
    RunShows(EMPTY, events, key, IDLE);
  }

  // In particular after a settlement that is reported.
  lemma SettlementTellsTheAnswer(events: seq<Event>, id: string, item: string, operation: nat, answer: Answer)
    requires Runs(EMPTY, events) && WasDispatched(Execute(EMPTY, events), id)
    requires InQueue(Execute(EMPTY, events).Queue(OperationKey(item, operation)), id)
    ensures var key := OperationKey(item, operation);
            var q' := Settle(Execute(EMPTY, events), id, item, operation, answer);
            q'.State(key) == if q'.Queue(key) != [] then Operation(Running, q'.Queue(key)[0].requestId, "", "")
                             else match answer
                             case Completed(text) => Operation(Succeeded, id, text, "")
                             case Failed(text) => Operation(Phase.Failed, id, "", Trimmed(text))
  {
    var key := OperationKey(item, operation);
    EmptyInv();
    RunKeepsInv(EMPTY, events);
    RunShows(EMPTY, events, key, IDLE);
    SettlementShows(Execute(EMPTY, events), Pending(id, key, item, operation), answer, key,
                    LastTold(EMPTY, events, key, IDLE));
  }

  // When the innermost signal handler returns its lane hands its head to the port,
  // and nothing else happens.
  lemma HandlerReturnGoesOn(events: seq<Event>, q: Queues, key: string)
    requires Runs(EMPTY, events) && q == Execute(EMPTY, events) && q.resuming != []
    ensures var q' := After(q, HandlerReturn);
            var last := |q.resuming| - 1;
            && q'.resuming == q.resuming[..last]
            && q'.Queue(key) == q.Queue(key) && q'.State(key) == q.State(key)
            && (if key == q.resuming[last]
                then q.Queue(key) != [] && q'.Seen(key).dispatched == q.Seen(key).dispatched + [q.Queue(key)[0]]
                else q'.Seen(key) == q.Seen(key))
  {
    EmptyInv();
    RunKeepsInv(EMPTY, events);
    ResumeGoesOn(q, key);
  }

  lemma ResumeGoesOn(q: Queues, key: string)
    requires LanesOk(q) && q.resuming != []
    ensures var q' := Resume(q);
            var last := |q.resuming| - 1;
            && q'.resuming == q.resuming[..last]
            && q'.Queue(key) == q.Queue(key) && q'.State(key) == q.State(key)
            && (if key == q.resuming[last]
                then q.Queue(key) != [] && q'.Seen(key).dispatched == q.Seen(key).dispatched + [q.Queue(key)[0]]
                else q'.Seen(key) == q.Seen(key))
  {
    assert LaneOk(LaneAt(q, q.resuming[|q.resuming| - 1]));
    ResumeOneLane(q, key);
  }

  // What the branches do that such runs never take, for an id known under this
  // key. Without a queue the request is forgotten and reported; behind another
  // head it changes nothing; a head that its state refuses is dropped, and neither
  // reported nor followed by the next.
  lemma StrayBranches(q: Queues, entry: Pending, answer: Answer)
    requires Knows(q.known, entry)
    ensures var q' := CloseRequest(q, entry, answer);
            var queue := q.Queue(entry.key);
            && (entry.key !in q.pending ==>
                  && entry.requestId !in q'.known && q'.pending == q.pending && q'.states == q.states
                  && q'.Seen(entry.key).settled == q.Seen(entry.key).settled + [entry])
            && (entry.key in q.pending && (queue == [] || queue[0].requestId != entry.requestId) ==> q' == q)
            && (queue != [] && queue[0].requestId == entry.requestId
                && (q.State(entry.key).phase != Running || q.State(entry.key).mutationId != entry.requestId) ==>
                  && entry.requestId !in q'.known && q'.Queue(entry.key) == queue[1..]
                  && q'.states == q.states && q'.histories == q.histories && q'.resuming == q.resuming)
  {
  }

  // ------------------------------------------------------------ marked items

  // Runs of any items, whatever the port settles; only the numbering is kept.
  predicate Numbered(q: Queues, events: seq<Event>)
    decreases |events|
  {
    events == [] || (Genuine(q, events[0]) && Numbered(After(q, events[0]), events[1..]))
  }

  predicate Genuine(q: Queues, e: Event) {
    e.Submission? ==> e.entry == Entry(e.entry.item, e.entry.operation, q.sequence + 1)
  }

  predicate Knows(known: map<string, string>, p: Pending) {
    p.requestId in known && known[p.requestId] == p.key
  }

  // The head of a lane whose id has been taken over by another lane.
  predicate Lost(q: Queues, head: Pending) {
    q.Queue(head.key) != [] && q.Queue(head.key)[0] == head && !Knows(q.known, head)
  }

  predicate Counted(q: Queues, p: Pending, number: nat) {
    p == Entry(p.item, p.operation, number) && number <= q.sequence
  }

  lemma SameLaneSameItem(p: Pending, m: nat, r: Pending, n: nat)
    requires p == Entry(p.item, p.operation, m) && r == Entry(r.item, r.operation, n) && p.key == r.key
    ensures p.requestId == r.requestId ==> m == n
  {
    OperationKeyInjective(p.item, p.operation, r.item, r.operation);
    if p.requestId == r.requestId {
      OneItemOneNumber(p.operation, p.item, m, n);
    }
  }

  lemma EnqueueCounts(q: Queues, entry: Pending)
    ensures Enqueue(q, entry).known == q.known[entry.requestId := entry.key]
    ensures Enqueue(q, entry).sequence == q.sequence + 1
  {
  }

  lemma EnqueueKeepsHead(q: Queues, entry: Pending, key: string)
    requires q.Queue(key) != []
    ensures Enqueue(q, entry).Queue(key) != [] && Enqueue(q, entry).Queue(key)[0] == q.Queue(key)[0]
  {
    EnqueueOneLane(q, entry, key);
    assert LaneAt(Enqueue(q, entry), key).queue == Enqueue(q, entry).Queue(key);
  }

  lemma SubmissionKeepsLost(q: Queues, entry: Pending, head: Pending)
    requires Lost(q, head) && (entry.key == head.key ==> entry.requestId != head.requestId)
    ensures Lost(Enqueue(q, entry), head)
  {
    EnqueueKeepsHead(q, entry, head.key);
    EnqueueCounts(q, entry);
  }

  // Under another key the settlement leaves the lane; under its own the id is
  // unknown, or not that of the head.
  lemma SettlementKeepsLost(q: Queues, entry: Pending, answer: Answer, head: Pending)
    requires Lost(q, head)
    ensures Lost(CloseRequest(q, entry, answer), head)
    ensures CloseRequest(q, entry, answer).sequence == q.sequence
  {
    if entry.key == head.key {
      assert Judge(q, entry.requestId, entry.key) in {Unknown, NotHead};
    } else {
      OtherLaneStays(q, entry, answer, head);
    }
  }

  lemma OtherLaneStays(q: Queues, entry: Pending, answer: Answer, head: Pending)
    requires entry.key != head.key
    ensures CloseRequest(q, entry, answer).Queue(head.key) == q.Queue(head.key)
    ensures Knows(CloseRequest(q, entry, answer).known, head) ==> Knows(q.known, head)
    ensures CloseRequest(q, entry, answer).sequence == q.sequence
  {
  }

  lemma SequenceStays(q: Queues, e: Event)
    ensures q.sequence <= After(q, e).sequence
  {
    match e
    case Submission(entry) => EnqueueCounts(q, entry);
    case Settlement(_, _, _, _) =>
    case HandlerReturn =>
  }

  // Nothing in the run gives the id of head to a request of its own lane.
  predicate Spares(e: Event, head: Pending) {
    e.Submission? && e.entry.key == head.key ==> e.entry.requestId != head.requestId
  }

  predicate AllSpare(events: seq<Event>, head: Pending) {
    forall i :: 0 <= i < |events| ==> Spares(events[i], head)
  }

  lemma AfterKeepsLost(q: Queues, e: Event, head: Pending)
    requires Lost(q, head) && Spares(e, head)
    ensures Lost(After(q, e), head)
  {
    match e
    case Submission(entry) => SubmissionKeepsLost(q, entry, head);
    case Settlement(id, item, operation, answer) =>
      SettlementKeepsLost(q, Pending(id, OperationKey(item, operation), item, operation), answer, head);
    case HandlerReturn =>
  }

  lemma {:induction false} LostForGood(q: Queues, events: seq<Event>, head: Pending)
    requires Lost(q, head) && AllSpare(events, head)
    ensures Lost(Execute(q, events), head)
    decreases |events|
  {
    if events != [] {
      AfterKeepsLost(q, events[0], head);
      LostForGood(After(q, events[0]), events[1..], head);
    }
  }

  lemma GenuineSpares(q: Queues, e: Event, head: Pending, number: nat)
    requires Counted(q, head, number) && Genuine(q, e)
    ensures Spares(e, head)
  {
    if e.Submission? && e.entry.key == head.key {
      SameLaneSameItem(head, number, e.entry, q.sequence + 1);
    }
  }

  lemma {:induction false} NumberedSpares(q: Queues, events: seq<Event>, head: Pending, number: nat)
    requires Counted(q, head, number) && Numbered(q, events)
    ensures AllSpare(events, head)
    decreases |events|
  {
    if events != [] {
      GenuineSpares(q, events[0], head, number);
      SequenceStays(q, events[0]);
      NumberedSpares(After(q, events[0]), events[1..], head, number);
    }
  }

  // Submissions of one item and operation under the numbers up to ten.
  function Flood(item: string, operation: nat, sequence: nat): seq<Event>
    requires sequence <= 10
    decreases 10 - sequence
  {
    if sequence == 10 then []
    else [Submission(Entry(item, operation, sequence + 1))] + Flood(item, operation, sequence + 1)
  }

  // A lane whose one request is with the port.
  predicate Waits(q: Queues, head: Pending) {
    q.Queue(head.key) == [head] && q.Seen(head.key).dispatched == [head]
  }

  lemma OneMoreFlooded(q: Queues, entry: Pending, head: Pending)
    requires Waits(q, head) && entry.key != head.key
    ensures Waits(Enqueue(q, entry), head)
    ensures Enqueue(q, entry).sequence == q.sequence + 1
    ensures entry.requestId in Enqueue(q, entry).known && Enqueue(q, entry).known[entry.requestId] == entry.key
  {
    EnqueueOneLane(q, entry, head.key);
  }

  lemma {:induction false} Flooded(q: Queues, head: Pending, item: string, operation: nat)
    requires Waits(q, head) && head.key != OperationKey(item, operation) && q.sequence <= 10
    ensures Numbered(q, Flood(item, operation, q.sequence))
    ensures var q' := Execute(q, Flood(item, operation, q.sequence));
            && Waits(q', head) && q'.sequence == 10
            && (q.sequence < 10 ==> Knows(q'.known, Entry(item, operation, 10)))
    decreases 10 - q.sequence
  {
    if q.sequence < 10 {
      var entry := Entry(item, operation, q.sequence + 1);
      OneMoreFlooded(q, entry, head);
      Flooded(Enqueue(q, entry), head, item, operation);
      SubmittedFirst(q, entry, Flood(item, operation, q.sequence + 1));
    }
  }

  lemma SubmittedFirst(q: Queues, entry: Pending, rest: seq<Event>)
    ensures Execute(q, [Submission(entry)] + rest) == Execute(Enqueue(q, entry), rest)
    ensures Genuine(q, Submission(entry)) && Numbered(Enqueue(q, entry), rest) ==>
              Numbered(q, [Submission(entry)] + rest)
  {
    var all := [Submission(entry)] + rest;
    assert all[0] == Submission(entry) && all[1..] == rest;
  }

  // The run in which an item strands a lane: its double is submitted first, then
  // the item until it gets the double's id.
  function Stranding(item: string, operation: nat): seq<Event>
    requires !PlainItem(item)
  {
    [Submission(Entry(Double(item), operation, 1))] + Flood(item, operation, 1)
  }

  lemma FirstWaits(head: Pending)
    ensures Waits(Enqueue(EMPTY, head), head) && Enqueue(EMPTY, head).sequence == 1
  {
    EnqueueOneLane(EMPTY, head, head.key);
  }

  lemma StrandingLoses(item: string, operation: nat)
    requires !PlainItem(item)
    ensures var head := Entry(Double(item), operation, 1);
            var q := Execute(EMPTY, Stranding(item, operation));
            && Numbered(EMPTY, Stranding(item, operation))
            && Waits(q, head) && Lost(q, head) && Counted(q, head, 1)
  {
    var head, taker := Entry(Double(item), operation, 1), Entry(item, operation, 10);
    DoublesCollide(operation, item);
    if head.key == taker.key {
      OperationKeyInjective(Double(item), operation, item, operation);
    }
    FirstWaits(head);
    Flooded(Enqueue(EMPTY, head), head, item, operation);
    SubmittedFirst(EMPTY, head, Flood(item, operation, 1));
  }

  // An item with a marker below %3 can strand a lane: after this run its double
  // is with the port, and whatever happens then, no settlement of it is accepted
  // and it stays the head of its lane.
  lemma MarkedItemsStrandALane(item: string, operation: nat, later: seq<Event>, answer: Answer)
    requires !PlainItem(item)
    requires Numbered(Execute(EMPTY, Stranding(item, operation)), later)
    ensures var head := Entry(Double(item), operation, 1);
            var q := Execute(EMPTY, Stranding(item, operation));
            var q' := Execute(q, later);
            && WasDispatched(q, head.requestId)
            && q'.Queue(head.key) != [] && q'.Queue(head.key)[0] == head
            && CloseRequest(q', head, answer) == q'
  {
    var head := Entry(Double(item), operation, 1);
    var q := Execute(EMPTY, Stranding(item, operation));
    StrandingLoses(item, operation);
    assert q.Seen(head.key).dispatched[0] == head;
    NumberedSpares(q, later, head, 1);
    LostForGood(q, later, head);
  }

  // --------------------------------------------------------------- the view model

  // The imperative form: fields reassigned by methods. The calls into the port
  // and into signal handlers are the points where other methods may run; what
  // remains to be done after a handler is kept in resuming.
  class MediaActionsViewModel {
    var operationSequence: nat
    var pendingOperations: map<string, seq<Pending>>
    var knownRequests: map<string, string>
    var operationStates: map<string, Operation>
    ghost var resuming: seq<string>
    ghost var histories: map<string, History>
    ghost var issued: map<string, Ticket>

    ghost function Value(): Queues
      reads this
    {
      Queues(operationSequence, pendingOperations, knownRequests, operationStates, resuming, histories, issued)
    }

    constructor ()
      ensures Value() == EMPTY && Inv(Value())
    {
      operationSequence := 0;
      pendingOperations, knownRequests, operationStates := map[], map[], map[];
      resuming, histories, issued := [], map[], map[];
      new;
      EmptyInv();
    }

    method DispatchNextOperation(key: string)
      modifies `histories
      ensures Value() == DispatchNext(old(Value()), key)
    {
      if key !in pendingOperations || pendingOperations[key] == [] {
        return;
      }
      var pending := pendingOperations[key][0];
      ghost var seen := Value().Seen(key);
      histories := histories[key := seen.(dispatched := seen.dispatched + [pending])];
    }

    method SubmitOperation(item: string, operation: nat)
      modifies this
      ensures Value() == Enqueue(old(Value()), Entry(item, operation, old(operationSequence) + 1))
    {
      QueueUp(Entry(item, operation, operationSequence + 1));
    }

    method QueueUp(entry: Pending)
      modifies this
      ensures Value() == Enqueue(old(Value()), entry)
    {
      var key := entry.key;
      operationSequence := operationSequence + 1;
      var state := if key in operationStates then operationStates[key] else IDLE;
      var pending := (if key in pendingOperations then pendingOperations[key] else []) + [entry];
      ghost var after := Append(old(Value()), entry);
      pendingOperations := pendingOperations[key := pending];
      knownRequests := knownRequests[entry.requestId := key];
      operationStates := operationStates[key := if |pending| == 1 then state.Begun(entry.requestId) else state];
      histories, issued := after.histories, after.issued;
      if |pending| == 1 {
        DispatchNextOperation(key);
      }
    }

    method HandleSettled(id: string, item: string, operation: nat, answer: Answer) returns (reported: bool)
      modifies this
      ensures Value() == Settle(old(Value()), id, item, operation, answer)
      ensures reported <==> old(Judge(Value(), id, OperationKey(item, operation))) in {Reported, Orphan}
    {
      reported := Close(Pending(id, OperationKey(item, operation), item, operation), answer);
    }

    // handleCompleted and handleFailed up to the signal they emit; reported says
    // whether they emit one.
    method Close(entry: Pending, answer: Answer) returns (reported: bool)
      modifies this
      ensures Value() == CloseRequest(old(Value()), entry, answer)
      ensures reported <==> old(Judge(Value(), entry.requestId, entry.key)) in {Reported, Orphan}
    {
      var id, key := entry.requestId, entry.key;
      if id !in knownRequests || knownRequests[id] != key {
        return false;
      }
      ghost var report := Report(Value(), entry);
      if key in pendingOperations {
        var queue := pendingOperations[key];
        if queue == [] || queue[0].requestId != id {
          return false;
        }
        knownRequests := knownRequests - {id};
        if key !in operationStates || !operationStates[key].Accepts(id) {
          pendingOperations := pendingOperations[key := queue[1..]];
          return false;
        }
        var state := Answered(operationStates[key], id, answer);
        if queue[1..] == [] {
          pendingOperations := pendingOperations - {key};
          operationStates := operationStates[key := state];
        } else {
          pendingOperations := pendingOperations[key := queue[1..]];
          operationStates := operationStates[key := state.Begun(queue[1].requestId)];
          resuming := resuming + [key];
        }
      } else {
        knownRequests := knownRequests - {id};
      }
      histories := report;
      return true;
    }

    // The innermost handler has returned: the rest of handleCompleted or handleFailed.
    method HandlerReturned(key: string)
      requires resuming != [] && key == resuming[|resuming| - 1]
      modifies this
      ensures Value() == Resume(old(Value()))
    {
      resuming := resuming[..|resuming| - 1];
      DispatchNextOperation(key);
    }
  }
}

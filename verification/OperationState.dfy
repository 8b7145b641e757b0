// The command state machine under the mutation queues: AsyncOperationState.
module OperationState {

  datatype Phase = Idle | Running | Succeeded | Failed

  // Result values and messages are texts; the two time stamps are not modelled.
  datatype Operation = Operation(phase: Phase, mutationId: string, result: string, errorMessage: string)
  {
    predicate Accepts(id: string) {
      phase == Running && id != "" && id == mutationId
    }

    function Begun(id: string): Operation {
      if Trimmed(id) == "" then this else Operation(Running, Trimmed(id), "", "")
    }

    function Resolved(id: string, value: string): Operation {
      if Accepts(id) then Operation(Succeeded, mutationId, value, "") else this
    }

    function Rejected(id: string, message: string): Operation {
      if Accepts(id) then Operation(Failed, mutationId, "", Trimmed(message)) else this
    }
  }

  const IDLE := Operation(Idle, "", "", "")

  // ASCII members of the class that QString::trimmed removes from both ends.
  predicate IsSpace(c: char) {
    c == ' ' || '\t' <= c <= '\r'
  }

  function TrimLeft(s: string): (t: string)
    ensures |t| <= |s|
  {
    if s != "" && IsSpace(s[0]) then TrimLeft(s[1..]) else s
  }

  function TrimRight(s: string): (t: string)
    ensures |t| <= |s|
  {
    if s != "" && IsSpace(s[|s| - 1]) then TrimRight(s[..|s| - 1]) else s
  }

  function Trimmed(s: string): (t: string)
    ensures |t| <= |s|
  {
    TrimRight(TrimLeft(s))
  }

  // A text with no space at either end is its own trimmed form.
  lemma TrimmedFixpoint(s: string)
    requires s != "" && !IsSpace(s[0]) && !IsSpace(s[|s| - 1])
    ensures Trimmed(s) == s
  {
  }

  // Trimming takes away what is blank at both ends, and nothing else.
  predicate IsBlank(c: char) {
    c == ' ' || 9 <= c as int <= 13
  }

  predicate AllBlank(s: string) {
    forall i :: 0 <= i < |s| ==> IsBlank(s[i])
  }

  lemma {:induction false} TrimLeftDrops(s: string) returns (front: string)
    ensures s == front + TrimLeft(s) && AllBlank(front)
    ensures TrimLeft(s) != "" ==> !IsSpace(TrimLeft(s)[0])
  {
    front := "";
    if s != "" && IsSpace(s[0]) {
      front := TrimLeftDrops(s[1..]);
      front := [s[0]] + front;
    }
  }

  lemma {:induction false} TrimRightDrops(s: string) returns (back: string)
    ensures s == TrimRight(s) + back && AllBlank(back)
    ensures TrimRight(s) != "" ==> !IsSpace(TrimRight(s)[|TrimRight(s)| - 1]) && TrimRight(s)[0] == s[0]
  {
    back := "";
    if s != "" && IsSpace(s[|s| - 1]) {
      back := TrimRightDrops(s[..|s| - 1]);
      back := back + [s[|s| - 1]];
    }
  }

  lemma TrimmedDropsBlanks(s: string) returns (front: string, back: string)
    ensures s == front + Trimmed(s) + back && AllBlank(front) && AllBlank(back)
    ensures Trimmed(s) != "" ==> !IsBlank(Trimmed(s)[0]) && !IsBlank(Trimmed(s)[|Trimmed(s)| - 1])
  {
    front := TrimLeftDrops(s);
    back := TrimRightDrops(TrimLeft(s));
    assert front + Trimmed(s) + back == front + (Trimmed(s) + back);
  }

  // What the settlement tests promise: after a begin with a non-blank
  // identifier exactly that identifier settles the operation, and it does so
  // once, whichever way it settles; the result or the trimmed message is kept. A
  // blank identifier begins nothing.
  lemma SettlesOnce(o: Operation, id: string, other: string, text: string)
    requires id != "" && !IsSpace(id[0]) && !IsSpace(id[|id| - 1])
    ensures var begun := o.Begun(id);
            && begun == Operation(Running, id, "", "")
            && (begun.Accepts(other) <==> other == id)
            && !begun.Resolved(id, text).Accepts(other)
            && !begun.Rejected(id, text).Accepts(other)
            && begun.Resolved(other, text) == (if other == id then Operation(Succeeded, id, text, "") else begun)
            && begun.Rejected(other, text) == (if other == id then Operation(Failed, id, "", Trimmed(text)) else begun)
    ensures Trimmed(other) == "" ==> o.Begun(other) == o
  {
    TrimmedFixpoint(id);
  }

  class AsyncOperationState {
    var phase: Phase
    var mutationId: string
    var result: string
    var errorMessage: string

    ghost function Value(): Operation
      reads this
    {
      Operation(phase, mutationId, result, errorMessage)
    }

    constructor ()
      ensures Value() == IDLE
    {
      phase, mutationId, result, errorMessage := Idle, "", "", "";
    }

    predicate Accepts(id: string)
      reads this
      ensures Accepts(id) == Value().Accepts(id)
    {
      phase == Running && id != "" && id == mutationId
    }

    method Begin(id: string) returns (ok: bool)
      modifies this
      ensures Value() == old(Value()).Begun(id) && ok == (Trimmed(id) != "")
    {
      var normalized := Trimmed(id);
      if normalized == "" {
        return false;
      }
      mutationId := normalized;
      phase := Running;
      errorMessage := "";
      result := "";
      return true;
    }

    method Resolve(id: string, value: string) returns (ok: bool)
      modifies this
      ensures ok == old(Accepts(id))
      ensures Value() == old(Value()).Resolved(id, value)
    {
      if !Accepts(id) {
        return false;
      }
      phase := Succeeded;
      errorMessage := "";
      result := value;
      return true;
    }

    method Reject(id: string, message: string) returns (ok: bool)
      modifies this
      ensures ok == old(Accepts(id))
      ensures Value() == old(Value()).Rejected(id, message)
    {
      if !Accepts(id) {
        return false;
      }
      phase := Failed;
      errorMessage := Trimmed(message);
      result := "";
      return true;
    }

    method Reset()
      modifies this
      ensures Value() == IDLE
    {
      phase := Idle;
      mutationId := "";
      errorMessage := "";
      result := "";
    }
  }
}

// How MediaActionsViewModel names its requests and its lanes. Request ids are
// built by three QString::arg calls.
module MediaRequestIds {
  import opened Decimal
  import OperationState
  import opened PlaceMarkers

  // ------------------------------------------------------------------- the names

  function OperationKey(item: string, operation: nat): string {
    Digits(operation) + ":" + item
  }

  lemma OperationKeyInjective(item: string, operation: nat, item': string, operation': nat)
    requires OperationKey(item, operation) == OperationKey(item', operation')
    ensures item == item' && operation == operation'
  {
    SplitAtFirst(':', Digits(operation), item, Digits(operation'), item');
    DigitsInjective(operation, operation');
  }

  function Fill(template: string, first: string, second: string, third: string): string {
    Arg(Arg(Arg(template, first), second), third)
  }

  function RequestId(operation: nat, item: string, sequence: nat): string {
    Fill("media.%1.%2.%3", Digits(operation), item, Digits(sequence))
  }

  // The item contains no marker that the sequence number would be put into
  // instead of the last segment.
  predicate PlainItem(item: string) {
    LowestMarker(item) >= 3
  }

  lemma BareMarker(c: char, marker: nat, text: string)
    requires IsDigit(c)
    ensures var s := ['%', c];
            var n := c as int - '0' as int;
            LowestMarker(s) == n && Replace(s, marker, text) == if n == marker then text else s
  {
    var s := ['%', c];
    assert s[2..] == "";
    assert MarkerLength(s) == 2 && MarkerNumber(s) == c as int - '0' as int;
    assert LowestMarker(s) == MarkerNumber(s);
    assert text + "" == text && s + "" == s;
  }

  lemma DigitMarker(c: char, marker: nat, text: string)
    requires IsDigit(c)
    ensures var s := ['.', '%', c];
            var n := c as int - '0' as int;
            LowestMarker(s) == n && Replace(s, marker, text) == if n == marker then "." + text else s
  {
    BareMarker(c, marker, text);
    DotPrefix(['%', c], marker, text);
    assert ['.', '%', c] == "." + ['%', c];
  }

  // The last two markers of the template.
  lemma TemplateTail(marker: nat, text: string)
    requires 1 <= marker <= 2
    ensures LowestMarker(".%2" + ".%3") == 2
    ensures Replace(".%2" + ".%3", marker, text) == if marker == 2 then "." + text + ".%3" else ".%2" + ".%3"
  {
    DigitMarker('2', marker, text);
    DigitMarker('3', marker, text);
    ScanAtDot(".%2", ".%3", marker, text);
  }

  lemma FirstArg(head: string, tail: string, text: string)
    requires '%' !in head && tail != "" && tail[0] == '.'
    requires LowestMarker(tail) > 1 && Replace(tail, 1, text) == tail
    ensures Arg(head + (".%1" + tail), text) == (head + ("." + text)) + tail
  {
    FirstMarker(tail, text);
    WithoutPercent(head, 1, text);
    ScanAtDot(head, ".%1" + tail, 1, text);
    Regroup(head, "." + text, tail);
  }

  lemma FirstMarker(tail: string, text: string)
    requires tail != "" && tail[0] == '.'
    requires LowestMarker(tail) > 1 && Replace(tail, 1, text) == tail
    ensures LowestMarker(".%1" + tail) == 1
    ensures Replace(".%1" + tail, 1, text) == "." + text + tail
  {
    DigitMarker('1', 1, text);
    ScanAtDot(".%1", tail, 1, text);
  }

  lemma SecondArg(head: string, item: string)
    requires '%' !in head
    ensures Arg(head + (".%2" + ".%3"), item) == head + ("." + item + ".%3")
  {
    TemplateTail(2, item);
    WithoutPercent(head, 2, item);
    ScanAtDot(head, ".%2" + ".%3", 2, item);
  }

  lemma ThirdArg(head: string, item: string, text: string)
    requires '%' !in head
    ensures var m := if PlainItem(item) then 3 else LowestMarker(item);
            Arg(head + ("." + item + ".%3"), text)
            == head + ("." + Replace(item, m, text) + (if m == 3 then "." + text else ".%3"))
  {
    var m := if PlainItem(item) then 3 else LowestMarker(item);
    var dotted := "." + item;
    DotPrefix(item, m, text);
    DigitMarker('3', m, text);
    ScanAtDot(dotted, ".%3", m, text);
    WithoutPercent(head, m, text);
    ScanAtDot(head, dotted + ".%3", m, text);
    LowestIsBounded(item);
  }

  lemma Filled(head: string, operation: string, item: string, sequence: string)
    requires '%' !in head && '%' !in operation
    ensures Fill(head + (".%1" + (".%2" + ".%3")), operation, item, sequence)
         == Arg((head + ("." + operation)) + ("." + item + ".%3"), sequence)
  {
    TemplateTail(1, operation);
    FirstArg(head, ".%2" + ".%3", operation);
    SecondArg(head + ("." + operation), item);
  }

  lemma FilledForm(head: string, operation: string, item: string, sequence: string) returns (front: string)
    requires '%' !in head && '%' !in operation
    ensures head <= front
    ensures Fill(head + (".%1" + (".%2" + ".%3")), operation, item, sequence)
         == front + "." + (if PlainItem(item) then sequence else "%3")
  {
    var m := if PlainItem(item) then 3 else LowestMarker(item);
    Filled(head, operation, item, sequence);
    ThirdArg(head + ("." + operation), item, sequence);
    front := head + ("." + operation) + ("." + Replace(item, m, sequence));
    Regroup(head + ("." + operation), "." + Replace(item, m, sequence), if m == 3 then "." + sequence else ".%3");
    Regroup(front, ".", sequence);
  }

  lemma Regroup(a: string, b: string, c: string)
    ensures a + (b + c) == a + b + c
  {
  }

  // The shape of a request id: which of the two tails it has depends only on
  // the markers inside the item id.
  lemma RequestIdForm(operation: nat, item: string, sequence: nat) returns (front: string)
    ensures front != "" && front[0] == 'm'
    ensures RequestId(operation, item, sequence)
         == front + "." + (if PlainItem(item) then Digits(sequence) else "%3")
  {
    assert "media.%1.%2.%3" == "media" + (".%1" + (".%2" + ".%3"));
    front := FilledForm("media", Digits(operation), item, Digits(sequence));
    assert "media"[0] == front[0];
  }

  ghost predicate EndsIn(id: string, sequence: nat) {
    exists front: string :: id == front + "." + Digits(sequence)
  }

  // A request id ends in its own sequence number exactly when the item id has
  // no marker below %3.
  lemma EndsInSequence(operation: nat, item: string, sequence: nat)
    ensures EndsIn(RequestId(operation, item, sequence), sequence) <==> PlainItem(item)
  {
    var front := RequestIdForm(operation, item, sequence);
    var id := RequestId(operation, item, sequence);
    if !PlainItem(item) && EndsIn(id, sequence) {
      var head: string :| id == head + "." + Digits(sequence);
      SplitAtLast('.', front, "%3", head, Digits(sequence));
    }
  }

  lemma EndsInOneNumber(id: string, sequence: nat, sequence': nat)
    requires EndsIn(id, sequence) && EndsIn(id, sequence')
    ensures sequence == sequence'
  {
    var front: string :| id == front + "." + Digits(sequence);
    var front': string :| id == front' + "." + Digits(sequence');
    SplitAtLast('.', front, Digits(sequence), front', Digits(sequence'));
    DigitsInjective(sequence, sequence');
  }

  // Ids of plain items are told apart by their sequence number.
  lemma PlainIdsAreUnique(operation: nat, item: string, sequence: nat,
                          operation': nat, item': string, sequence': nat)
    requires PlainItem(item) && PlainItem(item')
    requires RequestId(operation, item, sequence) == RequestId(operation', item', sequence')
    ensures sequence == sequence'
  {
    EndsInSequence(operation, item, sequence);
    EndsInSequence(operation', item', sequence');
    EndsInOneNumber(RequestId(operation, item, sequence), sequence, sequence');
  }

  // begin() trims the id it is given; a request id is its own trimmed form.
  lemma RequestIdIsTrimmed(operation: nat, item: string, sequence: nat)
    ensures var id := RequestId(operation, item, sequence);
            id != "" && OperationState.Trimmed(id) == id
  {
    var front := RequestIdForm(operation, item, sequence);
    var id := RequestId(operation, item, sequence);
    assert id[0] == front[0];
    OperationState.TrimmedFixpoint(id);
  }

  // ------------------------------------------------------------ marked items

  lemma MarkedFilled(head: string, operation: string, item: string, sequence: string)
    requires '%' !in head && '%' !in operation && !PlainItem(item)
    ensures Fill(head + (".%1" + (".%2" + ".%3")), operation, item, sequence)
         == (head + ("." + operation)) + ("." + Replace(item, LowestMarker(item), sequence) + ".%3")
  {
    Filled(head, operation, item, sequence);
    ThirdArg(head + ("." + operation), item, sequence);
  }

  function Front(operation: nat): string {
    "media" + ("." + Digits(operation))
  }

  // With a marker below %3 the number goes into the item, and only there.
  lemma MarkedForm(operation: nat, item: string, sequence: nat)
    requires !PlainItem(item)
    ensures RequestId(operation, item, sequence)
         == Front(operation) + ("." + Replace(item, LowestMarker(item), Digits(sequence)) + ".%3")
  {
    assert "media.%1.%2.%3" == "media" + (".%1" + (".%2" + ".%3"));
    MarkedFilled("media", Digits(operation), item, Digits(sequence));
  }

  lemma SameMiddle(front: string, a: string, b: string, tail: string)
    ensures front + ("." + a + tail) == front + ("." + b + tail) <==> a == b
  {
    if front + ("." + a + tail) == front + ("." + b + tail) {
      assert (front + ("." + a + tail))[|front| + 1..][..|a|] == a;
      assert (front + ("." + b + tail))[|front| + 1..][..|b|] == b;
    }
  }

  // For one item the number can be told from the id, marked or not.
  lemma OneItemOneNumber(operation: nat, item: string, m: nat, n: nat)
    requires RequestId(operation, item, m) == RequestId(operation, item, n)
    ensures m == n
  {
    if PlainItem(item) {
      PlainIdsAreUnique(operation, item, m, operation, item, n);
    } else {
      MarkedForm(operation, item, m);
      MarkedForm(operation, item, n);
      var marker := LowestMarker(item);
      SameMiddle(Front(operation), Replace(item, marker, Digits(m)), Replace(item, marker, Digits(n)), ".%3");
      LowestOccurs(item);
      ReplaceLength(item, marker, Digits(m), Digits(n));
      ReplaceLength(item, marker, Digits(n), Digits(m));
      ReplaceInjective(item, marker, Digits(m), Digits(n));
      DigitsInjective(m, n);
    }
  }

  // Every marked item has a double that gets its id: under number 1 the double
  // is named as the item is under number 10.
  function Double(item: string): string
    requires !PlainItem(item)
  {
    WithDecoys(item, LowestMarker(item))
  }

  lemma DoublesCollide(operation: nat, item: string)
    requires !PlainItem(item)
    ensures !PlainItem(Double(item)) && Double(item) != item
    ensures RequestId(operation, item, 10) == RequestId(operation, Double(item), 1)
  {
    var marker, other := LowestMarker(item), Double(item);
    DecoysTakeOneDigitLess(item, marker, Digits(1));
    assert Digits(1) + "0" == Digits(10);
    MarkedForm(operation, item, 10);
    MarkedForm(operation, other, 1);
    if other == item {
      OneItemOneNumber(operation, item, 10, 1);
    }
  }

  // No request at all can have the id of one for this item under another number.
  ghost predicate Unambiguous(operation: nat, item: string) {
    forall operation', other, m, n {:trigger RequestId(operation, item, m), RequestId(operation', other, n)} ::
      RequestId(operation, item, m) == RequestId(operation', other, n) ==> m == n
  }

  lemma TailsDiffer(front: string, m: nat, front': string)
    ensures front + "." + Digits(m) != front' + "." + "%3"
  {
    assert IsDigit(Digits(m)[0]) && !IsDigit("%3"[0]);
    if front + "." + Digits(m) == front' + "." + "%3" {
      SplitAtLast('.', front, Digits(m), front', "%3");
    }
  }

  lemma PlainIsUnambiguous(operation: nat, item: string, m: nat, operation': nat, other: string, n: nat)
    requires PlainItem(item) && RequestId(operation, item, m) == RequestId(operation', other, n)
    ensures m == n
  {
    if PlainItem(other) {
      PlainIdsAreUnique(operation, item, m, operation', other, n);
    } else {
      var front := RequestIdForm(operation, item, m);
      var front' := RequestIdForm(operation', other, n);
      TailsDiffer(front, m, front');
    }
  }

  // The ids of an item cannot be mistaken exactly if it has no marker below %3.
  lemma UnambiguousIffPlain(operation: nat, item: string)
    ensures PlainItem(item) <==> Unambiguous(operation, item)
  {
    if PlainItem(item) {
      forall operation': nat, other, m: nat, n: nat | RequestId(operation, item, m) == RequestId(operation', other, n)
        ensures m == n
      {
        PlainIsUnambiguous(operation, item, m, operation', other, n);
      }
    } else {
      DoublesCollide(operation, item);
    }
  }
}

// The request ids of the latest-wins view models, as QString::arg builds them.
// Arguments that are numbers put no new place marker into the text; an item id
// can, and then the number that follows lands there.
module LaneIds {
  import opened Decimal
  import OperationState
  import opened PlaceMarkers

  // "<prefix>%1.%2" with two numbers.
  function NumberedId(prefix: string, number: nat, stateId: nat): string {
    prefix + Digits(number) + "." + Digits(stateId)
  }

  // "<prefix>%1.%2" with an item id and a number.
  function ItemId(prefix: string, item: string, number: nat): string {
    Arg(prefix + item + ".%2", Digits(number))
  }

  // Equal ids carry equal numbers.
  lemma NumberedIdInjective(prefix: string, m: nat, j: nat, n: nat, k: nat)
    requires NumberedId(prefix, m, j) == NumberedId(prefix, n, k)
    ensures m == n && j == k
  {
    assert NumberedId(prefix, m, j)[|prefix|..] == Digits(m) + ['.'] + Digits(j);
    assert NumberedId(prefix, n, k)[|prefix|..] == Digits(n) + ['.'] + Digits(k);
    SplitAtFirst('.', Digits(m), Digits(j), Digits(n), Digits(k));
    DigitsInjective(m, n);
    DigitsInjective(j, k);
  }

  lemma SecondMarker(a: string)
    ensures LowestMarker(a + ".%2") < NO_MARKER
  {
    assert MarkerLength("%2") == 2 && MarkerNumber("%2") == 2;
    assert ".%2"[1..] == "%2";
    LowestAtDot(a, ".%2");
  }

  // For one item, equal ids carry equal numbers, whatever markers the item holds.
  lemma ItemIdInjective(prefix: string, item: string, m: nat, n: nat)
    requires ItemId(prefix, item, m) == ItemId(prefix, item, n)
    ensures m == n
  {
    SecondMarker(prefix + item);
    ArgInjective(prefix + item + ".%2", Digits(m), Digits(n));
    DigitsInjective(m, n);
  }

  // A prefix that starts with a letter survives, and the last character is a digit.
  lemma ItemIdEnds(prefix: string, item: string, n: nat)
    requires prefix != "" && 'a' <= prefix[0] <= 'z'
    ensures var id := ItemId(prefix, item, n);
            id != "" && id[0] == prefix[0] && IsDigit(id[|id| - 1])
  {
    var a, text := prefix + item, Digits(n);
    SecondMarker(a);
    var marker := LowestMarker(a + ".%2");
    ReplaceAtDot(a, ".%2", marker, text);
    ReplaceStep(a, marker, text);
    LastMarkerEnds(marker, text);
  }

  lemma LastMarkerEnds(marker: nat, text: string)
    requires text != "" && IsDigit(text[|text| - 1])
    ensures var s := Replace(".%2", marker, text);
            s != "" && IsDigit(s[|s| - 1])
  {
    assert ".%2"[1..] == "%2" && "%2"[2..] == "";
    assert MarkerLength("%2") == 2;
    assert Replace("%2", marker, text) == (if MarkerNumber("%2") == marker then text else "%2"[..2]);
  }

  lemma NumberedIdEnds(prefix: string, number: nat, stateId: nat)
    requires prefix != "" && 'a' <= prefix[0] <= 'z'
    ensures var id := NumberedId(prefix, number, stateId);
            id != "" && id[0] == prefix[0] && IsDigit(id[|id| - 1])
  {
    var id, last := NumberedId(prefix, number, stateId), Digits(stateId);
    assert id[|id| - 1] == last[|last| - 1];
  }

  // Such ids pass through AsyncOperationState::begin unchanged.
  lemma IsTrimmed(id: string)
    requires id != "" && 'a' <= id[0] <= 'z' && IsDigit(id[|id| - 1])
    ensures OperationState.Trimmed(id) == id
  {
    OperationState.TrimmedFixpoint(id);
  }
}

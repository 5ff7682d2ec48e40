/** Types shared by every component of the model. */
module Common {
  datatype Option<+T> = None | Some(value: T)

  type ClientId = string
  type PaneId = string

  function Min(a: int, b: int): int { if a <= b then a else b }

  function Max(a: int, b: int): int { if a <= b then b else a }

  /** Joined text whose last part is free of the separator determines both parts. */
  lemma LastPart(separator: char, front: string, last: string, otherFront: string, otherLast: string)
    requires front + [separator] + last == otherFront + [separator] + otherLast
    requires separator !in last && separator !in otherLast
    ensures front == otherFront && last == otherLast
  {
    var text := front + [separator] + last;
    assert text[|front|] == separator && text[|otherFront|] == separator;
    assert forall j :: |front| < j < |text| ==> text[j] == last[j - |front| - 1];
    assert forall j :: |otherFront| < j < |text| ==> text[j] == otherLast[j - |otherFront| - 1];
    assert front == text[..|front|] && otherFront == text[..|otherFront|];
    assert last == text[|front| + 1..] && otherLast == text[|otherFront| + 1..];
  }

  /** Joined text whose first part is free of the separator determines both parts. */
  lemma FirstPart(separator: char, first: string, rest: string, otherFirst: string, otherRest: string)
    requires first + [separator] + rest == otherFirst + [separator] + otherRest
    requires separator !in first && separator !in otherFirst
    ensures first == otherFirst && rest == otherRest
  {
    var text := first + [separator] + rest;
    assert text[|first|] == separator && text[|otherFirst|] == separator;
    assert forall j :: 0 <= j < |first| ==> text[j] == first[j];
    assert forall j :: 0 <= j < |otherFirst| ==> text[j] == otherFirst[j];
    assert first == text[..|first|] && otherFirst == text[..|otherFirst|];
    assert rest == text[|first| + 1..] && otherRest == text[|otherFirst| + 1..];
  }
}

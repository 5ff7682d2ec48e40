/** Lists of numbered events: the sorted copy and the filter that replays are made of. */
module Sequenced {
  import opened Common

  function InsertBy<T>(e: T, sorted: seq<T>, seqOf: T -> int): seq<T> {
    if sorted == [] || seqOf(e) <= seqOf(sorted[0]) then [e] + sorted else [sorted[0]] + InsertBy(e, sorted[1..], seqOf)
  }

  function SortBy<T>(events: seq<T>, seqOf: T -> int): seq<T> {
    if events == [] then [] else InsertBy(events[0], SortBy(events[1..], seqOf), seqOf)
  }

  /** The events with a number greater than lastSeq. */
  function After<T>(events: seq<T>, seqOf: T -> int, lastSeq: int): seq<T> {
    if events == [] then []
    else if seqOf(events[0]) > lastSeq then [events[0]] + After(events[1..], seqOf, lastSeq)
    else After(events[1..], seqOf, lastSeq)
  }

  ghost predicate ConsecutiveBy<T>(events: seq<T>, seqOf: T -> int) {
    forall i :: 0 <= i < |events| ==> seqOf(events[i]) == seqOf(events[0]) + i
  }

  lemma ConsecutiveRest<T>(events: seq<T>, seqOf: T -> int)
    requires events != [] && ConsecutiveBy(events, seqOf)
    ensures ConsecutiveBy(events[1..], seqOf)
    ensures |events| > 1 ==> seqOf(events[1..][0]) == seqOf(events[0]) + 1
  {
    var rest := events[1..];
    assert forall i :: 0 <= i < |rest| ==> rest[i] == events[i + 1];
  }

  /** Sorting consecutive events changes nothing. */
  lemma {:induction false} SortIsIdentity<T>(events: seq<T>, seqOf: T -> int)
    requires ConsecutiveBy(events, seqOf)
    ensures SortBy(events, seqOf) == events
  {
    if events != [] {
      ConsecutiveRest(events, seqOf);
      SortIsIdentity(events[1..], seqOf);
      assert events == [events[0]] + events[1..];
    }
  }

  /** Of consecutive events the filter keeps a suffix. */
  lemma {:induction false} AfterIsSuffix<T>(events: seq<T>, seqOf: T -> int, lastSeq: int)
    requires ConsecutiveBy(events, seqOf)
    ensures var k := if events == [] then 0 else Max(0, Min(|events|, lastSeq - seqOf(events[0]) + 1));
            After(events, seqOf, lastSeq) == events[k..]
  {
    if events != [] {
      ConsecutiveRest(events, seqOf);
      AfterIsSuffix(events[1..], seqOf, lastSeq);
      if seqOf(events[0]) > lastSeq {
        assert events == [events[0]] + events[1..];
      }
    }
  }
}

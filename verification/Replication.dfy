/**
 * The stream engine of one pane and one resuming reader, as a replication
 * protocol over a truncated log, and what every step of it keeps.
 *
 * One run is one lifetime of the pane's watcher. The reader under study is an
 * arbitrary one; every other client acts through the environment steps.
 */
module Replication {
  import opened Common
  import opened Watchers

  // ---- The reader ----

  datatype Reader = Reader(cursor: Option<nat>, transcript: string)

  function ShouldEmit(sequence: nat, lastSequence: Option<nat>): bool {
    if sequence > 0 && lastSequence.Some? then sequence > lastSequence.value else true
  }

  function Consume(r: Reader, e: Event): Reader {
    if ShouldEmit(e.streamSeq, r.cursor) then
      Reader(if e.streamSeq > 0 then Some(e.streamSeq) else r.cursor, Render(r.transcript, e.mode, e.chunk))
    else r
  }

  function ConsumeAll(r: Reader, events: seq<Event>): Reader
    decreases |events|
  {
    if events == [] then r else ConsumeAll(Consume(r, events[0]), events[1..])
  }

  lemma {:induction false} ConsumeAppend(r: Reader, events: seq<Event>, e: Event)
    ensures ConsumeAll(r, events + [e]) == Consume(ConsumeAll(r, events), e)
    decreases |events|
  {
    if events == [] {
      assert events + [e] == [e];
    } else {
      assert (events + [e])[1..] == events[1..] + [e];
      ConsumeAppend(Consume(r, events[0]), events[1..], e);
    }
  }

  /** The position of a reader; a reader that has seen nothing stands before event 1. */
  function Position(cursor: Option<nat>): nat {
    if cursor.Some? then cursor.value else 0
  }

  /** The stream service's cursor together with the transcript of the view that consumes its chunks. */
  class StreamReader {
    var resumeSequence: Option<nat>
    var transcript: string

    constructor (cursor: Option<nat>)
      ensures Value() == Reader(cursor, "")
    {
      resumeSequence, transcript := cursor, "";
    }

    function Value(): Reader
      reads this
    {
      Reader(resumeSequence, transcript)
    }

    /** One output envelope of the receive loop. */
    method Receive(e: Event)
      modifies this
      ensures Value() == Consume(old(Value()), e)
    {
      if ShouldEmit(e.streamSeq, resumeSequence) {
        if e.streamSeq > 0 {
          resumeSequence := Some(e.streamSeq);
        }
        transcript := if e.mode.Snapshot? then e.chunk else transcript + e.chunk;
      }
    }

    /** The chunks buffered while an attach was being acknowledged. */
    method ReceiveBuffered(buffered: seq<Event>)
      modifies this
      ensures Value() == ConsumeAll(old(Value()), buffered)
    {
      for i := 0 to |buffered|
        invariant Value() == ConsumeAll(old(Value()), buffered[..i])
      {
        ConsumeAppend(old(Value()), buffered[..i], buffered[i]);
        assert buffered[..i + 1] == buffered[..i] + [buffered[i]];
        Receive(buffered[i]);
      }
      assert buffered[..|buffered|] == buffered;
    }
  }

  /** The chunks of an initial attach that pass the cursor filter, and the cursor after them. */
  method PrepareBufferedOutput(chunks: seq<Event>, baseline: Option<nat>)
    returns (filtered: seq<Event>, lastSequence: Option<nat>)
    ensures forall text: string :: Shows(text, filtered, lastSequence, baseline, chunks)
  {
    filtered, lastSequence := [], baseline;
    for i := 0 to |chunks|
      invariant forall text: string :: Shows(text, filtered, lastSequence, baseline, chunks[..i])
    {
      assert chunks[..i + 1] == chunks[..i] + [chunks[i]];
      ghost var before, cursor, taken := filtered, lastSequence, chunks[..i + 1];
      if ShouldEmit(chunks[i].streamSeq, lastSequence) {
        if chunks[i].streamSeq > 0 {
          lastSequence := Some(chunks[i].streamSeq);
        }
        filtered := filtered + [chunks[i]];
      }
      forall text: string
        ensures Shows(text, filtered, lastSequence, baseline, taken)
      {
        assert Shows(text, before, cursor, baseline, chunks[..i]);
        ConsumeAppend(Reader(baseline, text), chunks[..i], chunks[i]);
        RenderAppend(text, before, chunks[i]);
      }
    }
    assert chunks[..|chunks|] == chunks;
  }

  /** Rendering the filtered chunks unconditionally is the same as offering every chunk to a reader at the baseline. */
  ghost predicate Shows(text: string, filtered: seq<Event>, last: Option<nat>, baseline: Option<nat>,
                        chunks: seq<Event>) {
    Reader(last, RenderAll(text, filtered)) == ConsumeAll(Reader(baseline, text), chunks)
  }

  function RenderAll(text: string, events: seq<Event>): string
    decreases |events|
  {
    if events == [] then text else RenderAll(Render(text, events[0].mode, events[0].chunk), events[1..])
  }

  lemma {:induction false} RenderAppend(text: string, events: seq<Event>, e: Event)
    ensures RenderAll(text, events + [e]) == Render(RenderAll(text, events), e.mode, e.chunk)
    decreases |events|
  {
    if events == [] {
      assert events + [e] == [e];
    } else {
      assert (events + [e])[1..] == events[1..] + [e];
      RenderAppend(Render(text, events[0].mode, events[0].chunk), events[1..], e);
    }
  }

  // ---- The system ----

  /**
   * texts[n] is the pane text the engine held when it issued event n (texts[0] is
   * empty). awaiting counts the attaches suspended at the first capture. conn is the
   * reader's connection and inbox what was sent on it and not yet received.
   */
  datatype Sys = Sys(
    watcher: Watcher,
    awaiting: multiset<ClientId>,
    texts: seq<string>,
    conn: Option<ClientId>,
    inbox: seq<Event>,
    reader: Reader)

  datatype Step =
    | OtherAttach(client: ClientId)
    | ReaderAttach(client: ClientId, since: Option<int>)
    | FirstCapture(client: ClientId, output: Option<string>)
    | Poll(output: Option<string>)
    | Detach(client: ClientId)
    | Deliver
    | DropConnection

  function Init(): Sys {
    Sys(FRESH_WATCHER, multiset{}, [""], None, [], Reader(None, ""))
  }

  function Next(s: Sys, step: Step, pane: PaneId, maxHistory: nat): Sys {
    match step
    case OtherAttach(c) =>
      Subscribed(s, c)
    case ReaderAttach(c, since) =>
      // a new connection starts with nothing in flight; the old one's output is lost
      var t := Subscribed(s, c).(conn := Some(c), inbox := if s.conn == Some(c) then s.inbox else []);
      if s.watcher.streamSeq > 0 then t.(inbox := t.inbox + AttachReply(t.watcher, pane, since).0) else t
    case FirstCapture(c, output) =>
      if c !in s.awaiting then s
      else
        var t := s.(awaiting := s.awaiting - multiset{c});
        (match output
         case None => t.(watcher := t.watcher.(subscribers := Unsubscribe(t.watcher.subscribers, c)))
         case Some(text) =>
           var (w, e) := Captured(t.watcher, pane, text, maxHistory);
           t.(watcher := w, texts := t.texts + [text], inbox := if t.conn == Some(c) then t.inbox + [e] else t.inbox))
    case Poll(output) =>
      if output.None? then s
      else
        var (w, e) := Polled(s.watcher, pane, output.value, maxHistory);
        if e.None? then s
        else
          s.(watcher := w, texts := s.texts + [output.value], inbox := if Live(s) then s.inbox + [e.value] else s.inbox)
    case Detach(c) =>
      s.(watcher := s.watcher.(subscribers := Unsubscribe(s.watcher.subscribers, c)))
    case Deliver =>
      if s.inbox == [] then s else s.(reader := Consume(s.reader, s.inbox[0]), inbox := s.inbox[1..])
    case DropConnection =>
      s.(conn := None, inbox := [])
  }

  /** An attach before the first event is published suspends at the first capture. */
  function Subscribed(s: Sys, c: ClientId): Sys {
    s.(watcher := s.watcher.(subscribers := Subscribe(s.watcher.subscribers, c)),
       awaiting := if s.watcher.streamSeq == 0 then s.awaiting + multiset{c} else s.awaiting)
  }

  /** The engine currently sends the reader's connection every new event. */
  predicate Live(s: Sys) {
    s.conn.Some? && s.conn.value in s.watcher.subscribers
  }

  function Run(s: Sys, steps: seq<Step>, pane: PaneId, maxHistory: nat): Sys
    decreases |steps|
  {
    if steps == [] then s else Run(Next(s, steps[0], pane, maxHistory), steps[1..], pane, maxHistory)
  }

  /**
   * What a run must respect. A client id names one connection. A detach does not
   * take the last subscriber away, which would end the watcher's lifetime. A reader
   * resumes from a cursor it has reached. A first capture finishes while no other
   * connection of the reader is subscribed, so its event reaches every live reader.
   */
  predicate Allowed(s: Sys, step: Step) {
    match step
    case OtherAttach(c) => s.conn != Some(c)
    case ReaderAttach(c, since) =>
      && (s.conn == Some(c) || (c !in s.watcher.subscribers && c !in s.awaiting))
      && (since.Some? ==> since.value <= Position(s.reader.cursor))
    case FirstCapture(c, output) => output.None? || s.conn == Some(c) || !Live(s)
    case Detach(c) => Unsubscribe(s.watcher.subscribers, c) != []
    case _ => true
  }

  predicate AllowedRun(s: Sys, steps: seq<Step>, pane: PaneId, maxHistory: nat)
    decreases |steps|
  {
    steps == [] ||
    (Allowed(s, steps[0]) && AllowedRun(Next(s, steps[0], pane, maxHistory), steps[1..], pane, maxHistory))
  }

  // ---- The invariant ----

  /** Event e says what the text became when it was issued. */
  ghost predicate Faithful(e: Event, texts: seq<string>) {
    && 1 <= e.streamSeq < |texts|
    && texts[e.streamSeq] == (if e.mode.Snapshot? then e.chunk else texts[e.streamSeq - 1] + e.chunk)
  }

  /** A reader at position can consume the events in order: each is old, a snapshot, or the very next one. */
  ghost predicate Consumable(events: seq<Event>, position: nat, texts: seq<string>) {
    events == [] ||
    (var e := events[0];
     && Faithful(e, texts)
     && (e.streamSeq <= position || e.mode.Snapshot? || e.streamSeq == position + 1)
     && Consumable(events[1..], Max(position, e.streamSeq), texts))
  }

  /** Where a reader at position stands after consuming the events. */
  function FinalPosition(events: seq<Event>, position: nat): nat {
    if events == [] then position else FinalPosition(events[1..], Max(position, events[0].streamSeq))
  }

  ghost predicate EngineInv(s: Sys, pane: PaneId, maxHistory: nat) {
    && Windowed(s.watcher, pane, maxHistory)
    && |s.texts| == s.watcher.streamSeq + 1
    && s.texts[0] == "" && s.texts[s.watcher.streamSeq] == s.watcher.lastOutput
    && AllFaithful(s.watcher.history, s.texts)
  }

  ghost predicate AllFaithful(events: seq<Event>, texts: seq<string>) {
    forall i :: 0 <= i < |events| ==> Faithful(events[i], texts)
  }

  ghost predicate Agrees(s: Sys) {
    && Position(s.reader.cursor) < |s.texts|
    && s.reader.transcript == s.texts[Position(s.reader.cursor)]
  }

  ghost predicate ReaderInv(s: Sys) {
    && Agrees(s)
    && Consumable(s.inbox, Position(s.reader.cursor), s.texts)
    && (Live(s) ==> FinalPosition(s.inbox, Position(s.reader.cursor)) == s.watcher.streamSeq)
  }

  // ---- Lemmas on queues ----

  lemma {:induction false} ConsumableGrows(events: seq<Event>, position: nat, texts: seq<string>, text: string)
    requires Consumable(events, position, texts)
    ensures Consumable(events, position, texts + [text])
  {
    if events != [] {
      ConsumableGrows(events[1..], Max(position, events[0].streamSeq), texts, text);
    }
  }

  lemma {:induction false} ConsumableAppend(a: seq<Event>, b: seq<Event>, position: nat, texts: seq<string>)
    requires Consumable(a, position, texts) && Consumable(b, FinalPosition(a, position), texts)
    ensures Consumable(a + b, position, texts)
    ensures FinalPosition(a + b, position) == FinalPosition(b, FinalPosition(a, position))
  {
    if a == [] {
      assert a + b == b;
    } else {
      assert (a + b)[1..] == a[1..] + b;
      ConsumableAppend(a[1..], b, Max(position, a[0].streamSeq), texts);
    }
  }

  lemma {:induction false} FinalPositionBound(events: seq<Event>, position: nat, texts: seq<string>)
    requires Consumable(events, position, texts) && position < |texts|
    ensures position <= FinalPosition(events, position) < |texts|
  {
    if events != [] {
      FinalPositionBound(events[1..], Max(position, events[0].streamSeq), texts);
    }
  }

  /** Faithful consecutive events that start no later than the position can be consumed. */
  lemma {:induction false} ReplayConsumable(events: seq<Event>, position: nat, texts: seq<string>)
    requires Consecutive(events) && AllFaithful(events, texts)
    requires events != [] ==> events[0].streamSeq <= position + 1
    ensures Consumable(events, position, texts)
    ensures FinalPosition(events, position) ==
            if events == [] then position else Max(position, events[|events| - 1].streamSeq)
  {
    if events != [] {
      var rest := events[1..];
      assert forall i :: 0 <= i < |rest| ==> rest[i] == events[i + 1];
      assert AllFaithful(rest, texts);
      ReplayConsumable(rest, Max(position, events[0].streamSeq), texts);
    }
  }

  // ---- Preservation ----

  /** The reply to an attach brings any reader, at or past the cursor it sent, to the head of the stream. */
  lemma ReplyCatchesUp(s: Sys, since: Option<int>, position: nat, pane: PaneId, maxHistory: nat)
    requires EngineInv(s, pane, maxHistory) && s.watcher.streamSeq > 0
    requires position <= s.watcher.streamSeq && (since.Some? ==> since.value <= position)
    ensures var events := AttachReply(s.watcher, pane, since).0;
            Consumable(events, position, s.texts) && FinalPosition(events, position) == s.watcher.streamSeq
  {
    var events := AttachReply(s.watcher, pane, since).0;
    if since.Some? {
      ReplayDecision(s.watcher, pane, since.value, maxHistory);
    }
    if events == [CurrentSnapshot(s.watcher, pane)] {
      assert events[1..] == [];
    } else {
      assert AllFaithful(events, s.texts);
      ReplayConsumable(events, position, s.texts);
    }
  }

  lemma FaithfulGrows(events: seq<Event>, texts: seq<string>, text: string)
    requires AllFaithful(events, texts)
    ensures AllFaithful(events, texts + [text])
  {
    forall i | 0 <= i < |events|
      ensures Faithful(events[i], texts + [text])
    {
      assert Faithful(events[i], texts);
    }
  }

  lemma FaithfulStore(w: Watcher, e: Event, texts: seq<string>, maxHistory: nat)
    requires AllFaithful(w.history, texts) && Faithful(e, texts)
    ensures AllFaithful(Store(w, e, maxHistory).history, texts)
  {
    assert AllFaithful(w.history + [e], texts);
  }

  lemma EngineStore(s: Sys, mode: Mode, chunk: string, pane: PaneId, maxHistory: nat)
    requires EngineInv(s, pane, maxHistory)
    ensures var text := Render(s.watcher.lastOutput, mode, chunk);
            var e := NextEvent(s.watcher, pane, mode, chunk);
            && EngineInv(s.(watcher := Store(s.watcher.(lastOutput := text), e, maxHistory), texts := s.texts + [text]),
                         pane, maxHistory)
            && Faithful(e, s.texts + [text])
  {
    var text := Render(s.watcher.lastOutput, mode, chunk);
    var e := NextEvent(s.watcher, pane, mode, chunk);
    var w := s.watcher.(lastOutput := text);
    StoreKeepsWindow(w, pane, mode, chunk, maxHistory);
    FaithfulGrows(w.history, s.texts, text);
    FaithfulStore(w, e, s.texts + [text], maxHistory);
  }

  lemma EngineStep(s: Sys, step: Step, pane: PaneId, maxHistory: nat)
    requires EngineInv(s, pane, maxHistory)
    ensures EngineInv(Next(s, step, pane, maxHistory), pane, maxHistory)
  {
    match step
    case FirstCapture(c, Some(text)) =>
      EngineStore(s, Snapshot, text, pane, maxHistory);
    case Poll(Some(text)) =>
      var d := ComputeDelta(s.watcher.lastOutput, text);
      if d.Some? {
        EngineStore(s, d.value.0, d.value.1, pane, maxHistory);
      }
    case _ =>
  }

  lemma AttachStep(s: Sys, c: ClientId, since: Option<int>, pane: PaneId, maxHistory: nat)
    requires EngineInv(s, pane, maxHistory) && ReaderInv(s) && Allowed(s, ReaderAttach(c, since))
    ensures ReaderInv(Next(s, ReaderAttach(c, since), pane, maxHistory))
  {
    var position := Position(s.reader.cursor);
    var kept := if s.conn == Some(c) then s.inbox else [];
    FinalPositionBound(kept, position, s.texts);
    if s.watcher.streamSeq > 0 {
      var u := Subscribed(s, c);
      ReplyCatchesUp(u, since, FinalPosition(kept, position), pane, maxHistory);
      ConsumableAppend(kept, AttachReply(u.watcher, pane, since).0, position, s.texts);
    }
  }

  /** An event is published; it reaches the reader's inbox, or the reader is not live. */
  lemma PublishStep(s: Sys, t: Sys, e: Event, text: string)
    requires ReaderInv(s)
    requires t.texts == s.texts + [text] && t.watcher.streamSeq == e.streamSeq == |s.texts| == s.watcher.streamSeq + 1
    requires t.watcher.subscribers == s.watcher.subscribers && t.conn == s.conn && t.reader == s.reader
    requires Faithful(e, t.texts)
    requires (t.inbox == s.inbox + [e] && (e.mode.Snapshot? || Live(s))) || (t.inbox == s.inbox && !Live(s))
    ensures ReaderInv(t)
  {
    var position := Position(s.reader.cursor);
    ConsumableGrows(s.inbox, position, s.texts, text);
    FinalPositionBound(s.inbox, position, s.texts);
    if t.inbox == s.inbox + [e] {
      assert [e][1..] == [];
      ConsumableAppend(s.inbox, [e], position, t.texts);
    }
  }

  lemma ReaderStep(s: Sys, step: Step, pane: PaneId, maxHistory: nat)
    requires EngineInv(s, pane, maxHistory) && ReaderInv(s) && Allowed(s, step)
    ensures ReaderInv(Next(s, step, pane, maxHistory))
  {
    var t := Next(s, step, pane, maxHistory);
    match step
    case ReaderAttach(c, since) => AttachStep(s, c, since, pane, maxHistory);
    case FirstCapture(c, Some(text)) =>
      if c in s.awaiting {
        var e := NextEvent(s.watcher, pane, Snapshot, text);
        EngineStore(s, Snapshot, text, pane, maxHistory);
        PublishStep(s, t, e, text);
      }
    case Poll(Some(text)) =>
      var d := ComputeDelta(s.watcher.lastOutput, text);
      if d.Some? {
        var e := NextEvent(s.watcher, pane, d.value.0, d.value.1);
        EngineStore(s, d.value.0, d.value.1, pane, maxHistory);
        PublishStep(s, t, e, text);
      }
    case _ =>
  }

  lemma {:induction false} RunKeepsInvariant(s: Sys, steps: seq<Step>, pane: PaneId, maxHistory: nat)
    requires EngineInv(s, pane, maxHistory) && ReaderInv(s) && AllowedRun(s, steps, pane, maxHistory)
    ensures var t := Run(s, steps, pane, maxHistory); EngineInv(t, pane, maxHistory) && ReaderInv(t)
    decreases |steps|
  {
    if steps != [] {
      EngineStep(s, steps[0], pane, maxHistory);
      ReaderStep(s, steps[0], pane, maxHistory);
      RunKeepsInvariant(Next(s, steps[0], pane, maxHistory), steps[1..], pane, maxHistory);
    }
  }

  lemma {:induction false} ConsumeInbox(r: Reader, events: seq<Event>, texts: seq<string>)
    requires Consumable(events, Position(r.cursor), texts) && Position(r.cursor) < |texts|
    requires r.transcript == texts[Position(r.cursor)]
    ensures var t := ConsumeAll(r, events);
            && Position(t.cursor) == FinalPosition(events, Position(r.cursor)) < |texts|
            && t.transcript == texts[Position(t.cursor)]
    decreases |events|
  {
    if events != [] {
      ConsumeInbox(Consume(r, events[0]), events[1..], texts);
    }
  }
}

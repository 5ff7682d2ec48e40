/**
 * The protocol without two of its conditions: a first capture may finish while the
 * reader is live on another connection, and an event of an earlier watcher of the pane
 * may reach the reader. Exactly which of these steps a reader does not survive.
 */
module Disturbances {
  import opened Common
  import opened Watchers
  import opened Replication

  /** A stray is an event of an earlier watcher, sent on the reader's connection. */
  datatype AnyStep = Protocol(step: Step) | Stray(event: Event)

  function After(s: Sys, step: AnyStep, pane: PaneId, maxHistory: nat): Sys {
    match step
    case Protocol(p) => Next(s, p, pane, maxHistory)
    case Stray(e) => s.(inbox := s.inbox + [e])
  }

  predicate Permitted(s: Sys, step: AnyStep) {
    match step
    case Protocol(FirstCapture(_, _)) => true
    case Protocol(p) => Allowed(s, p)
    case Stray(e) => e.streamSeq > 0
  }

  /** The reader once it has received everything in flight. */
  function Drained(s: Sys): Reader {
    ConsumeAll(s.reader, s.inbox)
  }

  ghost predicate AgreesAt(r: Reader, texts: seq<string>) {
    Position(r.cursor) < |texts| && r.transcript == texts[Position(r.cursor)]
  }

  /** The drained reader shows the text of the event at its cursor, and the engine's text if it is live. */
  ghost predicate Sound(s: Sys) {
    AgreesAt(Drained(s), s.texts) && Shows(s)
  }

  predicate Shows(s: Sys) {
    Live(s) ==> Drained(s).transcript == s.watcher.lastOutput
  }

  predicate AtHead(s: Sys) {
    Live(s) ==> Position(Drained(s).cursor) == s.watcher.streamSeq
  }

  // ---- What goes wrong ----

  /** A first capture returns text while the reader is live on another connection, so the reader is not sent it. */
  predicate Misses(s: Sys, step: AnyStep) {
    match step
    case Protocol(FirstCapture(c, Some(_))) => c in s.awaiting && Live(s) && s.conn != Some(c)
    case _ => false
  }

  predicate MissesChange(s: Sys, step: AnyStep) {
    Misses(s, step) && step.step.output != Some(s.watcher.lastOutput)
  }

  /** The event is ahead of the reader, and not the text that the event of that number brought. */
  predicate MisleadsBy(r: Reader, texts: seq<string>, e: Event) {
    && e.streamSeq > Position(r.cursor)
    && (e.streamSeq >= |texts| || Render(r.transcript, e.mode, e.chunk) != texts[e.streamSeq])
  }

  predicate Misleads(s: Sys, step: AnyStep) {
    step.Stray? && MisleadsBy(Drained(s), s.texts, step.event)
  }

  // ---- The invariant ----

  /** However much of what is in flight a reader receives, it shows the text at its cursor. */
  ghost predicate Readable(r: Reader, inbox: seq<Event>, texts: seq<string>)
    decreases |inbox|
  {
    AgreesAt(r, texts) && (inbox == [] || Readable(Consume(r, inbox[0]), inbox[1..], texts))
  }

  /** The text has not changed since the event at the cursor of a live reader. */
  ghost predicate UpToDate(s: Sys) {
    Live(s) ==> forall i :: Position(Drained(s).cursor) <= i < |s.texts| ==> s.texts[i] == s.watcher.lastOutput
  }

  ghost predicate Following(s: Sys, pane: PaneId, maxHistory: nat) {
    EngineInv(s, pane, maxHistory) && Readable(s.reader, s.inbox, s.texts) && UpToDate(s)
  }

  lemma {:induction false} ReadableDrained(r: Reader, inbox: seq<Event>, texts: seq<string>)
    requires Readable(r, inbox, texts)
    ensures AgreesAt(ConsumeAll(r, inbox), texts)
    ensures Position(r.cursor) <= Position(ConsumeAll(r, inbox).cursor)
    decreases |inbox|
  {
    if inbox != [] {
      ReadableDrained(Consume(r, inbox[0]), inbox[1..], texts);
    }
  }

  lemma {:induction false} FollowingIsSound(s: Sys, pane: PaneId, maxHistory: nat)
    requires Following(s, pane, maxHistory)
    ensures Sound(s)
  {
    ReadableDrained(s.reader, s.inbox, s.texts);
  }

  lemma {:induction false} ReadableGrows(r: Reader, inbox: seq<Event>, texts: seq<string>, text: string)
    requires Readable(r, inbox, texts)
    ensures Readable(r, inbox, texts + [text])
    decreases |inbox|
  {
    if inbox != [] {
      ReadableGrows(Consume(r, inbox[0]), inbox[1..], texts, text);
    }
  }

  lemma {:induction false} ReadableAppend(r: Reader, a: seq<Event>, b: seq<Event>, texts: seq<string>)
    requires Readable(r, a, texts)
    ensures Readable(r, a + b, texts) <==> Readable(ConsumeAll(r, a), b, texts)
    ensures ConsumeAll(r, a + b) == ConsumeAll(ConsumeAll(r, a), b)
    decreases |a|
  {
    if a == [] {
      assert a + b == b;
    } else {
      assert (a + b)[1..] == a[1..] + b;
      ReadableAppend(Consume(r, a[0]), a[1..], b, texts);
    }
  }

  lemma {:induction false} ReadableOne(r: Reader, e: Event, texts: seq<string>)
    requires AgreesAt(r, texts)
    ensures Readable(r, [e], texts) <==> AgreesAt(Consume(r, e), texts)
    ensures ConsumeAll(r, [e]) == Consume(r, e)
  {
    assert [e][1..] == [];
  }

  lemma {:induction false} ConsumableReadable(r: Reader, events: seq<Event>, texts: seq<string>)
    requires AgreesAt(r, texts) && Consumable(events, Position(r.cursor), texts)
    ensures Readable(r, events, texts)
    decreases |events|
  {
    if events != [] {
      ConsumableReadable(Consume(r, events[0]), events[1..], texts);
    }
  }

  // ---- One step ----

  /** The reply to an attach brings the reader to the head, whatever was in flight on the same connection. */
  lemma {:induction false} ReplyFollowed(s: Sys, kept: seq<Event>, since: Option<int>, pane: PaneId, maxHistory: nat)
    requires EngineInv(s, pane, maxHistory) && s.watcher.streamSeq > 0 && Readable(s.reader, kept, s.texts)
    requires since.Some? ==> since.value <= Position(s.reader.cursor)
    ensures var inbox := kept + AttachReply(s.watcher, pane, since).0;
            && Readable(s.reader, inbox, s.texts)
            && Position(ConsumeAll(s.reader, inbox).cursor) == s.watcher.streamSeq
  {
    var r, reply := ConsumeAll(s.reader, kept), AttachReply(s.watcher, pane, since).0;
    ReadableDrained(s.reader, kept, s.texts);
    ReplyCatchesUp(s, since, Position(r.cursor), pane, maxHistory);
    ConsumableReadable(r, reply, s.texts);
    ConsumeInbox(r, reply, s.texts);
    ReadableAppend(s.reader, kept, reply, s.texts);
  }

  lemma {:induction false} AttachFollowed(s: Sys, c: ClientId, since: Option<int>, pane: PaneId, maxHistory: nat)
    requires Following(s, pane, maxHistory) && Allowed(s, ReaderAttach(c, since))
    ensures Following(Next(s, ReaderAttach(c, since), pane, maxHistory), pane, maxHistory)
    ensures AtHead(Next(s, ReaderAttach(c, since), pane, maxHistory))
  {
    var kept := if s.conn == Some(c) then s.inbox else [];
    if s.watcher.streamSeq > 0 {
      ReplyFollowed(Subscribed(s, c), kept, since, pane, maxHistory);
    } else {
      ReadableDrained(s.reader, kept, s.texts);
    }
  }

  /** An event is published, with the text it stands for, and sent to the reader. */
  lemma {:induction false} SentFollowed(s: Sys, t: Sys, mode: Mode, chunk: string, pane: PaneId, maxHistory: nat)
    requires Following(s, pane, maxHistory) && (mode.Snapshot? || Live(s)) && EngineInv(t, pane, maxHistory)
    requires t.texts == s.texts + [Render(s.watcher.lastOutput, mode, chunk)] && t.reader == s.reader
    requires t.inbox == s.inbox + [NextEvent(s.watcher, pane, mode, chunk)]
    ensures Following(t, pane, maxHistory) && AtHead(t)
  {
    var e := NextEvent(s.watcher, pane, mode, chunk);
    ReadableGrows(s.reader, s.inbox, s.texts, Render(s.watcher.lastOutput, mode, chunk));
    ReadableDrained(s.reader, s.inbox, s.texts);
    ReadableAppend(s.reader, s.inbox, [e], t.texts);
    ReadableOne(Drained(s), e, t.texts);
  }

  /** An event is published and not sent to the reader. */
  lemma {:induction false} UnsentFollowed(s: Sys, t: Sys, text: string, pane: PaneId, maxHistory: nat)
    requires Following(s, pane, maxHistory) && EngineInv(t, pane, maxHistory)
    requires t.texts == s.texts + [text] && t.reader == s.reader && t.inbox == s.inbox && Live(t) == Live(s)
    ensures Following(t, pane, maxHistory) <==> !Live(s) || text == s.watcher.lastOutput
    ensures Shows(t) <==> !Live(s) || text == s.watcher.lastOutput
    ensures Live(s) ==> !AtHead(t)
  {
    ReadableGrows(s.reader, s.inbox, s.texts, text);
    ReadableDrained(s.reader, s.inbox, s.texts);
    assert t.texts[|s.texts|] == t.watcher.lastOutput == text;
    assert t.texts[|s.texts| - 1] == s.watcher.lastOutput;
  }

  lemma {:induction false} CaptureFollowed(s: Sys, c: ClientId, text: string, pane: PaneId, maxHistory: nat)
    requires Following(s, pane, maxHistory) && c in s.awaiting
    ensures var step := Protocol(FirstCapture(c, Some(text))); var t := After(s, step, pane, maxHistory);
            && (Following(t, pane, maxHistory) <==> !MissesChange(s, step))
            && (Shows(t) <==> !MissesChange(s, step))
            && (Misses(s, step) ==> !AtHead(t)) && (!Misses(s, step) && AtHead(s) ==> AtHead(t))
  {
    var t := Next(s, FirstCapture(c, Some(text)), pane, maxHistory);
    EngineStep(s, FirstCapture(c, Some(text)), pane, maxHistory);
    if s.conn == Some(c) {
      SentFollowed(s, t, Snapshot, text, pane, maxHistory);
      FollowingIsSound(t, pane, maxHistory);
    } else {
      UnsentFollowed(s, t, text, pane, maxHistory);
    }
  }

  lemma {:induction false} PollFollowed(s: Sys, text: string, pane: PaneId, maxHistory: nat)
    requires Following(s, pane, maxHistory)
    ensures var t := Next(s, Poll(Some(text)), pane, maxHistory);
            Following(t, pane, maxHistory) && (AtHead(s) ==> AtHead(t))
  {
    var t := Next(s, Poll(Some(text)), pane, maxHistory);
    var d := ComputeDelta(s.watcher.lastOutput, text);
    EngineStep(s, Poll(Some(text)), pane, maxHistory);
    if d.Some? {
      if Live(s) {
        SentFollowed(s, t, d.value.0, d.value.1, pane, maxHistory);
      } else {
        UnsentFollowed(s, t, text, pane, maxHistory);
      }
    }
  }

  lemma {:induction false} StrayFollowed(s: Sys, e: Event, pane: PaneId, maxHistory: nat)
    requires Following(s, pane, maxHistory) && e.streamSeq > 0
    ensures var t := After(s, Stray(e), pane, maxHistory);
            && (Following(t, pane, maxHistory) <==> !Misleads(s, Stray(e)))
            && (Sound(t) ==> !Misleads(s, Stray(e)))
            && (!Misleads(s, Stray(e)) && AtHead(s) ==> AtHead(t))
  {
    ReadableDrained(s.reader, s.inbox, s.texts);
    ReadableAppend(s.reader, s.inbox, [e], s.texts);
    ReadableOne(Drained(s), e, s.texts);
  }

  /**
   * The step lemma. A reader that follows the stream still does after a step if and only
   * if the step neither hides a change of the text from it nor misleads it, and these are
   * the steps that leave it unsound. Other steps do not take it away from the head,
   * except for a first capture it is not sent.
   */
  lemma {:induction false} StepFollowed(s: Sys, step: AnyStep, pane: PaneId, maxHistory: nat)
    requires Following(s, pane, maxHistory) && Permitted(s, step)
    ensures var t := After(s, step, pane, maxHistory);
            && (Following(t, pane, maxHistory) <==> !MissesChange(s, step) && !Misleads(s, step))
            && (Sound(t) <==> !MissesChange(s, step) && !Misleads(s, step))
            && (!Misleads(s, step) ==> (Shows(t) <==> !MissesChange(s, step)))
            && (!Misleads(s, step) && AtHead(s) ==> (AtHead(t) <==> !Misses(s, step)))
  {
    var t := After(s, step, pane, maxHistory);
    match step {
      case Stray(e) => StrayFollowed(s, e, pane, maxHistory);
      case Protocol(ReaderAttach(c, since)) => AttachFollowed(s, c, since, pane, maxHistory);
      case Protocol(FirstCapture(c, Some(text))) =>
        if c in s.awaiting {
          CaptureFollowed(s, c, text, pane, maxHistory);
        }
      case Protocol(Poll(Some(text))) => PollFollowed(s, text, pane, maxHistory);
      case Protocol(p) => EngineStep(s, p, pane, maxHistory);
    }
    if !MissesChange(s, step) && !Misleads(s, step) {
      FollowingIsSound(t, pane, maxHistory);
    }
  }

  /** A live reader at the head is misled exactly by events numbered above the stream. */
  lemma {:induction false} HeadMisled(s: Sys, e: Event, pane: PaneId, maxHistory: nat)
    requires Following(s, pane, maxHistory) && Live(s) && AtHead(s)
    ensures Misleads(s, Stray(e)) <==> e.streamSeq > s.watcher.streamSeq
  {
  }
}

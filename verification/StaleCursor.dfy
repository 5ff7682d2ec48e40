/**
 * A reader that resumes with a cursor its transcript does not belong to, because it
 * kept the cursor past the end of a watcher's lifetime: exactly when it comes to
 * show the right text again.
 */
module StaleCursor {
  import opened Common
  import opened Watchers
  import opened Replication

  /** Whether a reader at the cursor renders a snapshot while it consumes the events. */
  function RendersSnapshot(cursor: Option<nat>, events: seq<Event>): bool
    decreases |events|
  {
    events != []
    && ((ShouldEmit(events[0].streamSeq, cursor) && events[0].mode.Snapshot?)
        || RendersSnapshot(Consume(Reader(cursor, ""), events[0]).cursor, events[1..]))
  }

  lemma SuffixCancels(a: string, b: string, c: string)
    ensures a + c == b + c <==> a == b
  {
    if a + c == b + c {
      assert a == (a + c)[..|a|] && b == (b + c)[..|b|];
    }
  }

  /**
   * Two readers at one cursor stay at one cursor; what they show is the same from the first
   * snapshot on, or if it was.
   */
  lemma {:induction false} Twins(r: Reader, q: Reader, events: seq<Event>)
    requires r.cursor == q.cursor
    ensures ConsumeAll(r, events).cursor == ConsumeAll(q, events).cursor
    ensures ConsumeAll(r, events).transcript == ConsumeAll(q, events).transcript
            <==> r.transcript == q.transcript || RendersSnapshot(r.cursor, events)
    decreases |events|
  {
    if events != [] {
      SuffixCancels(r.transcript, q.transcript, events[0].chunk);
      Twins(Consume(r, events[0]), Consume(q, events[0]), events[1..]);
    }
  }

  lemma {:induction false} AllNew(cursor: Option<nat>, events: seq<Event>)
    requires Consecutive(events) && (events != [] ==> events[0].streamSeq > Position(cursor) && events[0].streamSeq > 0)
    ensures RendersSnapshot(cursor, events) <==> exists e :: e in events && e.mode.Snapshot?
    decreases |events|
  {
    if events != [] {
      var rest := events[1..];
      assert forall i :: 0 <= i < |rest| ==> rest[i] == events[i + 1];
      AllNew(Some(events[0].streamSeq), rest);
      assert forall e :: e in events <==> e == events[0] || e in rest;
    }
  }

  /**
   * The reply to a resume with any cursor k, and a reader that shows any text. At or
   * ahead of the stream nothing changes. Behind it the reader ends at the head, and shows
   * the pane's text if and only if the reply holds a snapshot or it showed the text of
   * event k.
   */
  lemma ResumeAgreesIff(s: Sys, r: Reader, k: nat, pane: PaneId, maxHistory: nat)
    requires EngineInv(s, pane, maxHistory) && s.watcher.streamSeq > 0 && r.cursor == Some(k)
    ensures var events := AttachReply(s.watcher, pane, Some(k)).0; var t := ConsumeAll(r, events);
            && (k >= s.watcher.streamSeq ==> t == r)
            && (k < s.watcher.streamSeq ==>
                  && t.cursor == Some(s.watcher.streamSeq)
                  && (t.transcript == s.watcher.lastOutput
                      <==> (exists e :: e in events && e.mode.Snapshot?) || r.transcript == s.texts[k]))
  {
    var events := AttachReply(s.watcher, pane, Some(k)).0;
    ReplayDecision(s.watcher, pane, k, maxHistory);
    if k >= s.watcher.streamSeq {
      assert events == [CurrentSnapshot(s.watcher, pane)] && events[1..] == [];
    } else {
      ReplyCatchesUp(s, Some(k), k, pane, maxHistory);
      ConsumeInbox(Reader(Some(k), s.texts[k]), events, s.texts);
      Twins(r, Reader(Some(k), s.texts[k]), events);
      AllNew(Some(k), events);
      CursorStays(r, events);
    }
  }

  lemma {:induction false} CursorStays(r: Reader, events: seq<Event>)
    ensures r.cursor.Some? ==> ConsumeAll(r, events).cursor.Some?
    decreases |events|
  {
    if events != [] {
      CursorStays(Consume(r, events[0]), events[1..]);
    }
  }

  // ---- While the stream has not passed the cursor ----

  /**
   * A cursor carried over to a new lifetime. Numbering restarts at 1, so while the
   * new stream has not passed the old cursor the reader ignores everything it is
   * sent and keeps showing the old text, whatever the pane shows now.
   */
  lemma {:induction false} StaleCursorFreezes(s: Sys, steps: seq<Step>, pane: PaneId, maxHistory: nat)
    requires EngineInv(s, pane, maxHistory) && InboxIssued(s) && s.reader.cursor.Some?
    requires Run(s, steps, pane, maxHistory).watcher.streamSeq <= s.reader.cursor.value
    ensures Run(s, steps, pane, maxHistory).reader == s.reader
    decreases |steps|
  {
    if steps != [] {
      var t := Next(s, steps[0], pane, maxHistory);
      EngineStep(s, steps[0], pane, maxHistory);
      InboxStaysIssued(s, steps[0], pane, maxHistory);
      SequenceNeverFalls(t, steps[1..], pane, maxHistory);
      StaleCursorFreezes(t, steps[1..], pane, maxHistory);
    }
  }

  ghost predicate Issued(events: seq<Event>, streamSeq: nat) {
    forall i :: 0 <= i < |events| ==> 1 <= events[i].streamSeq <= streamSeq
  }

  ghost predicate InboxIssued(s: Sys) {
    Issued(s.inbox, s.watcher.streamSeq)
  }

  lemma IssuedAppend(a: seq<Event>, b: seq<Event>, streamSeq: nat, later: nat)
    requires Issued(a, streamSeq) && Issued(b, later) && streamSeq <= later
    ensures Issued(a + b, later)
  {
  }

  lemma InboxStaysIssued(s: Sys, step: Step, pane: PaneId, maxHistory: nat)
    requires EngineInv(s, pane, maxHistory) && InboxIssued(s)
    ensures InboxIssued(Next(s, step, pane, maxHistory))
  {
    var n := s.watcher.streamSeq;
    match step
    case ReaderAttach(c, since) =>
      if n > 0 {
        var reply := AttachReply(Subscribed(s, c).watcher, pane, since).0;
        ReplyIssued(Subscribed(s, c).watcher, pane, since, maxHistory);
        IssuedAppend(if s.conn == Some(c) then s.inbox else [], reply, n, n);
      }
    case FirstCapture(_, Some(text)) => IssuedAppend(s.inbox, [NextEvent(s.watcher, pane, Snapshot, text)], n, n + 1);
    case Poll(Some(text)) =>
      var d := ComputeDelta(s.watcher.lastOutput, text);
      if d.Some? {
        IssuedAppend(s.inbox, [NextEvent(s.watcher, pane, d.value.0, d.value.1)], n, n + 1);
      }
    case _ =>
  }

  lemma ReplyIssued(w: Watcher, pane: PaneId, since: Option<int>, maxHistory: nat)
    requires Windowed(w, pane, maxHistory) && w.streamSeq > 0
    ensures Issued(AttachReply(w, pane, since).0, w.streamSeq)
  {
    match since
    case None => assert AttachReply(w, pane, since).0 == [CurrentSnapshot(w, pane)];
    case Some(lastSeq) => ReplayDecision(w, pane, lastSeq, maxHistory);
  }

  lemma {:induction false} SequenceNeverFalls(s: Sys, steps: seq<Step>, pane: PaneId, maxHistory: nat)
    ensures s.watcher.streamSeq <= Run(s, steps, pane, maxHistory).watcher.streamSeq
    decreases |steps|
  {
    if steps != [] {
      SequenceNeverFalls(Next(s, steps[0], pane, maxHistory), steps[1..], pane, maxHistory);
    }
  }

  // ---- Whole runs ----

  predicate ShowsSnapshot(s: Sys, step: Step) {
    step.Deliver? && s.inbox != [] && ShouldEmit(s.inbox[0].streamSeq, s.reader.cursor) && s.inbox[0].mode.Snapshot?
  }

  /** Whether the reader renders a snapshot during a run. */
  function Shown(s: Sys, steps: seq<Step>, pane: PaneId, maxHistory: nat): bool
    decreases |steps|
  {
    steps != []
    && (ShowsSnapshot(s, steps[0]) || Shown(Next(s, steps[0], pane, maxHistory), steps[1..], pane, maxHistory))
  }

  /** The same system with a reader at the same cursor that shows the right text. */
  ghost function Corrected(s: Sys): Sys
    requires s.reader.cursor.Some? && s.reader.cursor.value < |s.texts|
  {
    s.(reader := Reader(s.reader.cursor, s.texts[s.reader.cursor.value]))
  }

  /** What a run keeps of a reader that started at cursor k with some text. */
  ghost predicate Carries(s: Sys, k: nat, text: string, shown: bool, pane: PaneId, maxHistory: nat) {
    && EngineInv(s, pane, maxHistory) && s.reader.cursor.Some?
    && if s.reader.cursor.value >= |s.texts| then
         s.reader == Reader(Some(k), text) && !shown && AllFaithful(s.inbox, s.texts)
       else
         && k <= s.reader.cursor.value && ReaderInv(Corrected(s))
         && (s.reader.transcript == Corrected(s).reader.transcript <==> shown || text == s.texts[k])
  }

  lemma ReplyFaithful(s: Sys, since: Option<int>, pane: PaneId, maxHistory: nat)
    requires EngineInv(s, pane, maxHistory) && s.watcher.streamSeq > 0
    ensures AllFaithful(AttachReply(s.watcher, pane, since).0, s.texts)
  {
    if since.Some? {
      ReplayDecision(s.watcher, pane, since.value, maxHistory);
    }
  }

  lemma FaithfulAppend(a: seq<Event>, b: seq<Event>, texts: seq<string>)
    requires AllFaithful(a, texts) && AllFaithful(b, texts)
    ensures AllFaithful(a + b, texts)
  {
  }

  lemma PublishFaithful(s: Sys, mode: Mode, chunk: string, pane: PaneId, maxHistory: nat)
    requires EngineInv(s, pane, maxHistory) && AllFaithful(s.inbox, s.texts)
    ensures var texts := s.texts + [Render(s.watcher.lastOutput, mode, chunk)];
            AllFaithful(s.inbox, texts) && AllFaithful(s.inbox + [NextEvent(s.watcher, pane, mode, chunk)], texts)
  {
    var text := Render(s.watcher.lastOutput, mode, chunk);
    EngineStore(s, mode, chunk, pane, maxHistory);
    FaithfulGrows(s.inbox, s.texts, text);
    FaithfulAppend(s.inbox, [NextEvent(s.watcher, pane, mode, chunk)], s.texts + [text]);
  }

  lemma InboxFaithful(s: Sys, step: Step, pane: PaneId, maxHistory: nat)
    requires EngineInv(s, pane, maxHistory) && AllFaithful(s.inbox, s.texts)
    ensures AllFaithful(Next(s, step, pane, maxHistory).inbox, Next(s, step, pane, maxHistory).texts)
  {
    match step
    case ReaderAttach(c, since) =>
      if s.watcher.streamSeq > 0 {
        var kept := if s.conn == Some(c) then s.inbox else [];
        ReplyFaithful(Subscribed(s, c), since, pane, maxHistory);
        FaithfulAppend(kept, AttachReply(Subscribed(s, c).watcher, pane, since).0, s.texts);
      }
    case FirstCapture(c, Some(text)) => PublishFaithful(s, Snapshot, text, pane, maxHistory);
    case Poll(Some(text)) =>
      var d := ComputeDelta(s.watcher.lastOutput, text);
      if d.Some? {
        PublishFaithful(s, d.value.0, d.value.1, pane, maxHistory);
      }
    case _ =>
  }

  /** Events no newer than the position are consumed without effect. */
  lemma {:induction false} OldConsumable(events: seq<Event>, position: nat, texts: seq<string>)
    requires AllFaithful(events, texts) && |texts| <= position + 1
    ensures Consumable(events, position, texts) && FinalPosition(events, position) == position
  {
    if events != [] {
      assert Faithful(events[0], texts);
      assert AllFaithful(events[1..], texts);
      OldConsumable(events[1..], position, texts);
    }
  }

  lemma AheadStep(s: Sys, step: Step, k: nat, text: string, pane: PaneId, maxHistory: nat)
    requires Carries(s, k, text, false, pane, maxHistory) && k >= |s.texts|
    requires s.reader == Reader(Some(k), text)
    ensures Carries(Next(s, step, pane, maxHistory), k, text, false, pane, maxHistory) && !ShowsSnapshot(s, step)
  {
    var t := Next(s, step, pane, maxHistory);
    EngineStep(s, step, pane, maxHistory);
    InboxFaithful(s, step, pane, maxHistory);
    if s.inbox != [] {
      assert Faithful(s.inbox[0], s.texts);
    }
    assert t.reader == s.reader;
    if k < |t.texts| {
      OldConsumable(t.inbox, k, t.texts);
    }
  }

  lemma BehindStep(s: Sys, step: Step, k: nat, text: string, shown: bool, pane: PaneId, maxHistory: nat)
    requires Carries(s, k, text, shown, pane, maxHistory) && Allowed(s, step)
    requires s.reader.cursor.Some? && s.reader.cursor.value < |s.texts|
    ensures Carries(Next(s, step, pane, maxHistory), k, text, shown || ShowsSnapshot(s, step), pane, maxHistory)
  {
    var t, u := Next(s, step, pane, maxHistory), Next(Corrected(s), step, pane, maxHistory);
    EngineStep(s, step, pane, maxHistory);
    ReaderStep(Corrected(s), step, pane, maxHistory);
    if step.Deliver? && s.inbox != [] {
      Twins(s.reader, Corrected(s).reader, [s.inbox[0]]);
      OneEvent(s.reader, s.inbox[0]);
      OneEvent(Corrected(s).reader, s.inbox[0]);
    }
    assert u == t.(reader := u.reader) && u.reader.cursor == t.reader.cursor;
    assert u == Corrected(t);
  }

  lemma OneEvent(r: Reader, e: Event)
    ensures ConsumeAll(r, [e]) == Consume(r, e)
    ensures RendersSnapshot(r.cursor, [e]) <==> ShouldEmit(e.streamSeq, r.cursor) && e.mode.Snapshot?
  {
    assert [e][1..] == [];
  }

  lemma {:induction false} RunCarries(s: Sys, steps: seq<Step>, k: nat, text: string, shown: bool, pane: PaneId,
                                      maxHistory: nat)
    requires Carries(s, k, text, shown, pane, maxHistory) && AllowedRun(s, steps, pane, maxHistory)
    ensures Carries(Run(s, steps, pane, maxHistory), k, text, shown
                    || Shown(s, steps, pane, maxHistory), pane, maxHistory)
    decreases |steps|
  {
    if steps != [] {
      if s.reader.cursor.value >= |s.texts| {
        AheadStep(s, steps[0], k, text, pane, maxHistory);
      } else {
        BehindStep(s, steps[0], k, text, shown, pane, maxHistory);
      }
      RunCarries(Next(s, steps[0], pane, maxHistory), steps[1..], k, text, shown
                 || ShowsSnapshot(s, steps[0]), pane, maxHistory);
    }
  }

  /**
   * A reader comes to a stream, of this lifetime or another, with cursor k and any text.
   * Until the stream reaches k the reader stays as it is. From then on, however it
   * disconnects and resumes, it shows the text at its cursor if and only if it has
   * rendered a snapshot or the text it brought is the one of event k.
   */
  lemma CarriedCursorAgreesIff(s: Sys, steps: seq<Step>, k: nat, pane: PaneId, maxHistory: nat)
    requires EngineInv(s, pane, maxHistory) && !Live(s) && s.inbox == [] && s.reader.cursor == Some(k)
    requires AllowedRun(s, steps, pane, maxHistory)
    ensures var t := Run(s, steps, pane, maxHistory);
            && t.reader.cursor.Some?
            && (t.watcher.streamSeq < k ==> t.reader == s.reader)
            && (t.watcher.streamSeq >= k ==>
                  && t.reader.cursor.value <= t.watcher.streamSeq == |t.texts| - 1
                  && (t.reader.transcript == t.texts[t.reader.cursor.value]
                      <==> Shown(s, steps, pane, maxHistory) || s.reader.transcript == t.texts[k])
                  && (Live(t) && t.inbox == [] ==> t.reader.cursor.value == t.watcher.streamSeq))
  {
    RunCarries(s, steps, k, s.reader.transcript, false, pane, maxHistory);
  }
}

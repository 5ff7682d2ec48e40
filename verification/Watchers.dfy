/**
 * The state the engine keeps for one watched pane, as a value: the numbered
 * event stream, its bounded history, and what an attach replies with.
 */
module Watchers {
  import opened Common
  import opened Sequenced

  datatype Mode = Snapshot | Delta

  datatype Event = Event(mode: Mode, paneId: PaneId, chunk: string, streamSeq: nat)

  datatype Watcher = Watcher(subscribers: seq<ClientId>, lastOutput: string, streamSeq: nat, history: seq<Event>)

  datatype Metadata = Metadata(
    paneId: PaneId,
    requestedLastSeq: Option<int>,
    latestSeq: nat,
    oldestHistorySeq: Option<int>,
    latestHistorySeq: Option<int>,
    replayedCount: nat,
    replayUsed: bool,
    fallbackToSnapshot: bool,
    replayGapDetected: bool)

  const FRESH_WATCHER := Watcher([], "", 0, [])

  /** What a reader shows after one chunk: a snapshot replaces, a delta appends. */
  function Render(text: string, mode: Mode, chunk: string): string {
    match mode
    case Snapshot => chunk
    case Delta => text + chunk
  }

  function ComputeDelta(previous: string, current: string): (r: Option<(Mode, string)>)
    ensures r.None? <==> previous == current
    ensures r.Some? ==> Render(previous, r.value.0, r.value.1) == current
    ensures r.Some? ==> (r.value.0.Delta? <==> previous <= current)
    ensures r.Some? && r.value.0.Delta? ==> r.value.1 != ""
  {
    if current == previous then None
    else if previous <= current then
      var chunk := current[|previous|..];
      if chunk == "" then None else Some((Delta, chunk))
    else Some((Snapshot, current))
  }

  function Subscribe(subscribers: seq<ClientId>, client: ClientId): (r: seq<ClientId>)
    ensures forall c :: c in r <==> c in subscribers || c == client
    ensures NoDuplicates(subscribers) ==> NoDuplicates(r)
  {
    if client in subscribers then subscribers else subscribers + [client]
  }

  function Unsubscribe(subscribers: seq<ClientId>, client: ClientId): (r: seq<ClientId>)
    ensures forall c :: c in r <==> c in subscribers && c != client
    ensures NoDuplicates(subscribers) ==> NoDuplicates(r)
  {
    if subscribers == [] then []
    else if subscribers[0] == client then Unsubscribe(subscribers[1..], client)
    else
      assert NoDuplicates(subscribers) ==> NoDuplicates(subscribers[1..]) && subscribers[0] !in subscribers[1..];
      [subscribers[0]] + Unsubscribe(subscribers[1..], client)
  }

  ghost predicate NoDuplicates(s: seq<ClientId>) {
    forall i, j :: 0 <= i < j < |s| ==> s[i] != s[j]
  }

  function NextEvent(w: Watcher, pane: PaneId, mode: Mode, chunk: string): Event {
    Event(mode, pane, chunk, w.streamSeq + 1)
  }

  /**
   * The watcher after an event was numbered and stored; the oldest one is dropped when the history
   * is over its bound.
   */
  function Store(w: Watcher, e: Event, maxHistory: nat): Watcher {
    var history := w.history + [e];
    w.(streamSeq := w.streamSeq + 1, history := if |history| > maxHistory then history[1..] else history)
  }

  /** One capture of an already watched pane: the new watcher and the event to broadcast, if the text changed. */
  function Polled(w: Watcher, pane: PaneId, output: string, maxHistory: nat): (Watcher, Option<Event>) {
    match ComputeDelta(w.lastOutput, output)
    case None => (w, None)
    case Some(d) =>
      var e := NextEvent(w, pane, d.0, d.1);
      (Store(w.(lastOutput := output), e, maxHistory), Some(e))
  }

  /** The first capture of an attach is always published as a snapshot. */
  function Captured(w: Watcher, pane: PaneId, output: string, maxHistory: nat): (Watcher, Event) {
    var e := NextEvent(w, pane, Snapshot, output);
    (Store(w.(lastOutput := output), e, maxHistory), e)
  }

  // The sorted copy of the history that an attach works on.

  function SeqOf(e: Event): int {
    e.streamSeq
  }

  function SortBySeq(events: seq<Event>): seq<Event> {
    SortBy(events, SeqOf)
  }

  function OldestSeq(sorted: seq<Event>): Option<int> {
    if sorted == [] then None else Some(sorted[0].streamSeq)
  }

  function LatestSeq(sorted: seq<Event>): Option<int> {
    if sorted == [] then None else Some(sorted[|sorted| - 1].streamSeq)
  }

  function CurrentSnapshot(w: Watcher, pane: PaneId): Event {
    Event(Snapshot, pane, w.lastOutput, w.streamSeq)
  }

  /** What an attach to a watcher that already published something sends, and the metadata it returns. */
  function AttachReply(w: Watcher, pane: PaneId, since: Option<int>): (seq<Event>, Metadata) {
    var sorted := SortBySeq(w.history);
    var oldest, latest := OldestSeq(sorted), LatestSeq(sorted);
    match since
    case None =>
      ([CurrentSnapshot(w, pane)], Metadata(pane, None, w.streamSeq, oldest, latest, 0, false, false, false))
    case Some(lastSeq) =>
      var replayed := After(sorted, SeqOf, lastSeq);
      var gap :=
        if |replayed| > 0 then replayed[0].streamSeq != lastSeq + 1 else lastSeq < w.streamSeq;
      if |replayed| > 0 && !gap then
        (replayed, Metadata(pane, since, w.streamSeq, oldest, latest, |replayed|, true, false, false))
      else
        ([CurrentSnapshot(w, pane)], Metadata(pane, since, w.streamSeq, oldest, latest, 0, false, true, gap))
  }

  /** The label the server logs when a resume fell back to a snapshot. */
  datatype FallbackReason = AheadOfStream | OutsideRetainedWindow | EmptyResumeWindow

  function ClassifyFallback(meta: Metadata): FallbackReason {
    match meta.requestedLastSeq
    case None => EmptyResumeWindow
    case Some(lastSeq) =>
      if lastSeq > meta.latestSeq then AheadOfStream
      else if meta.replayGapDetected || (meta.oldestHistorySeq.Some? && lastSeq < meta.oldestHistorySeq.value - 1) then
        OutsideRetainedWindow
      else EmptyResumeWindow
  }

  // ---- The history window ----

  /**
   * The history is exactly the last min(streamSeq, maxHistory) events, numbered
   * consecutively and ending at streamSeq.
   */
  ghost predicate Windowed(w: Watcher, pane: PaneId, maxHistory: nat) {
    && |w.history| == Min(w.streamSeq, maxHistory)
    && forall i :: 0 <= i < |w.history| ==>
      w.history[i].streamSeq == w.streamSeq - |w.history| + 1 + i && w.history[i].paneId == pane
  }

  lemma StoreKeepsWindow(w: Watcher, pane: PaneId, mode: Mode, chunk: string, maxHistory: nat)
    requires Windowed(w, pane, maxHistory)
    ensures Windowed(Store(w, NextEvent(w, pane, mode, chunk), maxHistory), pane, maxHistory)
  {
  }

  ghost predicate Consecutive(events: seq<Event>) {
    forall i :: 0 <= i < |events| ==> events[i].streamSeq == events[0].streamSeq + i
  }

  /**
   * The replay decision. An attach with a cursor replays iff the cursor lies in
   * the retained window and behind the stream; it then sends exactly the events
   * lastSeq+1..streamSeq. Otherwise it sends exactly one snapshot of the current text.
   */
  lemma ReplayDecision(w: Watcher, pane: PaneId, lastSeq: int, maxHistory: nat)
    requires Windowed(w, pane, maxHistory) && w.streamSeq > 0
    ensures var (events, meta) := AttachReply(w, pane, Some(lastSeq));
            && (meta.replayUsed <==> w.streamSeq - Min(w.streamSeq, maxHistory) <= lastSeq < w.streamSeq)
            && (meta.replayUsed ==>
                  && events == w.history[|w.history| - (w.streamSeq - lastSeq)..]
                  && |events| == w.streamSeq - lastSeq == meta.replayedCount
                  && forall i :: 0 <= i < |events| ==>
                       events[i].streamSeq == lastSeq + 1 + i && events[i].paneId == pane)
            && (!meta.replayUsed ==>
                  events == [Event(Snapshot, pane, w.lastOutput, w.streamSeq)] && meta.replayedCount == 0)
  {
    SortIsIdentity(w.history, SeqOf);
    AfterIsSuffix(w.history, SeqOf, lastSeq);
  }

  /** Attach metadata and the audit label agree with where the cursor stood. */
  lemma FallbackLabel(w: Watcher, pane: PaneId, lastSeq: int, maxHistory: nat)
    requires Windowed(w, pane, maxHistory) && w.streamSeq > 0
    ensures var meta := AttachReply(w, pane, Some(lastSeq)).1;
            && meta.latestSeq == w.streamSeq && meta.requestedLastSeq == Some(lastSeq)
            && meta.fallbackToSnapshot == !meta.replayUsed
            && (meta.replayUsed ==> lastSeq + meta.replayedCount == meta.latestSeq)
            && (meta.fallbackToSnapshot ==>
                  ClassifyFallback(meta) ==
                  if lastSeq > w.streamSeq then AheadOfStream
                  else if lastSeq == w.streamSeq then EmptyResumeWindow
                  else OutsideRetainedWindow)
  {
    ReplayDecision(w, pane, lastSeq, maxHistory);
    SortIsIdentity(w.history, SeqOf);
    AfterIsSuffix(w.history, SeqOf, lastSeq);
  }

  /** The oldest and the newest number of a window of events. */
  ghost predicate DescribesWindow(meta: Metadata, w: Watcher, pane: PaneId, maxHistory: nat) {
    var kept := Min(w.streamSeq, maxHistory);
    && meta.paneId == pane && meta.latestSeq == w.streamSeq
    && meta.oldestHistorySeq == (if kept == 0 then None else Some(w.streamSeq - kept + 1))
    && meta.latestHistorySeq == (if kept == 0 then None else Some(w.streamSeq))
  }

  /** The metadata of an attach says where the window lies, and reports a gap iff the cursor lies before it. */
  lemma MetadataIsExact(w: Watcher, pane: PaneId, since: Option<int>, maxHistory: nat)
    requires Windowed(w, pane, maxHistory) && w.streamSeq > 0
    ensures var meta := AttachReply(w, pane, since).1;
            && DescribesWindow(meta, w, pane, maxHistory) && meta.requestedLastSeq == since
            && (meta.fallbackToSnapshot ==> since.Some?)
            && (meta.replayGapDetected <==> since.Some? && since.value < w.streamSeq - Min(w.streamSeq, maxHistory))
  {
    SortIsIdentity(w.history, SeqOf);
    if since.Some? {
      AfterIsSuffix(w.history, SeqOf, since.value);
    }
  }
}

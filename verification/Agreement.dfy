/**
 * The main results about one lifetime of a watcher: the reader's transcript is the
 * engine's text at the reader's cursor, and the history is the window of newest events.
 */
module Agreement {
  import opened Common
  import opened Sequenced
  import opened Watchers
  import opened Replication

  /**
   * End-to-end resume. After any run the transcript is the text at the cursor, and
   * a live reader that has received everything in flight is at the head of the
   * stream and shows exactly the engine's current text.
   */
  lemma ResumeAgreement(steps: seq<Step>, pane: PaneId, maxHistory: nat)
    requires AllowedRun(Init(), steps, pane, maxHistory)
    ensures var s := Run(Init(), steps, pane, maxHistory);
            && Position(s.reader.cursor) <= s.watcher.streamSeq == |s.texts| - 1
            && s.reader.transcript == s.texts[Position(s.reader.cursor)]
            && (Live(s) && s.inbox == [] ==>
                  Position(s.reader.cursor) == s.watcher.streamSeq && s.reader.transcript == s.watcher.lastOutput)
            && (Live(s) ==>
                  var r := ConsumeAll(s.reader, s.inbox);
                  Position(r.cursor) == s.watcher.streamSeq && r.transcript == s.watcher.lastOutput)
  {
    RunKeepsInvariant(Init(), steps, pane, maxHistory);
    var s := Run(Init(), steps, pane, maxHistory);
    ConsumeInbox(s.reader, s.inbox, s.texts);
  }

  /** In every reachable state, with no restriction on the run, the history is the window of the newest events. */
  lemma {:induction false} HistoryWindow(s: Sys, steps: seq<Step>, pane: PaneId, maxHistory: nat)
    requires EngineInv(s, pane, maxHistory)
    ensures EngineInv(Run(s, steps, pane, maxHistory), pane, maxHistory)
    decreases |steps|
  {
    if steps != [] {
      EngineStep(s, steps[0], pane, maxHistory);
      HistoryWindow(Next(s, steps[0], pane, maxHistory), steps[1..], pane, maxHistory);
    }
  }

  /** The newest min(streamSeq, maxHistory) events, consecutively numbered, so that sorting a copy changes nothing. */
  lemma ReachableHistory(steps: seq<Step>, pane: PaneId, maxHistory: nat)
    ensures var s := Run(Init(), steps, pane, maxHistory); var history := s.watcher.history;
            && |history| == Min(s.watcher.streamSeq, maxHistory)
            && (forall i :: 0 <= i < |history| ==>
                  history[i].streamSeq == s.watcher.streamSeq - |history| + 1 + i && Faithful(history[i], s.texts))
            && SortBySeq(history) == history
  {
    HistoryWindow(Init(), steps, pane, maxHistory);
    SortIsIdentity(Run(Init(), steps, pane, maxHistory).watcher.history, SeqOf);
  }
}

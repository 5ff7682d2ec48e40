/**
 * A reader that keeps its cursor past the end of a watcher's lifetime, over runs of the
 * engine: such a run is a run of the replication protocol, so the exact condition proved
 * there holds here.
 */
module CarriedCursor {
  import opened Common
  import opened Watchers
  import H = EngineRuns
  import R = Replication
  import SC = StaleCursor
  import opened Resume
  import opened EngineAgreement

  /** An event of an earlier watcher reaches the reader. */
  predicate Strays(s: Session, step: Step, pane: PaneId, maxHistory: nat) {
    StrayEvent(s, step, pane, maxHistory).Some?
  }

  predicate ShowsSnapshot(s: Session, step: Step) {
    && step.Deliver? && s.inbox != []
    && R.ShouldEmit(s.inbox[0].streamSeq, s.reader.cursor) && s.inbox[0].mode.Snapshot?
  }

  /** Whether the reader renders a snapshot during a run. */
  function Shown(s: Session, steps: seq<Step>, pane: PaneId, maxHistory: nat): bool
    decreases |steps|
  {
    steps != []
    && (ShowsSnapshot(s, steps[0]) || Shown(Next(s, steps[0], pane, maxHistory), steps[1..], pane, maxHistory))
  }

  /** A step that neither strays nor misses is one the protocol's theorems allow. */
  lemma {:induction false} StepMirrors(s: Session, sys: R.Sys, step: Step, pane: PaneId, maxHistory: nat)
    requires Projects(s, sys, pane, maxHistory) && Permitted(s, step, pane, maxHistory)
    requires !Strays(s, step, pane, maxHistory) && !Misses(s, step, pane, maxHistory)
    ensures var mirror := Mirror(s, step, pane, maxHistory);
            if mirror.None? then !ShowsSnapshot(s, step)
            else
              && mirror.value.Protocol? && R.Allowed(sys, mirror.value.step)
              && (ShowsSnapshot(s, step) <==> SC.ShowsSnapshot(sys, mirror.value.step))
  {
    MirrorPermitted(s, sys, step, pane, maxHistory);
    SameMisses(s, sys, step, pane, maxHistory);
    if step.EngineStep? && step.step.Capture? {
      var a := step.step.attach;
      if a.pane == pane && a in s.host.waiting && H.Registered(s.host, a) {
        assert sys.awaiting[a.client] == WaitingFor(s.host, a.client, pane) > 0;
      }
    }
  }

  lemma {:induction false} RunMirrors(s: Session, sys: R.Sys, steps: seq<Step>, pane: PaneId, maxHistory: nat)
      returns (mirrored: seq<R.Step>)
    requires Projects(s, sys, pane, maxHistory) && PermittedRun(s, steps, pane, maxHistory)
    requires Never(s, steps, pane, maxHistory, Strays) && Never(s, steps, pane, maxHistory, Misses)
    ensures R.AllowedRun(sys, mirrored, pane, maxHistory)
    ensures Projects(Run(s, steps, pane, maxHistory), R.Run(sys, mirrored, pane, maxHistory), pane, maxHistory)
    ensures Shown(s, steps, pane, maxHistory) <==> SC.Shown(sys, mirrored, pane, maxHistory)
    decreases |steps|
  {
    mirrored := [];
    if steps != [] {
      var mirror := Mirror(s, steps[0], pane, maxHistory);
      StepMirrors(s, sys, steps[0], pane, maxHistory);
      StepKeepsProjection(s, sys, steps[0], pane, maxHistory);
      mirrored := RunMirrors(Next(s, steps[0], pane, maxHistory), Mirrored(sys, mirror, pane, maxHistory), steps[1..],
                             pane, maxHistory);
      if mirror.Some? {
        assert ([mirror.value.step] + mirrored)[1..] == mirrored;
        mirrored := [mirror.value.step] + mirrored;
      }
    }
  }

  /**
   * The reader comes to a new lifetime of the pane's watcher with cursor k and any text,
   * whatever happened before. Until the stream reaches k it stays as it is. From then on it
   * shows the text at its cursor if and only if it has rendered a snapshot or the text it
   * brought is the one of event k.
   */
  lemma {:induction false} EngineCarriedCursorAgreesIff(start: Session, steps: seq<Step>, k: nat, pane: PaneId,
                                                        maxHistory: nat)
    requires H.HostInv(start.host, maxHistory) && pane !in start.host.engine.panes
    requires start.texts == [""] && start.inbox == [] && start.reader.cursor == Some(k)
    requires PermittedRun(start, steps, pane, maxHistory)
    requires Never(start, steps, pane, maxHistory, Strays) && Never(start, steps, pane, maxHistory, Misses)
    ensures var s := Run(start, steps, pane, maxHistory);
            var streamSeq := WatcherOf(s.host.engine.panes, pane).streamSeq;
            && s.reader.cursor.Some?
            && (streamSeq < k ==> s.reader == start.reader)
            && (streamSeq >= k ==>
                  && s.reader.cursor.value <= streamSeq == |s.texts| - 1
                  && (s.reader.transcript == s.texts[s.reader.cursor.value]
                      <==> Shown(start, steps, pane, maxHistory) || start.reader.transcript == s.texts[k])
                  && (Live(s, pane) && s.inbox == [] ==> s.reader.cursor.value == streamSeq))
  {
    var sys := R.Sys(FRESH_WATCHER, multiset{}, [""], start.conn, [], start.reader);
    assert pane !in start.host.current;
    var mirrored := RunMirrors(start, sys, steps, pane, maxHistory);
    SC.CarriedCursorAgreesIff(sys, mirrored, k, pane, maxHistory);
  }
}

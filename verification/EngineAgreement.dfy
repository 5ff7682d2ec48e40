/**
 * When a resuming reader and the engine agree, over runs of the engine itself, with any
 * other panes and clients, in any lifetime of the pane's watcher.
 */
module EngineAgreement {
  import opened Common
  import opened Watchers
  import H = EngineRuns
  import R = Replication
  import D = Disturbances
  import opened Resume

  /** The reader once it has received everything sent to it. */
  function Drained(s: Session): R.Reader {
    R.ConsumeAll(s.reader, s.inbox)
  }

  /** The drained reader shows the text of the event at its cursor, and the engine's text if it is live. */
  ghost predicate Sound(s: Session, pane: PaneId) {
    D.AgreesAt(Drained(s), s.texts) && Shows(s, pane)
  }

  predicate Shows(s: Session, pane: PaneId) {
    Live(s, pane) ==> Drained(s).transcript == WatcherOf(s.host.engine.panes, pane).lastOutput
  }

  predicate AtHead(s: Session, pane: PaneId) {
    Live(s, pane) ==> R.Position(Drained(s).cursor) == WatcherOf(s.host.engine.panes, pane).streamSeq
  }

  /** A first capture returns text while the reader is live on another connection, so the reader is not sent it. */
  predicate Misses(s: Session, step: Step, pane: PaneId, maxHistory: nat) {
    match step
    case EngineStep(Capture(a, Some(_))) =>
      && a in s.host.waiting && a.pane == pane && H.Registered(s.host, a)
      && Live(s, pane) && s.conn != Some(a.client)
    case _ => false
  }

  predicate MissesChange(s: Session, step: Step, pane: PaneId, maxHistory: nat) {
    && Misses(s, step, pane, maxHistory)
    && step.step.output != Some(s.host.engine.panes[pane].lastOutput)
  }

  /**
   * An earlier watcher's event reaches the reader, ahead of it, and is not the text that
   * the current watcher's event of that number brought.
   */
  predicate Misleads(s: Session, step: Step, pane: PaneId, maxHistory: nat) {
    var stray := StrayEvent(s, step, pane, maxHistory);
    stray.Some? && D.MisleadsBy(Drained(s), s.texts, stray.value)
  }

  predicate PermittedRun(s: Session, steps: seq<Step>, pane: PaneId, maxHistory: nat)
    decreases |steps|
  {
    steps == []
    || (Permitted(s, steps[0], pane, maxHistory)
        && PermittedRun(Next(s, steps[0], pane, maxHistory), steps[1..], pane, maxHistory))
  }

  ghost predicate Always(s: Session, steps: seq<Step>, pane: PaneId, maxHistory: nat,
                         holds: (Session, PaneId) -> bool)
    decreases |steps|
  {
    && holds(s, pane)
    && (steps == [] || Always(Next(s, steps[0], pane, maxHistory), steps[1..], pane, maxHistory, holds))
  }

  ghost predicate Never(s: Session, steps: seq<Step>, pane: PaneId, maxHistory: nat,
                        happens: (Session, Step, PaneId, nat) -> bool)
    decreases |steps|
  {
    steps == []
    || (!happens(s, steps[0], pane, maxHistory)
        && Never(Next(s, steps[0], pane, maxHistory), steps[1..], pane, maxHistory, happens))
  }

  /**
   * The pane is not watched and the reader has seen nothing, whatever happened before:
   * attaches of earlier watchers may still be suspended, also of the reader's connection.
   */
  ghost predicate Unwatched(s: Session, pane: PaneId, maxHistory: nat) {
    && H.HostInv(s.host, maxHistory) && pane !in s.host.engine.panes
    && s.texts == [""] && s.inbox == [] && R.Position(s.reader.cursor) == 0 && s.reader.transcript == ""
  }

  ghost predicate Follows(s: Session, sys: R.Sys, pane: PaneId, maxHistory: nat) {
    Projects(s, sys, pane, maxHistory) && D.Following(sys, pane, maxHistory)
  }

  lemma {:induction false} StartFollows(s: Session, pane: PaneId, maxHistory: nat) returns (sys: R.Sys)
    requires Unwatched(s, pane, maxHistory)
    ensures Follows(s, sys, pane, maxHistory) && D.AtHead(sys)
  {
    sys := R.Sys(FRESH_WATCHER, multiset{}, [""], s.conn, [], s.reader);
    assert pane !in s.host.current;
  }

  /** What holds of a session holds of the protocol state it projects to. */
  lemma {:induction false} SameState(s: Session, sys: R.Sys, pane: PaneId, maxHistory: nat)
    requires Projects(s, sys, pane, maxHistory)
    ensures Sound(s, pane) <==> D.Sound(sys)
    ensures Shows(s, pane) <==> D.Shows(sys)
    ensures AtHead(s, pane) <==> D.AtHead(sys)
  {
  }

  lemma {:induction false} SameMisses(s: Session, sys: R.Sys, step: Step, pane: PaneId, maxHistory: nat)
    requires Projects(s, sys, pane, maxHistory)
    ensures var mirror := Mirror(s, step, pane, maxHistory);
            && (Misses(s, step, pane, maxHistory) <==> mirror.Some? && D.Misses(sys, mirror.value))
            && (MissesChange(s, step, pane, maxHistory) <==> mirror.Some? && D.MissesChange(sys, mirror.value))
  {
    if step.EngineStep? && step.step.Capture? {
      var a := step.step.attach;
      if a.pane == pane && a in s.host.waiting && H.Registered(s.host, a) {
        assert StrayEvent(s, step, pane, maxHistory).None?;
        assert sys.awaiting[a.client] == WaitingFor(s.host, a.client, pane) > 0;
      }
    }
  }

  lemma {:induction false} SameMisleads(s: Session, sys: R.Sys, step: Step, pane: PaneId, maxHistory: nat)
    requires Projects(s, sys, pane, maxHistory)
    ensures var mirror := Mirror(s, step, pane, maxHistory);
            Misleads(s, step, pane, maxHistory) <==> mirror.Some? && D.Misleads(sys, mirror.value)
  {
  }

  /** One step of a session that is followed. */
  lemma {:induction false} SessionStep(s: Session, sys: R.Sys, step: Step, pane: PaneId, maxHistory: nat)
      returns (u: R.Sys)
    requires Follows(s, sys, pane, maxHistory) && Permitted(s, step, pane, maxHistory)
    ensures var t := Next(s, step, pane, maxHistory);
            && Projects(t, u, pane, maxHistory)
            && (!MissesChange(s, step, pane, maxHistory) && !Misleads(s, step, pane, maxHistory) ==>
                  Follows(t, u, pane, maxHistory))
            && (Sound(t, pane) <==>
                !MissesChange(s, step, pane, maxHistory) && !Misleads(s, step, pane, maxHistory))
            && (!Misleads(s, step, pane, maxHistory) ==> (Shows(t, pane) <==> !MissesChange(s, step, pane, maxHistory)))
            && (!Misleads(s, step, pane, maxHistory) && AtHead(s, pane) ==>
                  (AtHead(t, pane) <==> !Misses(s, step, pane, maxHistory)))
  {
    var mirror := Mirror(s, step, pane, maxHistory);
    u := Mirrored(sys, mirror, pane, maxHistory);
    StepKeepsProjection(s, sys, step, pane, maxHistory);
    MirrorPermitted(s, sys, step, pane, maxHistory);
    SameMisses(s, sys, step, pane, maxHistory);
    SameMisleads(s, sys, step, pane, maxHistory);
    SameState(s, sys, pane, maxHistory);
    SameState(Next(s, step, pane, maxHistory), u, pane, maxHistory);
    if mirror.Some? {
      D.StepFollowed(sys, mirror.value, pane, maxHistory);
    } else {
      D.FollowingIsSound(sys, pane, maxHistory);
    }
  }

  /** What a run of a followed reader amounts to. */
  ghost predicate ExactlyThen(s: Session, steps: seq<Step>, pane: PaneId, maxHistory: nat) {
    var unmisled := Never(s, steps, pane, maxHistory, Misleads);
    && (Always(s, steps, pane, maxHistory, Sound) <==> unmisled && Never(s, steps, pane, maxHistory, MissesChange))
    && (unmisled ==>
          (Always(s, steps, pane, maxHistory, Shows) <==> Never(s, steps, pane, maxHistory, MissesChange)))
    && (unmisled && AtHead(s, pane) ==>
          (Always(s, steps, pane, maxHistory, AtHead) <==> Never(s, steps, pane, maxHistory, Misses)))
  }

  lemma {:induction false} RunExactlyThen(s: Session, sys: R.Sys, steps: seq<Step>, pane: PaneId, maxHistory: nat)
    requires Follows(s, sys, pane, maxHistory) && PermittedRun(s, steps, pane, maxHistory)
    ensures ExactlyThen(s, steps, pane, maxHistory)
    decreases |steps|
  {
    D.FollowingIsSound(sys, pane, maxHistory);
    SameState(s, sys, pane, maxHistory);
    if steps != [] {
      var step, t := steps[0], Next(s, steps[0], pane, maxHistory);
      var u := SessionStep(s, sys, step, pane, maxHistory);
      if !MissesChange(s, step, pane, maxHistory) && !Misleads(s, step, pane, maxHistory) {
        RunExactlyThen(t, u, steps[1..], pane, maxHistory);
      }
    }
  }

  /**
   * The exact conditions, over every run of one lifetime of a pane's watcher. At all times
   * the drained reader shows the text of the event at its cursor, and the engine's text
   * while it is live, if and only if no first capture that changes the text finishes while
   * the reader is live on another connection, and no event of an earlier watcher that is
   * ahead of the reader and not the text of its number reaches it. If none such reaches it,
   * the first condition alone decides whether a live drained reader always shows the
   * engine's text, and it is always at the head if and only if no first capture at all
   * finishes while the reader is live elsewhere.
   */
  lemma {:induction false} AgreesIff(s: Session, steps: seq<Step>, pane: PaneId, maxHistory: nat)
    requires Unwatched(s, pane, maxHistory) && PermittedRun(s, steps, pane, maxHistory)
    ensures var unmisled := Never(s, steps, pane, maxHistory, Misleads);
            && (Always(s, steps, pane, maxHistory, Sound)
                <==> unmisled && Never(s, steps, pane, maxHistory, MissesChange))
            && (unmisled ==>
                  (Always(s, steps, pane, maxHistory, Shows) <==> Never(s, steps, pane, maxHistory, MissesChange)))
            && (unmisled ==>
                  (Always(s, steps, pane, maxHistory, AtHead) <==> Never(s, steps, pane, maxHistory, Misses)))
  {
    var sys := StartFollows(s, pane, maxHistory);
    SameState(s, sys, pane, maxHistory);
    RunExactlyThen(s, sys, steps, pane, maxHistory);
  }

  lemma {:induction false} RunFollows(s: Session, sys: R.Sys, steps: seq<Step>, pane: PaneId, maxHistory: nat)
      returns (u: R.Sys)
    requires Follows(s, sys, pane, maxHistory) && AtHead(s, pane) && PermittedRun(s, steps, pane, maxHistory)
    requires Never(s, steps, pane, maxHistory, Misleads) && Never(s, steps, pane, maxHistory, Misses)
    ensures Follows(Run(s, steps, pane, maxHistory), u, pane, maxHistory)
    ensures AtHead(Run(s, steps, pane, maxHistory), pane)
    decreases |steps|
  {
    u := sys;
    if steps != [] {
      u := SessionStep(s, sys, steps[0], pane, maxHistory);
      u := RunFollows(Next(s, steps[0], pane, maxHistory), u, steps[1..], pane, maxHistory);
    }
  }

  /**
   * End-to-end resume over runs of the engine. While the pane keeps its watcher, the reader
   * shows the text the engine held when it issued the event at the reader's cursor, and a
   * live reader that has received what was sent is at the head and shows the current text.
   */
  lemma {:induction false} EngineResumeAgreement(start: Session, steps: seq<Step>, pane: PaneId, maxHistory: nat)
    requires Unwatched(start, pane, maxHistory) && PermittedRun(start, steps, pane, maxHistory)
    requires Never(start, steps, pane, maxHistory, Misleads) && Never(start, steps, pane, maxHistory, Misses)
    ensures var s := Run(start, steps, pane, maxHistory);
            var w := WatcherOf(s.host.engine.panes, pane);
            && R.Position(s.reader.cursor) <= w.streamSeq == |s.texts| - 1
            && s.reader.transcript == s.texts[R.Position(s.reader.cursor)]
            && (Live(s, pane) ==>
                  var r := R.ConsumeAll(s.reader, s.inbox);
                  R.Position(r.cursor) == w.streamSeq && r.transcript == w.lastOutput)
  {
    var sys := StartFollows(start, pane, maxHistory);
    SameState(start, sys, pane, maxHistory);
    var u := RunFollows(start, sys, steps, pane, maxHistory);
    D.FollowingIsSound(u, pane, maxHistory);
  }

  lemma {:induction false} HeadMisled(s: Session, sys: R.Sys, a: H.Waiting, text: string, pane: PaneId, maxHistory: nat)
    requires Follows(s, sys, pane, maxHistory) && AtHead(s, pane) && Live(s, pane) && s.conn == Some(a.client)
    requires a in s.host.waiting && a.pane == pane && !H.Registered(s.host, a) && a.watcher in s.host.retired
    ensures Misleads(s, EngineStep(H.Capture(a, Some(text))), pane, maxHistory)
            <==> s.host.retired[a.watcher].streamSeq >= sys.watcher.streamSeq
  {
    var e := Captured(s.host.retired[a.watcher], pane, text, maxHistory).1;
    assert StrayEvent(s, EngineStep(H.Capture(a, Some(text))), pane, maxHistory) == Some(e);
    D.HeadMisled(sys, e, pane, maxHistory);
  }

  /**
   * In such a run a capture that returns text for an earlier watcher to the live reader's
   * connection misleads it if and only if that watcher had issued at least as many events
   * as the current one.
   */
  lemma {:induction false} LiveReaderMisled(start: Session, steps: seq<Step>, a: H.Waiting, text: string, pane: PaneId,
                                            maxHistory: nat)
    requires Unwatched(start, pane, maxHistory) && PermittedRun(start, steps, pane, maxHistory)
    requires Never(start, steps, pane, maxHistory, Misleads) && Never(start, steps, pane, maxHistory, Misses)
    requires var h := Run(start, steps, pane, maxHistory).host;
             a in h.waiting && a.pane == pane && !H.Registered(h, a)
    requires var s := Run(start, steps, pane, maxHistory); Live(s, pane) && s.conn == Some(a.client)
    ensures var s := Run(start, steps, pane, maxHistory);
            && a.watcher in s.host.retired && pane in s.host.engine.panes
            && (Misleads(s, EngineStep(H.Capture(a, Some(text))), pane, maxHistory)
                <==> s.host.retired[a.watcher].streamSeq >= s.host.engine.panes[pane].streamSeq)
  {
    var s := Run(start, steps, pane, maxHistory);
    var sys := StartFollows(start, pane, maxHistory);
    SameState(start, sys, pane, maxHistory);
    var u := RunFollows(start, sys, steps, pane, maxHistory);
    assert H.Holds(s.host, a);
    HeadMisled(s, u, a, text, pane, maxHistory);
  }
}

/**
 * Why the agreement theorem asks that no event of an earlier watcher misleads the
 * reader: a run of the engine in which the snapshot of a deleted watcher hides the
 * snapshot of the one that replaced it.
 */
module EarlierWatcher {
  import opened Common
  import opened Watchers
  import E = Engine
  import H = EngineRuns
  import R = Replication
  import opened Resume
  import opened SampleRuns

  const STRAY := Event(Snapshot, PANE, "x", 1)
  const HIDDEN := Event(Snapshot, PANE, "y", 1)

  const FIRST_ATTACH := H.Waiting("r", PANE, 0)
  const SECOND_ATTACH := H.Waiting("r", PANE, 1)

  const ATTACHED_TWICE := [ReaderAttach("r", None), EngineStep(H.Detach("r", PANE)), ReaderAttach("r", None)]

  const BOTH_CAPTURED := [
    EngineStep(H.Capture(FIRST_ATTACH, Some("x"))), EngineStep(H.Capture(SECOND_ATTACH, Some("y"))), Deliver, Deliver]

  const ATTACHED := Session(
    H.Host(E.State(map[PANE := Watcher(["r"], "", 0, [])], false, []), [PANE], map[PANE := 0], map[],
           multiset{FIRST_ATTACH}),
    [""], Some("r"), [], R.Reader(None, ""))

  const DETACHED := ATTACHED.(
    host := H.Host(E.IDLE, [PANE], map[], map[0 := FRESH_WATCHER], multiset{FIRST_ATTACH}))

  const AGAIN := DETACHED.(
    host := H.Host(E.State(map[PANE := Watcher(["r"], "", 0, [])], false, []), [PANE, PANE], map[PANE := 1],
                   map[0 := FRESH_WATCHER], multiset{FIRST_ATTACH, SECOND_ATTACH}))

  const STRAYED := AGAIN.(
    host := AGAIN.host.(
      engine := E.State(AGAIN.host.engine.panes, true, [E.Output("r", STRAY)]),
      retired := map[0 := Watcher([], "x", 1, [STRAY])],
      waiting := multiset{SECOND_ATTACH}),
    inbox := [STRAY])

  const CAPTURED := STRAYED.(
    host := STRAYED.host.(
      engine := E.State(map[PANE := Watcher(["r"], "y", 1, [HIDDEN])], true,
                        [E.Output("r", STRAY), E.Output("r", HIDDEN)]),
      waiting := multiset{}),
    texts := ["", "y"],
    inbox := [STRAY, HIDDEN])

  lemma Attaches()
    ensures Next(START, ATTACHED_TWICE[0], PANE, MAX_HISTORY) == ATTACHED
  {
    assert Subscribe([], "r") == ["r"];
  }

  lemma DetachedHost()
    ensures H.Next(ATTACHED.host, H.Detach("r", PANE), MAX_HISTORY) == DETACHED.host
  {
    assert Unsubscribe(["r"], "r") == [];
    assert ATTACHED.host.engine.panes - {PANE} == map[];
    var host := H.Next(ATTACHED.host, H.Detach("r", PANE), MAX_HISTORY);
    assert host.retired.Keys == {0} && host.current == map[];
  }

  lemma Detaches()
    ensures Next(ATTACHED, ATTACHED_TWICE[1], PANE, MAX_HISTORY) == DETACHED
  {
    DetachedHost();
  }

  lemma AttachesAgain()
    ensures Next(DETACHED, ATTACHED_TWICE[2], PANE, MAX_HISTORY) == AGAIN
  {
    assert Subscribe([], "r") == ["r"];
    assert H.AfterAttach(DETACHED.host, "r", PANE, None) == AGAIN.host;
  }

  lemma Strays()
    ensures Next(AGAIN, BOTH_CAPTURED[0], PANE, MAX_HISTORY) == STRAYED
  {
    FirstSnapshot([], "x");
    OrphanStep(AGAIN, FIRST_ATTACH, "x", Watcher([], "x", 1, [STRAY]), STRAY);
    assert STRAYED.host.retired == AGAIN.host.retired[0 := Watcher([], "x", 1, [STRAY])];
  }

  lemma Captures()
    ensures Next(STRAYED, BOTH_CAPTURED[1], PANE, MAX_HISTORY) == CAPTURED
  {
    FirstSnapshot(["r"], "y");
    CaptureStep(STRAYED, SECOND_ATTACH, "y", Watcher(["r"], "y", 1, [HIDDEN]), HIDDEN);
  }

  lemma Delivers()
    ensures Next(Next(CAPTURED, Deliver, PANE, MAX_HISTORY), Deliver, PANE, MAX_HISTORY) ==
            CAPTURED.(inbox := [], reader := R.Reader(Some(1), "x"))
  {
    assert [STRAY, HIDDEN][1..] == [HIDDEN] && [HIDDEN][1..] == [];
  }

  /**
   * A client attaches, detaches and attaches again while its first capture is under way.
   * Event 1 of the deleted watcher reaches it first and hides event 1 of the new one: it
   * is live, has received everything, and shows a text that is not the engine's.
   */
  lemma StrayHidesSnapshot()
    ensures var s := Run(START, ATTACHED_TWICE + BOTH_CAPTURED, PANE, MAX_HISTORY);
            var w := WatcherOf(s.host.engine.panes, PANE);
            && Live(s, PANE) && s.inbox == [] && s.reader == R.Reader(Some(1), "x")
            && w.lastOutput == "y" && w.streamSeq == 1
  {
    Attaches();
    Detaches();
    AttachesAgain();
    RunThree(START, ATTACHED_TWICE, ATTACHED, DETACHED, AGAIN);
    Strays();
    Captures();
    Delivers();
    RunFour(AGAIN, BOTH_CAPTURED, STRAYED, CAPTURED, Next(CAPTURED, Deliver, PANE, MAX_HISTORY),
            CAPTURED.(inbox := [], reader := R.Reader(Some(1), "x")));
    RunConcat(START, ATTACHED_TWICE, BOTH_CAPTURED, PANE, MAX_HISTORY);
  }
}

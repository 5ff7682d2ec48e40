/**
 * One run of the engine over two lifetimes of a pane's watcher. The reader keeps the
 * cursor of the first, ignores the snapshot of the second, and then appends the
 * second's delta to the first's text.
 */
module TwoLifetimes {
  import opened Common
  import opened Watchers
  import E = Engine
  import H = EngineRuns
  import R = Replication
  import opened Resume
  import opened SampleRuns

  const OLD := Event(Snapshot, PANE, "ab", 1)
  const NEW := Event(Snapshot, PANE, "x", 1)
  const MORE := Event(Delta, PANE, "y", 2)

  const FIRST_LIFE := [
    ReaderAttach("r", None), EngineStep(H.Capture(H.Waiting("r", PANE, 0), Some("ab"))), Deliver,
        EngineStep(H.DetachAll("r"))]

  const SECOND_LIFE := [
    EngineStep(H.Attach("o", PANE, None)), EngineStep(H.Capture(H.Waiting("o", PANE, 1), Some("x"))),
    ReaderAttach("s", Some(1)), Deliver]

  const NEXT_DELTA := [EngineStep(H.Poll(PANE, Some("xy"))), Deliver]

  const ATTACHED := Session(
    H.Host(E.State(map[PANE := Watcher(["r"], "", 0, [])], false, []), [PANE], map[PANE := 0], map[],
           multiset{H.Waiting("r", PANE, 0)}),
    [""], Some("r"), [], R.Reader(None, ""))

  const CAPTURED := Session(
    H.Host(E.State(map[PANE := Watcher(["r"], "ab", 1, [OLD])], true, [E.Output("r", OLD)]), [PANE], map[PANE := 0],
           map[], multiset{}),
    ["", "ab"], Some("r"), [OLD], R.Reader(None, ""))

  const SHOWN := CAPTURED.(inbox := [], reader := R.Reader(Some(1), "ab"))

  const ENDED := SHOWN.(
    host := H.Host(E.State(map[], false, [E.Output("r", OLD)]), [PANE], map[], map[0 := Watcher([], "ab", 1, [OLD])],
                   multiset{}),
    texts := [""])

  const AGAIN := ENDED.(
    host := ENDED.host.(
      engine := E.State(map[PANE := Watcher(["o"], "", 0, [])], false, [E.Output("r", OLD)]),
      paneOf := [PANE, PANE],
      current := map[PANE := 1],
      waiting := multiset{H.Waiting("o", PANE, 1)}))

  const CAPTURED_AGAIN := AGAIN.(
    host := AGAIN.host.(
      engine := E.State(map[PANE := Watcher(["o"], "x", 1, [NEW])], true, [E.Output("r", OLD), E.Output("o", NEW)]),
      waiting := multiset{}),
    texts := ["", "x"])

  const RESUMED := CAPTURED_AGAIN.(
    host := CAPTURED_AGAIN.host.(
      engine := E.State(map[PANE := Watcher(["o", "s"], "x", 1, [NEW])], true,
                        [E.Output("r", OLD), E.Output("o", NEW), E.Output("s", NEW)])),
    conn := Some("s"),
    inbox := [NEW])

  const IGNORED := RESUMED.(inbox := [])

  const POLLED := IGNORED.(
    host := IGNORED.host.(
      engine := E.State(map[PANE := Watcher(["o", "s"], "xy", 2, [NEW, MORE])], true,
                        [E.Output("r", OLD), E.Output("o", NEW), E.Output("s", NEW), E.Output("o", MORE),
                         E.Output("s", MORE)])),
    texts := ["", "x", "xy"],
    inbox := [MORE])

  lemma Attaches()
    ensures Next(START, FIRST_LIFE[0], PANE, MAX_HISTORY) == ATTACHED
  {
    assert Subscribe([], "r") == ["r"];
  }

  lemma Captures()
    ensures Next(ATTACHED, FIRST_LIFE[1], PANE, MAX_HISTORY) == CAPTURED
  {
    FirstSnapshot(["r"], "ab");
    CaptureStep(ATTACHED, H.Waiting("r", PANE, 0), "ab", Watcher(["r"], "ab", 1, [OLD]), OLD);
  }

  lemma Shows()
    ensures Next(CAPTURED, FIRST_LIFE[2], PANE, MAX_HISTORY) == SHOWN
  {
  }

  lemma EndedEngine()
    ensures E.DetachAll(SHOWN.host.engine, "r") == ENDED.host.engine
  {
    assert Unsubscribe(["r"], "r") == [];
    var engine := SHOWN.host.engine;
    assert engine.panes.Keys == {PANE} && engine.panes[PANE].subscribers == ["r"];
    var t := E.DetachAll(engine, "r");
    assert t.panes == map[];
    assert t == E.StopIfIdle(engine.(panes := t.panes));
  }

  lemma EndedHost()
    ensures H.Moved(SHOWN.host, ENDED.host.engine, Some("r")) == ENDED.host
  {
    assert Unsubscribe(["r"], "r") == [];
    var host := H.Moved(SHOWN.host, ENDED.host.engine, Some("r"));
    assert host.retired.Keys == {0} && host.current == map[];
  }

  lemma Ends()
    ensures Next(SHOWN, FIRST_LIFE[3], PANE, MAX_HISTORY) == ENDED
  {
    EndedEngine();
    EndedHost();
    assert ENDED.host.engine.sent == SHOWN.host.engine.sent + [];
    ReceivedAfter(SHOWN, ENDED.host, [], PANE);
  }

  lemma FirstLife()
    ensures Run(START, FIRST_LIFE, PANE, MAX_HISTORY) == ENDED
  {
    Attaches();
    Captures();
    Shows();
    Ends();
    RunFour(START, FIRST_LIFE, ATTACHED, CAPTURED, SHOWN, ENDED);
  }

  lemma AttachesAgain()
    ensures Next(ENDED, SECOND_LIFE[0], PANE, MAX_HISTORY) == AGAIN
  {
    assert Subscribe([], "o") == ["o"];
    var host := H.AfterAttach(ENDED.host, "o", PANE, None);
    assert host == AGAIN.host;
    assert host.engine.sent == ENDED.host.engine.sent + [];
    ReceivedAfter(ENDED, host, [], PANE);
  }

  lemma CapturesAgain()
    ensures Next(AGAIN, SECOND_LIFE[1], PANE, MAX_HISTORY) == CAPTURED_AGAIN
  {
    FirstSnapshot(["o"], "x");
    CaptureStep(AGAIN, H.Waiting("o", PANE, 1), "x", Watcher(["o"], "x", 1, [NEW]), NEW);
  }

  lemma SnapshotReply()
    ensures AttachReply(Watcher(["o", "s"], "x", 1, [NEW]), PANE, Some(1)).0 == [NEW]
  {
    ReplayDecision(Watcher(["o", "s"], "x", 1, [NEW]), PANE, 1, MAX_HISTORY);
  }

  lemma ResumedHost()
    ensures H.AfterAttach(CAPTURED_AGAIN.host, "s", PANE, Some(1)) == RESUMED.host
  {
    assert Subscribe(["o"], "s") == ["o", "s"];
    SnapshotReply();
    assert E.Addressed("s", [NEW]) == [E.Output("s", NEW)];
  }

  lemma Resumes()
    ensures Next(CAPTURED_AGAIN, SECOND_LIFE[2], PANE, MAX_HISTORY) == RESUMED
  {
    ResumedHost();
    var added := [E.Output("s", NEW)];
    assert added[1..] == [];
    assert RESUMED.host.engine.sent == CAPTURED_AGAIN.host.engine.sent + added;
    ReceivedAfter(Connected(CAPTURED_AGAIN, "s"), RESUMED.host, added, PANE);
  }

  lemma Ignores()
    ensures Next(RESUMED, SECOND_LIFE[3], PANE, MAX_HISTORY) == IGNORED
  {
    assert [NEW][1..] == [];
  }

  lemma SecondLife()
    ensures Run(ENDED, SECOND_LIFE, PANE, MAX_HISTORY) == IGNORED
  {
    AttachesAgain();
    CapturesAgain();
    Resumes();
    Ignores();
    RunFour(ENDED, SECOND_LIFE, AGAIN, CAPTURED_AGAIN, RESUMED, IGNORED);
  }

  /**
   * The reader resumes in the watcher's second lifetime, is live and has received everything, and
   * shows the first one's text.
   */
  lemma OldTextStays()
    ensures var s := Run(START, FIRST_LIFE + SECOND_LIFE, PANE, MAX_HISTORY);
            && Live(s, PANE) && s.inbox == [] && s.reader == R.Reader(Some(1), "ab")
            && WatcherOf(s.host.engine.panes, PANE).lastOutput == "x"
  {
    FirstLife();
    SecondLife();
    RunConcat(START, FIRST_LIFE, SECOND_LIFE, PANE, MAX_HISTORY);
  }

  lemma PolledAgain()
    ensures var w := Watcher(["o", "s"], "x", 1, [NEW]);
            && Polled(w, PANE, "xy", MAX_HISTORY) == (Watcher(["o", "s"], "xy", 2, [NEW, MORE]), Some(MORE))
            && E.PollOutput(w, PANE, Some("xy"), MAX_HISTORY) == [E.Output("o", MORE), E.Output("s", MORE)]
  {
    assert "xy"[1..] == "y" && "x" <= "xy";
    assert [NEW] + [MORE] == [NEW, MORE];
  }

  lemma PolledHost()
    ensures H.Next(IGNORED.host, H.Poll(PANE, Some("xy")), MAX_HISTORY) == POLLED.host
  {
    PolledAgain();
  }

  lemma PolledReceived()
    ensures var added := [E.Output("o", MORE), E.Output("s", MORE)];
            Received(added, Some("s"), PANE) == [MORE] && POLLED.host.engine.sent == IGNORED.host.engine.sent + added
  {
    PolledAgain();
    ReceivedPoll(Watcher(["o", "s"], "x", 1, [NEW]), PANE, Some("xy"), Some("s"), PANE, MAX_HISTORY);
  }

  lemma Polls()
    ensures Next(IGNORED, NEXT_DELTA[0], PANE, MAX_HISTORY) == POLLED
  {
    PolledHost();
    PolledReceived();
    ReceivedAfter(IGNORED, POLLED.host, [E.Output("o", MORE), E.Output("s", MORE)], PANE);
  }

  lemma LastStep()
    ensures Next(POLLED, NEXT_DELTA[1], PANE, MAX_HISTORY) == POLLED.(inbox := [], reader := R.Reader(Some(2), "aby"))
  {
    assert [MORE][1..] == [] && "ab" + "y" == "aby";
  }

  /** The next delta lands on the wrong text: the reader shows what the pane never held. */
  lemma DeltaLandsOnOldText()
    ensures var s := Run(START, FIRST_LIFE + SECOND_LIFE + NEXT_DELTA, PANE, MAX_HISTORY);
            && Live(s, PANE) && s.inbox == [] && s.reader == R.Reader(Some(2), "aby")
            && WatcherOf(s.host.engine.panes, PANE).lastOutput == "xy"
  {
    FirstLife();
    SecondLife();
    Polls();
    LastStep();
    RunConcat(START, FIRST_LIFE, SECOND_LIFE, PANE, MAX_HISTORY);
    RunConcat(START, FIRST_LIFE + SECOND_LIFE, NEXT_DELTA, PANE, MAX_HISTORY);
    RunTwo(IGNORED, NEXT_DELTA, POLLED, POLLED.(inbox := [], reader := R.Reader(Some(2), "aby")));
  }
}

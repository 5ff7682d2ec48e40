/**
 * Why the agreement theorem asks that a first capture finishes while no other
 * connection of the reader is live: a run of the engine in which two first attaches
 * overlap at the capture.
 */
module OverlappingAttaches {
  import opened Common
  import opened Watchers
  import E = Engine
  import H = EngineRuns
  import R = Replication
  import opened Resume
  import opened SampleRuns

  const FIRST_A := Event(Snapshot, PANE, "a", 1)
  const SECOND_B := Event(Snapshot, PANE, "b", 2)
  const THIRD_C := Event(Delta, PANE, "c", 3)

  const READER := H.Waiting("r", PANE, 0)
  const OTHER := H.Waiting("o", PANE, 0)

  const CAPTURES := [
    ReaderAttach("r", None), EngineStep(H.Attach("o", PANE, None)), EngineStep(H.Capture(READER, Some("a"))),
    EngineStep(H.Capture(OTHER, Some("b")))]

  const POLL := [EngineStep(H.Poll(PANE, Some("bc"))), Deliver, Deliver]

  const ATTACHED := Session(
    H.Host(E.State(map[PANE := Watcher(["r"], "", 0, [])], false, []), [PANE], map[PANE := 0], map[],
           multiset{READER}),
    [""], Some("r"), [], R.Reader(None, ""))

  const BOTH_ATTACHED := ATTACHED.(
    host := ATTACHED.host.(
      engine := E.State(map[PANE := Watcher(["r", "o"], "", 0, [])], false, []),
      waiting := multiset{READER, OTHER}))

  const ONE_CAPTURED := BOTH_ATTACHED.(
    host := BOTH_ATTACHED.host.(
      engine := E.State(map[PANE := Watcher(["r", "o"], "a", 1, [FIRST_A])], true, [E.Output("r", FIRST_A)]),
      waiting := multiset{OTHER}),
    texts := ["", "a"],
    inbox := [FIRST_A])

  const BOTH_CAPTURED := ONE_CAPTURED.(
    host := ONE_CAPTURED.host.(
      engine := E.State(map[PANE := Watcher(["r", "o"], "b", 2, [FIRST_A, SECOND_B])], true,
                        [E.Output("r", FIRST_A), E.Output("o", SECOND_B)]),
      waiting := multiset{}),
    texts := ["", "a", "b"])

  const POLLED := BOTH_CAPTURED.(
    host := BOTH_CAPTURED.host.(
      engine := E.State(map[PANE := Watcher(["r", "o"], "bc", 3, [FIRST_A, SECOND_B, THIRD_C])], true,
                        [E.Output("r", FIRST_A), E.Output("o", SECOND_B), E.Output("r", THIRD_C),
                         E.Output("o", THIRD_C)])),
    texts := ["", "a", "b", "bc"],
    inbox := [FIRST_A, THIRD_C])

  lemma Attaches()
    ensures Next(START, CAPTURES[0], PANE, MAX_HISTORY) == ATTACHED
  {
    assert Subscribe([], "r") == ["r"];
  }

  lemma OtherAttaches()
    ensures Next(ATTACHED, CAPTURES[1], PANE, MAX_HISTORY) == BOTH_ATTACHED
  {
    assert Subscribe(["r"], "o") == ["r", "o"];
    assert H.AfterAttach(ATTACHED.host, "o", PANE, None) == BOTH_ATTACHED.host;
  }

  lemma FirstCapture()
    ensures Next(BOTH_ATTACHED, CAPTURES[2], PANE, MAX_HISTORY) == ONE_CAPTURED
  {
    FirstSnapshot(["r", "o"], "a");
    CaptureStep(BOTH_ATTACHED, READER, "a", Watcher(["r", "o"], "a", 1, [FIRST_A]), FIRST_A);
  }

  lemma SecondCapture()
    ensures Next(ONE_CAPTURED, CAPTURES[3], PANE, MAX_HISTORY) == BOTH_CAPTURED
  {
    assert [FIRST_A] + [SECOND_B] == [FIRST_A, SECOND_B];
    CaptureStep(ONE_CAPTURED, OTHER, "b", Watcher(["r", "o"], "b", 2, [FIRST_A, SECOND_B]), SECOND_B);
  }

  lemma PolledWatcher()
    ensures var w := Watcher(["r", "o"], "b", 2, [FIRST_A, SECOND_B]);
            && Polled(w, PANE, "bc", MAX_HISTORY) ==
               (Watcher(["r", "o"], "bc", 3, [FIRST_A, SECOND_B, THIRD_C]), Some(THIRD_C))
            && E.PollOutput(w, PANE, Some("bc"), MAX_HISTORY) == [E.Output("r", THIRD_C), E.Output("o", THIRD_C)]
  {
    assert "bc"[1..] == "c" && "b" <= "bc";
    assert [FIRST_A, SECOND_B] + [THIRD_C] == [FIRST_A, SECOND_B, THIRD_C];
  }

  lemma Polls()
    ensures Next(BOTH_CAPTURED, POLL[0], PANE, MAX_HISTORY) == POLLED
  {
    var added := [E.Output("r", THIRD_C), E.Output("o", THIRD_C)];
    PolledWatcher();
    ReceivedPoll(Watcher(["r", "o"], "b", 2, [FIRST_A, SECOND_B]), PANE, Some("bc"), Some("r"), PANE, MAX_HISTORY);
    assert H.Next(BOTH_CAPTURED.host, H.Poll(PANE, Some("bc")), MAX_HISTORY) == POLLED.host;
    ReceivedAfter(BOTH_CAPTURED, POLLED.host, added, PANE);
  }

  lemma Delivers()
    ensures Next(Next(POLLED, Deliver, PANE, MAX_HISTORY), Deliver, PANE, MAX_HISTORY) ==
            POLLED.(inbox := [], reader := R.Reader(Some(3), "ac"))
  {
    assert [FIRST_A, THIRD_C][1..] == [THIRD_C] && [THIRD_C][1..] == [];
    assert "a" + "c" == "ac";
  }

  lemma Captures()
    ensures Run(START, CAPTURES, PANE, MAX_HISTORY) == BOTH_CAPTURED
  {
    Attaches();
    OtherAttaches();
    FirstCapture();
    SecondCapture();
    RunFour(START, CAPTURES, ATTACHED, BOTH_ATTACHED, ONE_CAPTURED, BOTH_CAPTURED);
  }

  lemma PollsAndDelivers()
    ensures Run(BOTH_CAPTURED, POLL, PANE, MAX_HISTORY) == POLLED.(inbox := [], reader := R.Reader(Some(3), "ac"))
  {
    Polls();
    Delivers();
    RunThree(BOTH_CAPTURED, POLL, POLLED, Next(POLLED, Deliver, PANE, MAX_HISTORY),
             POLLED.(inbox := [], reader := R.Reader(Some(3), "ac")));
  }

  /** Two overlapping first attaches: the reader misses event 2 and renders event 3 on the wrong text. */
  lemma OverlappingFirstAttachesDisagree()
    ensures var s := Run(START, CAPTURES + POLL, PANE, MAX_HISTORY);
            var w := WatcherOf(s.host.engine.panes, PANE);
            && Live(s, PANE) && s.inbox == [] && s.reader == R.Reader(Some(3), "ac")
            && w.streamSeq == 3 && w.lastOutput == "bc"
  {
    Captures();
    PollsAndDelivers();
    RunConcat(START, CAPTURES, POLL, PANE, MAX_HISTORY);
  }
}

/** What concrete runs of a session are put together from. */
module SampleRuns {
  import opened Common
  import opened Watchers
  import E = Engine
  import H = EngineRuns
  import opened Resume

  const PANE: PaneId := "%1"
  const MAX_HISTORY: nat := 300

  lemma {:induction false} RunConcat(s: Session, a: seq<Step>, b: seq<Step>, pane: PaneId, maxHistory: nat)
    ensures Run(s, a + b, pane, maxHistory) == Run(Run(s, a, pane, maxHistory), b, pane, maxHistory)
    decreases |a|
  {
    if a == [] {
      assert a + b == b;
    } else {
      assert (a + b)[1..] == a[1..] + b;
      RunConcat(Next(s, a[0], pane, maxHistory), a[1..], b, pane, maxHistory);
    }
  }

  lemma RunTwo(s: Session, steps: seq<Step>, t: Session, u: Session)
    requires |steps| == 2 && Next(s, steps[0], PANE, MAX_HISTORY) == t && Next(t, steps[1], PANE, MAX_HISTORY) == u
    ensures Run(s, steps, PANE, MAX_HISTORY) == u
  {
    assert steps[1..][0] == steps[1] && steps[1..][1..] == [];
    assert Run(t, steps[1..], PANE, MAX_HISTORY) == Run(u, [], PANE, MAX_HISTORY);
  }

  lemma RunFour(s: Session, steps: seq<Step>, t: Session, u: Session, v: Session, w: Session)
    requires |steps| == 4 && Next(s, steps[0], PANE, MAX_HISTORY) == t && Next(t, steps[1], PANE, MAX_HISTORY) == u
    requires Next(u, steps[2], PANE, MAX_HISTORY) == v && Next(v, steps[3], PANE, MAX_HISTORY) == w
    ensures Run(s, steps, PANE, MAX_HISTORY) == w
  {
    RunTwo(s, steps[..2], t, u);
    RunTwo(u, steps[2..], v, w);
    RunConcat(s, steps[..2], steps[2..], PANE, MAX_HISTORY);
    assert steps == steps[..2] + steps[2..];
  }

  lemma RunThree(s: Session, steps: seq<Step>, t: Session, u: Session, v: Session)
    requires |steps| == 3 && Next(s, steps[0], PANE, MAX_HISTORY) == t && Next(t, steps[1], PANE, MAX_HISTORY) == u
    requires Next(u, steps[2], PANE, MAX_HISTORY) == v
    ensures Run(s, steps, PANE, MAX_HISTORY) == v
  {
    RunTwo(s, steps[..2], t, u);
    RunConcat(s, steps[..2], steps[2..], PANE, MAX_HISTORY);
    assert steps == steps[..2] + steps[2..] && steps[2..][1..] == [];
    assert Run(u, steps[2..], PANE, MAX_HISTORY) == Run(v, [], PANE, MAX_HISTORY);
  }

  lemma FirstSnapshot(subscribers: seq<ClientId>, text: string)
    ensures var e := Event(Snapshot, PANE, text, 1);
            Captured(Watcher(subscribers, "", 0, []), PANE, text, MAX_HISTORY) ==
                (Watcher(subscribers, text, 1, [e]), e)
  {
    assert [] + [Event(Snapshot, PANE, text, 1)] == [Event(Snapshot, PANE, text, 1)];
  }

  /** Nothing is removed when the engine keeps its panes. */
  lemma MovedInPlace(h: H.Host, engine: E.State, leaving: Option<ClientId>)
    requires H.Numbered(h) && engine.panes.Keys == h.engine.panes.Keys
    ensures H.Moved(h, engine, leaving) == h.(engine := engine)
  {
    var t := H.Moved(h, engine, leaving);
    assert t.current == h.current;
    assert t.retired == h.retired;
  }

  /** The pane's first capture returns, and its event goes to the attaching connection. */
  lemma CaptureStep(s: Session, a: H.Waiting, text: string, w: Watcher, e: Event)
    requires H.Numbered(s.host) && a in s.host.waiting && a.pane == PANE && H.Registered(s.host, a)
    requires (w, e) == Captured(s.host.engine.panes[PANE], PANE, text, MAX_HISTORY)
    ensures var panes := s.host.engine.panes[PANE := w];
            Next(s, EngineStep(H.Capture(a, Some(text))), PANE, MAX_HISTORY) ==
            s.(host := s.host.(engine := E.State(panes, true, s.host.engine.sent + [E.Output(a.client, e)]),
                               waiting := s.host.waiting - multiset{a}),
               texts := Recorded(s.texts, panes, PANE),
               inbox := s.inbox + if s.conn == Some(a.client) && e.paneId == PANE then [e] else [])
  {
    var added := [E.Output(a.client, e)];
    var h := s.host.(waiting := s.host.waiting - multiset{a});
    var engine := E.State(s.host.engine.panes[PANE := w], true, s.host.engine.sent + added);
    TextCaptured(s.host, a, text, MAX_HISTORY);
    MovedInPlace(h, engine, Some(a.client));
    ReceivedAfter(s, h.(engine := engine), added, PANE);
    assert added[1..] == [];
  }

  /** A capture returns for an earlier watcher; its event still goes to the connection. */
  lemma OrphanStep(s: Session, a: H.Waiting, text: string, w: Watcher, e: Event)
    requires H.Numbered(s.host) && a in s.host.waiting && a.pane == PANE && !H.Registered(s.host, a)
    requires a.watcher in s.host.retired && (w, e) == Captured(s.host.retired[a.watcher], PANE, text, MAX_HISTORY)
    ensures Next(s, EngineStep(H.Capture(a, Some(text))), PANE, MAX_HISTORY) ==
            s.(host := s.host.(engine := E.State(s.host.engine.panes, true,
                                                 s.host.engine.sent + [E.Output(a.client, e)]),
                               retired := s.host.retired[a.watcher := w],
                               waiting := s.host.waiting - multiset{a}),
               texts := Recorded(s.texts, s.host.engine.panes, PANE),
               inbox := s.inbox + if s.conn == Some(a.client) && e.paneId == PANE then [e] else [])
  {
    var added := [E.Output(a.client, e)];
    var h := s.host.(waiting := s.host.waiting - multiset{a});
    var engine := E.State(s.host.engine.panes, true, s.host.engine.sent + added);
    MovedInPlace(h, engine, None);
    var host := h.(engine := engine, retired := h.retired[a.watcher := w]);
    assert H.AfterCapture(s.host, a, Some(text), MAX_HISTORY) == host;
    ReceivedAfter(s, host, added, PANE);
    assert added[1..] == [];
  }
}

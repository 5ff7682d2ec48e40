/**
 * Runs of the engine with its await taken apart: an attach may be suspended at its
 * first capture while anything else happens, the watcher it works on may be deleted
 * meanwhile, and a pane may be watched again through a new one.
 */
module EngineRuns {
  import opened Common
  import opened Watchers
  import E = Engine

  /** An attach suspended at its first capture, and the number of the watcher it holds. */
  datatype Waiting = Waiting(client: ClientId, pane: PaneId, watcher: nat)

  /**
   * Watchers are numbered as they are created; paneOf says for which pane, current
   * which one is registered, and retired keeps those that no longer are.
   */
  datatype Host = Host(
    engine: E.State,
    paneOf: seq<PaneId>,
    current: map<PaneId, nat>,
    retired: map<nat, Watcher>,
    waiting: multiset<Waiting>)

  /** A poll in progress may reach a watcher that was deleted since the poll began. */
  datatype Step =
    | Attach(client: ClientId, pane: PaneId, since: Option<int>)
    | Capture(attach: Waiting, output: Option<string>)
    | Detach(client: ClientId, pane: PaneId)
    | DetachAll(client: ClientId)
    | Poll(pane: PaneId, output: Option<string>)
    | PollRetired(watcher: nat, output: Option<string>)

  const START := Host(E.IDLE, [], map[], map[], multiset{})

  /** Whether the watcher of a suspended attach is still the one registered for the pane. */
  predicate Registered(h: Host, a: Waiting) {
    a.pane in h.engine.panes && a.pane in h.current && h.current[a.pane] == a.watcher
  }

  predicate Removed(h: Host, engine: E.State, id: nat)
    requires id < |h.paneOf|
  {
    var p := h.paneOf[id];
    p in h.current && h.current[p] == id && p in h.engine.panes && p !in engine.panes
  }

  /** The last value of a watcher that is removed, because of a leaving client or from outside. */
  function Left(w: Watcher, leaving: Option<ClientId>): Watcher {
    if leaving.None? then w else w.(subscribers := Unsubscribe(w.subscribers, leaving.value))
  }

  /** The engine moves on; watchers it no longer has are kept among the retired. */
  function Moved(h: Host, engine: E.State, leaving: Option<ClientId>): Host {
    h.(engine := engine,
       current := map p | p in h.current && p in engine.panes :: h.current[p],
       retired := h.retired + map id: nat | id < |h.paneOf| && Removed(h, engine, id) ::
                                Left(h.engine.panes[h.paneOf[id]], leaving))
  }

  function AfterAttach(h: Host, c: ClientId, p: PaneId, since: Option<int>): Host {
    var (engine, done) := E.BeginAttach(h.engine, c, p, since);
    var known := p in h.current;
    var id := if known then h.current[p] else |h.paneOf|;
    h.(engine := engine,
       paneOf := if known then h.paneOf else h.paneOf + [p],
       current := h.current[p := id],
       waiting := if done.None? then h.waiting + multiset{Waiting(c, p, id)} else h.waiting)
  }

  function AfterOrphaned(h: Host, a: Waiting, orphan: Watcher, output: Option<string>, maxHistory: nat): Host {
    var engine := E.FinishOrphaned(h.engine, a.client, a.pane, orphan, output, maxHistory);
    var last := match output
      case Some(text) => Captured(orphan, a.pane, text, maxHistory).0
      case None => Left(orphan, Some(a.client));
    var t := Moved(h, engine, None);
    t.(retired := t.retired[a.watcher := last])
  }

  function AfterCapture(h: Host, a: Waiting, output: Option<string>, maxHistory: nat): Host {
    if a !in h.waiting then h
    else
      var t := h.(waiting := h.waiting - multiset{a});
      if Registered(h, a) then
        Moved(t, E.FinishAttach(h.engine, a.client, a.pane, None, output, maxHistory).0, Some(a.client))
      else if a.watcher in h.retired then AfterOrphaned(t, a, h.retired[a.watcher], output, maxHistory)
      else t
  }

  function AfterPollRetired(h: Host, id: nat, output: Option<string>, maxHistory: nat): Host {
    if id in h.retired && id < |h.paneOf| then
      var w, p := h.retired[id], h.paneOf[id];
      h.(engine := h.engine.(sent := h.engine.sent + E.PollOutput(w, p, output, maxHistory)),
         retired := h.retired[id := E.PolledWatcher(w, p, output, maxHistory)])
    else h
  }

  function Next(h: Host, step: Step, maxHistory: nat): Host {
    match step
    case Attach(c, p, since) => AfterAttach(h, c, p, since)
    case Capture(a, output) => AfterCapture(h, a, output, maxHistory)
    case Detach(c, p) => Moved(h, E.Detach(h.engine, c, p), Some(c))
    case DetachAll(c) => Moved(h, E.DetachAll(h.engine, c), Some(c))
    case Poll(p, output) =>
      if p in h.engine.panes then h.(engine := E.PollPane(h.engine, p, output, maxHistory)) else h
    case PollRetired(id, output) => AfterPollRetired(h, id, output, maxHistory)
  }

  function Run(h: Host, steps: seq<Step>, maxHistory: nat): Host
    decreases |steps|
  {
    if steps == [] then h else Run(Next(h, steps[0], maxHistory), steps[1..], maxHistory)
  }

  // ---- The numbering of watchers ----

  ghost predicate PaneFits(w: Watcher, p: PaneId, maxHistory: nat) {
    Windowed(w, p, maxHistory) && NoDuplicates(w.subscribers)
  }

  ghost predicate PanesFit(panes: map<PaneId, Watcher>, maxHistory: nat) {
    forall p :: p in panes ==> PaneFits(panes[p], p, maxHistory)
  }

  ghost predicate Numbered(h: Host) {
    && h.current.Keys == h.engine.panes.Keys
    && (forall p :: p in h.current ==> h.current[p] < |h.paneOf| && h.paneOf[h.current[p]] == p)
  }

  ghost predicate Holds(h: Host, a: Waiting) {
    a.watcher < |h.paneOf| && h.paneOf[a.watcher] == a.pane && (Registered(h, a) || a.watcher in h.retired)
  }

  ghost predicate Gone(h: Host, id: nat) {
    id < |h.paneOf| && (h.paneOf[id] in h.current ==> h.current[h.paneOf[id]] != id)
  }

  /** A suspended attach holds a watcher of its pane, registered or retired; no watcher is both. */
  ghost predicate Held(h: Host) {
    && (forall a :: a in h.waiting ==> Holds(h, a))
    && (forall id :: id in h.retired ==> Gone(h, id))
  }

  ghost predicate RetiredFit(h: Host) {
    forall id :: id in h.retired ==> NoDuplicates(h.retired[id].subscribers)
  }

  ghost predicate HostInv(h: Host, maxHistory: nat) {
    PanesFit(h.engine.panes, maxHistory) && Numbered(h) && Held(h) && RetiredFit(h)
  }

  lemma MovedKeepsRetired(h: Host, engine: E.State, leaving: Option<ClientId>, maxHistory: nat)
    requires PanesFit(h.engine.panes, maxHistory) && RetiredFit(h)
    ensures RetiredFit(Moved(h, engine, leaving))
  {
    var t := Moved(h, engine, leaving);
    forall id | id in t.retired
      ensures NoDuplicates(t.retired[id].subscribers)
    {
      if id < |h.paneOf| && Removed(h, engine, id) {
        assert PaneFits(h.engine.panes[h.paneOf[id]], h.paneOf[id], maxHistory);
      } else {
        assert id in h.retired;
      }
    }
  }

  lemma MovedKeepsNumbering(h: Host, engine: E.State, leaving: Option<ClientId>)
    requires Numbered(h) && Held(h) && engine.panes.Keys <= h.engine.panes.Keys
    ensures Numbered(Moved(h, engine, leaving)) && Held(Moved(h, engine, leaving))
  {
    var t := Moved(h, engine, leaving);
    forall a | a in t.waiting
      ensures Holds(t, a)
    {
      assert Holds(h, a);
      assert Registered(h, a) && !Registered(t, a) ==> Removed(h, engine, a.watcher);
    }
    forall id | id in t.retired
      ensures Gone(t, id)
    {
      assert id in h.retired ==> Gone(h, id);
    }
  }

  lemma AttachKeepsPanes(h: Host, c: ClientId, p: PaneId, since: Option<int>, maxHistory: nat)
    requires PanesFit(h.engine.panes, maxHistory)
    ensures PanesFit(AfterAttach(h, c, p, since).engine.panes, maxHistory)
    ensures AfterAttach(h, c, p, since).engine.panes.Keys == h.engine.panes.Keys + {p}
  {
    var w := if p in h.engine.panes then h.engine.panes[p] else FRESH_WATCHER;
    PanesFitOne(h.engine.panes, p, w.(subscribers := Subscribe(w.subscribers, c)), maxHistory);
  }

  lemma AttachKeepsNumbering(h: Host, t: Host, a: Waiting)
    requires Numbered(h) && Held(h)
    requires a.watcher == if a.pane in h.current then h.current[a.pane] else |h.paneOf|
    requires t.paneOf == if a.pane in h.current then h.paneOf else h.paneOf + [a.pane]
    requires t.current == h.current[a.pane := a.watcher] && t.engine.panes.Keys == h.engine.panes.Keys + {a.pane}
    requires t.retired == h.retired && (t.waiting == h.waiting || t.waiting == h.waiting + multiset{a})
    ensures Numbered(t) && Held(t)
  {
    assert Holds(t, a);
    forall x | x in t.waiting
      ensures Holds(t, x)
    {
      assert x != a ==> x in h.waiting && Holds(h, x);
    }
    forall id | id in t.retired
      ensures Gone(t, id)
    {
      assert Gone(h, id);
    }
  }

  lemma AttachKeepsHost(h: Host, c: ClientId, p: PaneId, since: Option<int>, maxHistory: nat)
    requires HostInv(h, maxHistory)
    ensures HostInv(AfterAttach(h, c, p, since), maxHistory)
  {
    AttachKeepsPanes(h, c, p, since, maxHistory);
    AttachKeepsNumbering(h, AfterAttach(h, c, p, since),
                         Waiting(c, p, if p in h.current then h.current[p] else |h.paneOf|));
  }

  lemma PanesFitOne(panes: map<PaneId, Watcher>, p: PaneId, w: Watcher, maxHistory: nat)
    requires PanesFit(panes, maxHistory) && PaneFits(w, p, maxHistory)
    ensures PanesFit(panes[p := w], maxHistory)
  {
  }

  lemma CapturedFits(w: Watcher, p: PaneId, text: string, maxHistory: nat)
    requires PaneFits(w, p, maxHistory)
    ensures PaneFits(Captured(w, p, text, maxHistory).0, p, maxHistory)
  {
    StoreKeepsWindow(w.(lastOutput := text), p, Snapshot, text, maxHistory);
  }

  lemma PolledFits(w: Watcher, p: PaneId, output: Option<string>, maxHistory: nat)
    requires PaneFits(w, p, maxHistory)
    ensures PaneFits(E.PolledWatcher(w, p, output, maxHistory), p, maxHistory)
  {
    if output.Some? && w.lastOutput != output.value {
      var d := ComputeDelta(w.lastOutput, output.value).value;
      StoreKeepsWindow(w.(lastOutput := output.value), p, d.0, d.1, maxHistory);
    }
  }

  lemma RegisteredCaptureKeepsHost(h: Host, a: Waiting, output: Option<string>, maxHistory: nat)
    requires HostInv(h, maxHistory) && a in h.waiting && Registered(h, a)
    ensures HostInv(AfterCapture(h, a, output, maxHistory), maxHistory)
  {
    var t := h.(waiting := h.waiting - multiset{a});
    var engine := E.FinishAttach(h.engine, a.client, a.pane, None, output, maxHistory).0;
    var w := h.engine.panes[a.pane];
    if output.Some? {
      CapturedFits(w, a.pane, output.value, maxHistory);
    }
    assert PanesFit(engine.panes, maxHistory);
    assert Numbered(t) && Held(t) && RetiredFit(t);
    MovedKeepsNumbering(t, engine, Some(a.client));
    MovedKeepsRetired(t, engine, Some(a.client), maxHistory);
  }

  lemma RetiredKeepsHost(h: Host, id: nat, w: Watcher, maxHistory: nat)
    requires HostInv(h, maxHistory) && id in h.retired && NoDuplicates(w.subscribers)
    ensures HostInv(h.(retired := h.retired[id := w]), maxHistory)
  {
    var t := h.(retired := h.retired[id := w]);
    forall a | a in t.waiting
      ensures Holds(t, a)
    {
      assert Holds(h, a);
    }
    forall x | x in t.retired
      ensures Gone(t, x)
    {
      assert Gone(h, x);
    }
  }

  lemma OrphanedCaptureKeepsHost(h: Host, a: Waiting, orphan: Watcher, output: Option<string>, maxHistory: nat)
    requires HostInv(h, maxHistory) && a.watcher in h.retired && NoDuplicates(orphan.subscribers)
    ensures HostInv(AfterOrphaned(h, a, orphan, output, maxHistory), maxHistory)
  {
    var engine := E.FinishOrphaned(h.engine, a.client, a.pane, orphan, output, maxHistory);
    assert engine.panes.Keys <= h.engine.panes.Keys && PanesFit(engine.panes, maxHistory);
    MovedKeepsNumbering(h, engine, None);
    MovedKeepsRetired(h, engine, None, maxHistory);
    RetiredKeepsHost(Moved(h, engine, None), a.watcher,
                     AfterOrphaned(h, a, orphan, output, maxHistory).retired[a.watcher], maxHistory);
  }

  lemma CaptureKeepsHost(h: Host, a: Waiting, output: Option<string>, maxHistory: nat)
    requires HostInv(h, maxHistory)
    ensures HostInv(AfterCapture(h, a, output, maxHistory), maxHistory)
  {
    if a in h.waiting {
      if Registered(h, a) {
        RegisteredCaptureKeepsHost(h, a, output, maxHistory);
      } else {
        var t := h.(waiting := h.waiting - multiset{a});
        assert Holds(h, a);
        assert Numbered(t) && Held(t) && RetiredFit(t);
        OrphanedCaptureKeepsHost(t, a, h.retired[a.watcher], output, maxHistory);
      }
    }
  }

  lemma LeaveKeepsHost(h: Host, engine: E.State, c: ClientId, maxHistory: nat)
    requires HostInv(h, maxHistory) && engine.panes.Keys <= h.engine.panes.Keys
    requires forall p :: p in engine.panes ==>
               engine.panes[p] == h.engine.panes[p]
               || engine.panes[p] == h.engine.panes[p].(subscribers := Unsubscribe(h.engine.panes[p].subscribers, c))
    ensures HostInv(Moved(h, engine, Some(c)), maxHistory)
  {
    MovedKeepsNumbering(h, engine, Some(c));
    MovedKeepsRetired(h, engine, Some(c), maxHistory);
  }

  lemma DetachKeepsHost(h: Host, c: ClientId, p: PaneId, maxHistory: nat)
    requires HostInv(h, maxHistory)
    ensures HostInv(Moved(h, E.Detach(h.engine, c, p), Some(c)), maxHistory)
  {
    LeaveKeepsHost(h, E.Detach(h.engine, c, p), c, maxHistory);
  }

  lemma DetachAllKeepsHost(h: Host, c: ClientId, maxHistory: nat)
    requires HostInv(h, maxHistory)
    ensures HostInv(Moved(h, E.DetachAll(h.engine, c), Some(c)), maxHistory)
  {
    LeaveKeepsHost(h, E.DetachAll(h.engine, c), c, maxHistory);
  }

  /** Attaches hold what they held if the same panes are watched through the same watchers. */
  lemma SameWatchers(h: Host, t: Host)
    requires Numbered(h) && Held(h)
    requires t.engine.panes.Keys == h.engine.panes.Keys && t.current == h.current && t.paneOf == h.paneOf
    requires t.waiting == h.waiting && t.retired.Keys == h.retired.Keys
    ensures Numbered(t) && Held(t)
  {
    forall a | a in t.waiting
      ensures Holds(t, a)
    {
      assert Holds(h, a);
    }
    forall id | id in t.retired
      ensures Gone(t, id)
    {
      assert Gone(h, id);
    }
  }

  lemma PollKeepsHost(h: Host, p: PaneId, output: Option<string>, maxHistory: nat)
    requires HostInv(h, maxHistory) && p in h.engine.panes
    ensures HostInv(Next(h, Poll(p, output), maxHistory), maxHistory)
  {
    var t := Next(h, Poll(p, output), maxHistory);
    PolledFits(h.engine.panes[p], p, output, maxHistory);
    PanesFitOne(h.engine.panes, p, t.engine.panes[p], maxHistory);
    SameWatchers(h, t);
  }

  lemma {:induction false} StepKeepsHost(h: Host, step: Step, maxHistory: nat)
    requires HostInv(h, maxHistory)
    ensures HostInv(Next(h, step, maxHistory), maxHistory)
  {
    match step
    case Attach(c, p, since) => AttachKeepsHost(h, c, p, since, maxHistory);
    case Capture(a, output) => CaptureKeepsHost(h, a, output, maxHistory);
    case Detach(c, p) => DetachKeepsHost(h, c, p, maxHistory);
    case DetachAll(c) => DetachAllKeepsHost(h, c, maxHistory);
    case Poll(p, output) =>
      if p in h.engine.panes {
        PollKeepsHost(h, p, output, maxHistory);
      }
    case PollRetired(id, output) => SameWatchers(h, AfterPollRetired(h, id, output, maxHistory));
  }

  // ---- What suspended attaches can break ----

  /** The timer runs only if some pane is watched. */
  predicate NoIdleTimer(h: Host) {
    h.engine.timerSet ==> h.engine.panes != map[]
  }

  /** While some watched pane has events the timer runs. */
  predicate TimerRuns(h: Host) {
    (exists p :: p in h.engine.panes && h.engine.panes[p].streamSeq > 0) ==> h.engine.timerSet
  }

  predicate NoneUnwatched(h: Host) {
    forall p :: p in h.engine.panes ==> h.engine.panes[p].subscribers != []
  }

  /** A client gives up a pane by detaching, or because its first capture for the registered watcher fails. */
  predicate GivesUp(h: Host, step: Step, c: ClientId, p: PaneId) {
    match step
    case Detach(client, pane) => client == c && pane == p
    case DetachAll(client) => client == c
    case Capture(a, output) => a.client == c && a.pane == p && Registered(h, a) && output.None?
    case _ => false
  }

  /** A subscriber that gives nothing up finds its pane unwatched after the step. */
  ghost predicate LosesPane(h: Host, step: Step, maxHistory: nat) {
    exists p, c :: p in h.engine.panes && c in h.engine.panes[p].subscribers && !GivesUp(h, step, c, p)
                   && p !in Next(h, step, maxHistory).engine.panes
  }

  predicate NobodyElse(w: Watcher, client: ClientId) {
    forall c :: c in w.subscribers ==> c == client
  }

  lemma NobodyElseLeft(w: Watcher, client: ClientId)
    ensures Unsubscribe(w.subscribers, client) == [] <==> NobodyElse(w, client)
  {
    var left := Unsubscribe(w.subscribers, client);
    if left != [] {
      assert left[0] in left;
    }
  }

  /** A capture returns for a deleted watcher while nothing is watched. */
  predicate StartsIdleTimer(h: Host, step: Step) {
    && step.Capture? && step.attach in h.waiting && !Registered(h, step.attach) && step.output.Some?
    && h.engine.panes == map[]
  }

  /** A poll publishes the first event of a watcher while the timer is not running. */
  predicate PublishesUntimed(h: Host, step: Step) {
    && step.Poll? && step.pane in h.engine.panes && !h.engine.timerSet
    && h.engine.panes[step.pane].streamSeq == 0
    && step.output.Some? && step.output.value != h.engine.panes[step.pane].lastOutput
  }

  /** A first capture fails after a poll already published, and nobody else watches the pane. */
  predicate LeavesUnwatched(h: Host, step: Step) {
    && step.Capture? && step.attach in h.waiting && Registered(h, step.attach) && step.output.None?
    && h.engine.panes[step.attach.pane].streamSeq > 0
    && NobodyElse(h.engine.panes[step.attach.pane], step.attach.client)
  }

  /**
   * A capture fails for a deleted watcher without events that nobody else held, while somebody
   * watches the pane anew.
   */
  predicate DropsReplacement(h: Host, step: Step) {
    && step.Capture? && step.attach in h.waiting && !Registered(h, step.attach) && step.output.None?
    && step.attach.watcher in h.retired && step.attach.pane in h.engine.panes
    && h.engine.panes[step.attach.pane].subscribers != []
    && h.retired[step.attach.watcher].streamSeq == 0
    && NobodyElse(h.retired[step.attach.watcher], step.attach.client)
  }

  lemma CaptureTimer(h: Host, a: Waiting, output: Option<string>, maxHistory: nat)
    requires Held(h) && NoIdleTimer(h)
    ensures NoIdleTimer(AfterCapture(h, a, output, maxHistory)) <==> !StartsIdleTimer(h, Capture(a, output))
  {
    if a in h.waiting {
      assert Holds(h, a);
      if Registered(h, a) && output.Some? {
        assert a.pane in AfterCapture(h, a, output, maxHistory).engine.panes;
      }
    }
  }

  lemma {:induction false} TimerStep(h: Host, step: Step, maxHistory: nat)
    requires Held(h) && NoIdleTimer(h)
    ensures NoIdleTimer(Next(h, step, maxHistory)) <==> !StartsIdleTimer(h, step)
  {
    match step
    case Attach(c, p, since) => assert p in Next(h, step, maxHistory).engine.panes;
    case Capture(a, output) => CaptureTimer(h, a, output, maxHistory);
    case Poll(p, _) => assert p in h.engine.panes ==> p in Next(h, step, maxHistory).engine.panes;
    case _ =>
  }

  lemma PublishStep(h: Host, p: PaneId, output: Option<string>, maxHistory: nat)
    requires TimerRuns(h) && p in h.engine.panes
    ensures TimerRuns(Next(h, Poll(p, output), maxHistory)) <==> !PublishesUntimed(h, Poll(p, output))
  {
    var t := Next(h, Poll(p, output), maxHistory);
    assert t.engine.panes[p].streamSeq ==
           h.engine.panes[p].streamSeq + if output.Some? && output.value != h.engine.panes[p].lastOutput then 1 else 0;
    assert forall q :: q in t.engine.panes && q != p ==> t.engine.panes[q] == h.engine.panes[q];
  }

  /** Watchers that lose subscribers, and watchers that are dropped, leave the timer right. */
  lemma FewerWatched(panes: map<PaneId, Watcher>, engine: E.State)
    requires (exists p :: p in panes && panes[p].streamSeq > 0) ==> engine.timerSet
    requires forall p :: p in engine.panes ==> p in panes && engine.panes[p].streamSeq == panes[p].streamSeq
    ensures (exists p :: p in engine.panes && engine.panes[p].streamSeq > 0) ==> E.StopIfIdle(engine).timerSet
  {
  }

  lemma CaptureTimerRuns(h: Host, a: Waiting, output: Option<string>, maxHistory: nat)
    requires TimerRuns(h)
    ensures TimerRuns(AfterCapture(h, a, output, maxHistory))
  {
    if a in h.waiting && output.None? {
      var t := AfterCapture(h, a, output, maxHistory);
      FewerWatched(h.engine.panes, t.engine.(timerSet := h.engine.timerSet));
    }
  }

  lemma AttachTimerRuns(h: Host, c: ClientId, p: PaneId, since: Option<int>)
    requires TimerRuns(h)
    ensures TimerRuns(AfterAttach(h, c, p, since))
  {
    var t := AfterAttach(h, c, p, since);
    assert forall q :: q in t.engine.panes && q != p ==> q in h.engine.panes && t.engine.panes[q] == h.engine.panes[q];
  }

  lemma LeaveTimerRuns(h: Host, engine: E.State)
    requires TimerRuns(h) && engine.timerSet == (h.engine.timerSet && engine.panes != map[])
    requires forall p :: p in engine.panes ==> p in h.engine.panes
                                               && engine.panes[p].streamSeq == h.engine.panes[p].streamSeq
    ensures (exists p :: p in engine.panes && engine.panes[p].streamSeq > 0) ==> engine.timerSet
  {
  }

  lemma {:induction false} TimerRunsStep(h: Host, step: Step, maxHistory: nat)
    requires TimerRuns(h)
    ensures TimerRuns(Next(h, step, maxHistory)) <==> !PublishesUntimed(h, step)
  {
    match step
    case Attach(c, p, since) => AttachTimerRuns(h, c, p, since);
    case Capture(a, output) => CaptureTimerRuns(h, a, output, maxHistory);
    case Detach(c, p) =>
      if p in h.engine.panes {
        LeaveTimerRuns(h, E.Detach(h.engine, c, p));
      }
    case DetachAll(c) =>
      if h.engine.panes != map[] {
        LeaveTimerRuns(h, E.DetachAll(h.engine, c));
      }
    case Poll(p, output) =>
      if p in h.engine.panes {
        PublishStep(h, p, output, maxHistory);
      }
    case _ =>
  }

  lemma {:induction false} CaptureUnwatched(h: Host, a: Waiting, output: Option<string>, maxHistory: nat)
    requires Held(h) && NoneUnwatched(h)
    ensures NoneUnwatched(AfterCapture(h, a, output, maxHistory)) <==> !LeavesUnwatched(h, Capture(a, output))
  {
    if a in h.waiting && Registered(h, a) {
      var t := AfterCapture(h, a, output, maxHistory);
      NobodyElseLeft(h.engine.panes[a.pane], a.client);
      if LeavesUnwatched(h, Capture(a, output)) {
        assert t.engine.panes[a.pane].subscribers == [];
      }
    }
  }

  lemma {:induction false} UnwatchedStep(h: Host, step: Step, maxHistory: nat)
    requires Held(h) && NoneUnwatched(h)
    ensures NoneUnwatched(Next(h, step, maxHistory)) <==> !LeavesUnwatched(h, step)
  {
    match step
    case Attach(c, p, since) => assert c in Next(h, step, maxHistory).engine.panes[p].subscribers;
    case Capture(a, output) => CaptureUnwatched(h, a, output, maxHistory);
    case _ =>
  }

  lemma {:induction false} DropStep(h: Host, step: Step, maxHistory: nat)
    ensures LosesPane(h, step, maxHistory) <==> DropsReplacement(h, step)
  {
    if DropsReplacement(h, step) {
      var p := step.attach.pane;
      var c := h.engine.panes[p].subscribers[0];
      NobodyElseLeft(h.retired[step.attach.watcher], step.attach.client);
      assert c in h.engine.panes[p].subscribers && !GivesUp(h, step, c, p)
          && p !in Next(h, step, maxHistory).engine.panes;
    } else {
      forall p, c | p in h.engine.panes && c in h.engine.panes[p].subscribers && !GivesUp(h, step, c, p)
        ensures p in Next(h, step, maxHistory).engine.panes
      {
        KeepsPane(h, step, c, p, maxHistory);
      }
    }
  }

  lemma KeepsPane(h: Host, step: Step, c: ClientId, p: PaneId, maxHistory: nat)
    requires p in h.engine.panes && c in h.engine.panes[p].subscribers && !GivesUp(h, step, c, p)
    requires !DropsReplacement(h, step)
    ensures p in Next(h, step, maxHistory).engine.panes
  {
    match step
    case Capture(a, output) => CaptureKeepsPane(h, a, output, c, p, maxHistory);
    case Detach(client, _) => StaysSubscribed(h.engine.panes[p].subscribers, client, c);
    case DetachAll(client) => StaysSubscribed(h.engine.panes[p].subscribers, client, c);
    case _ =>
  }

  lemma StaysSubscribed(subscribers: seq<ClientId>, leaving: ClientId, c: ClientId)
    requires c in subscribers
    ensures c != leaving ==> Unsubscribe(subscribers, leaving) != []
  {
    assert c != leaving ==> c in Unsubscribe(subscribers, leaving);
  }

  lemma CaptureKeepsPane(h: Host, a: Waiting, output: Option<string>, c: ClientId, p: PaneId, maxHistory: nat)
    requires p in h.engine.panes && c in h.engine.panes[p].subscribers && !GivesUp(h, Capture(a, output), c, p)
    requires !DropsReplacement(h, Capture(a, output))
    ensures p in AfterCapture(h, a, output, maxHistory).engine.panes
  {
    StaysSubscribed(h.engine.panes[p].subscribers, a.client, c);
    if a.watcher in h.retired {
      NobodyElseLeft(h.retired[a.watcher], a.client);
    }
  }

  /**
   * Exactly when the timer runs after a step: an attach answered at once and a capture that
   * returns text start it, whatever watcher they are for; losing the last pane stops it.
   */
  lemma TimerIff(h: Host, step: Step, maxHistory: nat)
    requires Held(h)
    ensures var t, was := Next(h, step, maxHistory), h.engine.timerSet; var watched := t.engine.panes != map[];
            t.engine.timerSet <==>
            match step
            case Attach(_, p, _) => was || (p in h.engine.panes && h.engine.panes[p].streamSeq > 0)
            case Capture(a, output) =>
              if a !in h.waiting then was else if output.Some? then true else was && watched
            case Detach(_, p) => was && (p in h.engine.panes ==> watched)
            case DetachAll(_) => was && (h.engine.panes != map[] ==> watched)
            case _ => was
  {
    if step.Capture? && step.attach in h.waiting {
      assert Holds(h, step.attach);
    }
  }

  // ---- Runs ----

  /** From the start, every suspended attach holds a watcher. */
  lemma {:induction false} RunKeepsHost(h: Host, steps: seq<Step>, maxHistory: nat)
    requires HostInv(h, maxHistory)
    ensures HostInv(Run(h, steps, maxHistory), maxHistory)
    decreases |steps|
  {
    if steps != [] {
      StepKeepsHost(h, steps[0], maxHistory);
      RunKeepsHost(Next(h, steps[0], maxHistory), steps[1..], maxHistory);
    }
  }

  ghost predicate Always(h: Host, steps: seq<Step>, maxHistory: nat, holds: Host -> bool)
    decreases |steps|
  {
    holds(h) && (steps == [] || Always(Next(h, steps[0], maxHistory), steps[1..], maxHistory, holds))
  }

  ghost predicate Never(h: Host, steps: seq<Step>, maxHistory: nat, happens: (Host, Step) -> bool)
    decreases |steps|
  {
    steps == []
    || (!happens(h, steps[0]) && Never(Next(h, steps[0], maxHistory), steps[1..], maxHistory, happens))
  }

  /** What each step from a state where it holds keeps iff it is not of a kind, a run keeps iff it has no such step. */
  lemma {:induction false} AlwaysIffNever(h: Host, steps: seq<Step>, maxHistory: nat, holds: Host -> bool,
                                          breaks: (Host, Step) -> bool)
    requires HostInv(h, maxHistory) && holds(h)
    requires forall g, step :: HostInv(g, maxHistory) && holds(g) ==>
               (holds(Next(g, step, maxHistory)) <==> !breaks(g, step))
    ensures Always(h, steps, maxHistory, holds) <==> Never(h, steps, maxHistory, breaks)
    decreases |steps|
  {
    if steps != [] {
      var t := Next(h, steps[0], maxHistory);
      StepKeepsHost(h, steps[0], maxHistory);
      if holds(t) {
        AlwaysIffNever(t, steps[1..], maxHistory, holds, breaks);
      }
    }
  }

  /** A run never does one thing iff it never does another that each step does exactly when it does the first. */
  lemma {:induction false} NeverIffNever(h: Host, steps: seq<Step>, maxHistory: nat, one: (Host, Step) -> bool,
                                         other: (Host, Step) -> bool)
    requires forall g, step :: one(g, step) <==> other(g, step)
    ensures Never(h, steps, maxHistory, one) <==> Never(h, steps, maxHistory, other)
    decreases |steps|
  {
    if steps != [] {
      NeverIffNever(Next(h, steps[0], maxHistory), steps[1..], maxHistory, one, other);
    }
  }

  /**
   * Over every run. The timer runs only while a pane is watched iff no capture returns for a
   * deleted watcher while nothing is watched. It does run while a watched pane has events iff no
   * poll publishes a watcher's first event without it. Every watcher has a subscriber iff no
   * first capture fails after a poll published for its client alone. Nobody loses a pane without
   * giving it up iff no failing capture of a deleted watcher finds a new one in its place.
   */
  lemma {:induction false} SoundIffSafe(h: Host, steps: seq<Step>, maxHistory: nat)
    requires HostInv(h, maxHistory)
    ensures NoIdleTimer(h) ==>
              (Always(h, steps, maxHistory, NoIdleTimer) <==> Never(h, steps, maxHistory, StartsIdleTimer))
    ensures TimerRuns(h) ==>
              (Always(h, steps, maxHistory, TimerRuns) <==> Never(h, steps, maxHistory, PublishesUntimed))
    ensures NoneUnwatched(h) ==>
              (Always(h, steps, maxHistory, NoneUnwatched) <==> Never(h, steps, maxHistory, LeavesUnwatched))
    ensures Never(h, steps, maxHistory, (g, step) => LosesPane(g, step, maxHistory))
            <==> Never(h, steps, maxHistory, DropsReplacement)
  {
    forall g, step
      ensures HostInv(g, maxHistory) && NoIdleTimer(g) ==>
                (NoIdleTimer(Next(g, step, maxHistory)) <==> !StartsIdleTimer(g, step))
      ensures TimerRuns(g) ==> (TimerRuns(Next(g, step, maxHistory)) <==> !PublishesUntimed(g, step))
      ensures HostInv(g, maxHistory) && NoneUnwatched(g) ==>
                (NoneUnwatched(Next(g, step, maxHistory)) <==> !LeavesUnwatched(g, step))
      ensures LosesPane(g, step, maxHistory) <==> DropsReplacement(g, step)
    {
      if HostInv(g, maxHistory) && NoIdleTimer(g) {
        TimerStep(g, step, maxHistory);
      }
      if TimerRuns(g) {
        TimerRunsStep(g, step, maxHistory);
      }
      if HostInv(g, maxHistory) && NoneUnwatched(g) {
        UnwatchedStep(g, step, maxHistory);
      }
      DropStep(g, step, maxHistory);
    }
    if NoIdleTimer(h) {
      AlwaysIffNever(h, steps, maxHistory, NoIdleTimer, StartsIdleTimer);
    }
    if TimerRuns(h) {
      AlwaysIffNever(h, steps, maxHistory, TimerRuns, PublishesUntimed);
    }
    if NoneUnwatched(h) {
      AlwaysIffNever(h, steps, maxHistory, NoneUnwatched, LeavesUnwatched);
    }
    NeverIffNever(h, steps, maxHistory, (g, step) => LosesPane(g, step, maxHistory), DropsReplacement);
  }

  lemma RunCons(h: Host, step: Step, rest: seq<Step>, maxHistory: nat)
    ensures Run(h, [step] + rest, maxHistory) == Run(Next(h, step, maxHistory), rest, maxHistory)
  {
    assert ([step] + rest)[1..] == rest;
  }

  const ATTACHED := START.(
    engine := E.State(map["%1" := FRESH_WATCHER.(subscribers := ["a"])], false, []),
    paneOf := ["%1"],
    current := map["%1" := 0],
    waiting := multiset{Waiting("a", "%1", 0)})

  const DETACHED := START.(
    paneOf := ["%1"],
    retired := map[0 := FRESH_WATCHER],
    waiting := multiset{Waiting("a", "%1", 0)})

  lemma FirstSteps(maxHistory: nat)
    ensures Next(START, Attach("a", "%1", None), maxHistory) == ATTACHED
    ensures Next(ATTACHED, Detach("a", "%1"), maxHistory) == DETACHED
  {
    assert Subscribe([], "a") == ["a"] && Unsubscribe(["a"], "a") == [];
    assert map["%1" := FRESH_WATCHER.(subscribers := ["a"])] - {"%1"} == map[];
    var t := Next(ATTACHED, Detach("a", "%1"), maxHistory);
    assert t.engine.panes == map[] && t.current == map[];
    assert t.retired.Keys == {0};
    assert t.retired == map[0 := FRESH_WATCHER];
  }

  const LEFT_EARLY := [Attach("a", "%1", None), Detach("a", "%1")]

  lemma LeftEarly(rest: seq<Step>, maxHistory: nat)
    ensures Run(START, LEFT_EARLY + rest, maxHistory) == Run(DETACHED, rest, maxHistory)
  {
    FirstSteps(maxHistory);
    RunCons(START, Attach("a", "%1", None), [Detach("a", "%1")] + rest, maxHistory);
    RunCons(ATTACHED, Detach("a", "%1"), rest, maxHistory);
    assert LEFT_EARLY + rest == [Attach("a", "%1", None)] + ([Detach("a", "%1")] + rest);
  }

  /** A client detaches while its first capture is under way; the capture then starts the timer for nobody. */
  lemma TimerForNobody(maxHistory: nat)
    ensures var h := Run(START, LEFT_EARLY + [Capture(Waiting("a", "%1", 0), Some("x"))], maxHistory);
            h.engine.timerSet && h.engine.panes == map[]
  {
    LeftEarly([Capture(Waiting("a", "%1", 0), Some("x"))], maxHistory);
    RunCons(DETACHED, Capture(Waiting("a", "%1", 0), Some("x")), [], maxHistory);
    assert Next(DETACHED, Capture(Waiting("a", "%1", 0), Some("x")), maxHistory).engine.timerSet;
  }

  const WATCHED_AGAIN := [Attach("b", "%1", None), Capture(Waiting("b", "%1", 1), Some("x"))]

  const AGAIN := DETACHED.(
    engine := E.State(map["%1" := FRESH_WATCHER.(subscribers := ["b"])], false, []),
    paneOf := ["%1", "%1"],
    current := map["%1" := 1],
    waiting := multiset{Waiting("a", "%1", 0), Waiting("b", "%1", 1)})

  lemma AttachedAgain(maxHistory: nat)
    ensures Next(DETACHED, Attach("b", "%1", None), maxHistory) == AGAIN
  {
    assert Subscribe([], "b") == ["b"];
  }

  lemma WatchedAgain(maxHistory: nat)
    ensures var h := Run(DETACHED, WATCHED_AGAIN, maxHistory);
            && h.engine.panes.Keys == {"%1"} && h.engine.panes["%1"].subscribers == ["b"] && h.engine.timerSet
            && h.paneOf == ["%1", "%1"] && h.current == map["%1" := 1] && h.retired == map[0 := FRESH_WATCHER]
            && h.waiting == multiset{Waiting("a", "%1", 0)}
  {
    var capture := Capture(Waiting("b", "%1", 1), Some("x"));
    AttachedAgain(maxHistory);
    RunCons(DETACHED, Attach("b", "%1", None), [capture], maxHistory);
    RunCons(AGAIN, capture, [], maxHistory);
    assert WATCHED_AGAIN == [Attach("b", "%1", None)] + ([capture] + []);
    var h := Next(AGAIN, capture, maxHistory);
    assert h.retired == map[0 := FRESH_WATCHER];
  }

  /**
   * The same client's capture fails after another client began to watch the pane: the
   * other client's watcher is deleted under it, and the timer with it.
   */
  lemma ReplacementDropped(maxHistory: nat)
    ensures var watched := Run(START, LEFT_EARLY + WATCHED_AGAIN, maxHistory);
            var dropped := Next(watched, Capture(Waiting("a", "%1", 0), None), maxHistory);
            && "%1" in watched.engine.panes && watched.engine.panes["%1"].subscribers == ["b"]
                && watched.engine.timerSet
            && dropped.engine.panes == map[] && !dropped.engine.timerSet
  {
    LeftEarly(WATCHED_AGAIN, maxHistory);
    WatchedAgain(maxHistory);
    assert Unsubscribe([], "a") == [];
  }

  const OTHER_PANE := [Attach("b", "%2", None), Capture(Waiting("b", "%2", 0), Some("y"))]

  lemma OtherPaneWatched(maxHistory: nat)
    ensures var h := Run(START, OTHER_PANE, maxHistory);
            && h.engine.panes.Keys == {"%2"} && h.engine.timerSet && h.paneOf == ["%2"] && h.current == map["%2" := 0]
            && h.waiting == multiset{}
  {
    var capture := Capture(Waiting("b", "%2", 0), Some("y"));
    var attached := Next(START, Attach("b", "%2", None), maxHistory);
    RunCons(START, Attach("b", "%2", None), [capture], maxHistory);
    RunCons(attached, capture, [], maxHistory);
    assert OTHER_PANE == [Attach("b", "%2", None)] + ([capture] + []);
    assert attached.waiting == multiset{Waiting("b", "%2", 0)};
    assert attached.engine.panes.Keys == {"%2"} && Registered(attached, Waiting("b", "%2", 0));
  }

  lemma {:induction false} RunAppend(h: Host, steps: seq<Step>, step: Step, maxHistory: nat)
    ensures Run(h, steps + [step], maxHistory) == Next(Run(h, steps, maxHistory), step, maxHistory)
    decreases |steps|
  {
    if steps == [] {
      RunCons(h, step, [], maxHistory);
      assert [] + [step] == [step] + [];
    } else {
      assert (steps + [step])[1..] == steps[1..] + [step];
      RunAppend(Next(h, steps[0], maxHistory), steps[1..], step, maxHistory);
    }
  }

  /**
   * Client "a" is suspended in its attach to pane %1, whose watcher has the number 1; another pane
   * keeps the timer running.
   */
  ghost predicate FirstCaptureUnderWay(h: Host, streamSeq: nat) {
    && "%1" in h.engine.panes && h.engine.panes["%1"].subscribers == ["a"]
        && h.engine.panes["%1"].streamSeq == streamSeq
    && "%1" in h.current && h.current["%1"] == 1 && Waiting("a", "%1", 1) in h.waiting
    && "%2" in h.engine.panes && h.engine.timerSet
  }

  lemma SecondAttach(h: Host, maxHistory: nat)
    requires h.engine.panes.Keys == {"%2"} && h.engine.timerSet && h.paneOf == ["%2"] && h.current == map["%2" := 0]
    ensures FirstCaptureUnderWay(Next(h, Attach("a", "%1", None), maxHistory), 0)
    ensures Next(h, Attach("a", "%1", None), maxHistory).engine.panes["%1"].lastOutput == ""
  {
    assert Subscribe([], "a") == ["a"];
  }

  lemma PollMeanwhile(h: Host, maxHistory: nat)
    requires FirstCaptureUnderWay(h, 0) && h.engine.panes["%1"].lastOutput == ""
    ensures FirstCaptureUnderWay(Next(h, Poll("%1", Some("x")), maxHistory), 1)
  {
  }

  lemma CaptureFails(h: Host, maxHistory: nat)
    requires FirstCaptureUnderWay(h, 1)
    ensures var t := Next(h, Capture(Waiting("a", "%1", 1), None), maxHistory);
            t.engine.timerSet && "%1" in t.engine.panes && t.engine.panes["%1"].subscribers == []
  {
    assert Unsubscribe(["a"], "a") == [];
    assert "%2" in Next(h, Capture(Waiting("a", "%1", 1), None), maxHistory).engine.panes;
  }

  /**
   * While the timer runs for another pane, a poll publishes before the first capture fails: the
   * pane stays watched by nobody.
   */
  lemma {:induction false} WatchedByNobody(maxHistory: nat)
    ensures var steps := OTHER_PANE + [Attach("a", "%1", None)] + [Poll("%1", Some("x"))]
        + [Capture(Waiting("a", "%1", 1), None)];
            var h := Run(START, steps, maxHistory);
            h.engine.timerSet && "%1" in h.engine.panes && h.engine.panes["%1"].subscribers == []
  {
    var attach, poll, fail := Attach("a", "%1", None), Poll("%1", Some("x")), Capture(Waiting("a", "%1", 1), None);
    OtherPaneWatched(maxHistory);
    RunAppend(START, OTHER_PANE, attach, maxHistory);
    SecondAttach(Run(START, OTHER_PANE, maxHistory), maxHistory);
    RunAppend(START, OTHER_PANE + [attach], poll, maxHistory);
    PollMeanwhile(Run(START, OTHER_PANE + [attach], maxHistory), maxHistory);
    RunAppend(START, OTHER_PANE + [attach] + [poll], fail, maxHistory);
    CaptureFails(Run(START, OTHER_PANE + [attach] + [poll], maxHistory), maxHistory);
  }
}

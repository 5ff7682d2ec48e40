/**
 * The polling engine: watched panes, the poll timer, and everything handed to the
 * output callbacks, first as functions on values, then as the class that updates
 * watchers in place.
 */
module Engine {
  import opened Common
  import opened Watchers
  import Sequenced

  /** One call of the output or of the error callback. */
  datatype Sent = Output(client: ClientId, event: Event) | PollFailed(client: ClientId, paneId: PaneId)

  datatype State = State(panes: map<PaneId, Watcher>, timerSet: bool, sent: seq<Sent>)

  const IDLE := State(map[], false, [])

  function Addressed(client: ClientId, events: seq<Event>): seq<Sent> {
    seq(|events|, i requires 0 <= i < |events| => Output(client, events[i]))
  }

  function Broadcast(subscribers: seq<ClientId>, e: Event): seq<Sent> {
    seq(|subscribers|, i requires 0 <= i < |subscribers| => Output(subscribers[i], e))
  }

  function ReportFailure(subscribers: seq<ClientId>, pane: PaneId): seq<Sent> {
    seq(|subscribers|, i requires 0 <= i < |subscribers| => PollFailed(subscribers[i], pane))
  }

  function FirstAttachMetadata(w: Watcher, pane: PaneId, since: Option<int>): Metadata {
    var sorted := SortBySeq(w.history);
    Metadata(pane, since, w.streamSeq, OldestSeq(sorted), LatestSeq(sorted), 0, false, false, false)
  }

  /** An attach up to its reply, or up to the first capture when nothing was published yet. */
  function BeginAttach(s: State, client: ClientId, pane: PaneId, since: Option<int>): (State, Option<Metadata>) {
    var w0 := if pane in s.panes then s.panes[pane] else FRESH_WATCHER;
    var w := w0.(subscribers := Subscribe(w0.subscribers, client));
    var panes := s.panes[pane := w];
    if w.streamSeq > 0 then
      var (events, meta) := AttachReply(w, pane, since);
      (State(panes, true, s.sent + Addressed(client, events)), Some(meta))
    else (s.(panes := panes), None)
  }

  function StopIfIdle(s: State): State {
    s.(timerSet := s.timerSet && s.panes != map[])
  }

  /** The rest of an attach whose watcher is still the one registered for the pane. */
  function FinishAttach(s: State, client: ClientId, pane: PaneId, since: Option<int>, output: Option<string>,
                        maxHistory: nat)
    : (State, Option<Metadata>)
    requires pane in s.panes
  {
    var w := s.panes[pane];
    match output
    case Some(text) =>
      var (w', e) := Captured(w, pane, text, maxHistory);
      (State(s.panes[pane := w'], true, s.sent + [Output(client, e)]), Some(FirstAttachMetadata(w', pane, since)))
    case None =>
      var w' := w.(subscribers := Unsubscribe(w.subscribers, client));
      var panes := if w'.subscribers == [] && w'.streamSeq == 0 then s.panes - {pane} else s.panes[pane := w'];
      (StopIfIdle(s.(panes := panes)), None)
  }

  /**
   * The rest of an attach whose watcher was deleted, or replaced, during the
   * capture: the event still goes to the client and the timer is still started, and
   * a failure still deletes whatever watcher the pane has now.
   */
  function FinishOrphaned(s: State, client: ClientId, pane: PaneId, orphan: Watcher, output: Option<string>,
                          maxHistory: nat)
    : State
  {
    match output
    case Some(text) => State(s.panes, true, s.sent + [Output(client, Captured(orphan, pane, text, maxHistory).1)])
    case None =>
      StopIfIdle(if Unsubscribe(orphan.subscribers, client) == [] && orphan.streamSeq == 0
                 then s.(panes := s.panes - {pane}) else s)
  }

  /** An attach during whose capture nothing else happens. */
  function Attach(s: State, client: ClientId, pane: PaneId, since: Option<int>, output: Option<string>, maxHistory: nat)
    : (State, Option<Metadata>)
  {
    var (t, done) := BeginAttach(s, client, pane, since);
    if done.Some? then (t, done) else FinishAttach(t, client, pane, since, output, maxHistory)
  }

  function Detach(s: State, client: ClientId, pane: PaneId): State {
    if pane !in s.panes then s
    else
      var w := s.panes[pane].(subscribers := Unsubscribe(s.panes[pane].subscribers, client));
      StopIfIdle(s.(panes := if w.subscribers == [] then s.panes - {pane} else s.panes[pane := w]))
  }

  /** Detaching from every pane: the client is gone everywhere and the panes nobody else watches are dropped. */
  function DetachAll(s: State, client: ClientId): State {
    var left := map p | p in s.panes && Unsubscribe(s.panes[p].subscribers, client) != [] ::
      s.panes[p].(subscribers := Unsubscribe(s.panes[p].subscribers, client));
    if s.panes == map[] then s else StopIfIdle(s.(panes := left))
  }

  /** One pane's share of a poll, from its capture on. */
  function PollPane(s: State, pane: PaneId, output: Option<string>, maxHistory: nat): State
    requires pane in s.panes
  {
    var w := s.panes[pane];
    s.(panes := s.panes[pane := PolledWatcher(w, pane, output, maxHistory)],
       sent := s.sent + PollOutput(w, pane, output, maxHistory))
  }

  function PolledWatcher(w: Watcher, pane: PaneId, output: Option<string>, maxHistory: nat): Watcher {
    if output.Some? then Polled(w, pane, output.value, maxHistory).0 else w
  }

  function PollOutput(w: Watcher, pane: PaneId, output: Option<string>, maxHistory: nat): seq<Sent> {
    match output
    case None => ReportFailure(w.subscribers, pane)
    case Some(text) =>
      match Polled(w, pane, text, maxHistory).1
      case None => []
      case Some(e) => Broadcast(w.subscribers, e)
  }

  // ---- The class ----

  class PaneWatcher {
    ghost const paneId: PaneId
    var subscribers: seq<ClientId>
    var lastOutput: string
    var streamSeq: nat
    var history: seq<Event>

    constructor (ghost paneId: PaneId)
      ensures Value() == FRESH_WATCHER && this.paneId == paneId
    {
      this.paneId := paneId;
      subscribers, lastOutput, streamSeq, history := [], "", 0, [];
    }

    function Value(): Watcher
      reads this
    {
      Watcher(subscribers, lastOutput, streamSeq, history)
    }
  }

  class BridgeEngine {
    const maxHistoryEvents: nat
    var panes: map<PaneId, PaneWatcher>
    var pollTimer: bool
    var isPolling: bool
    var sent: seq<Sent>

    constructor (maxHistoryEvents: nat)
      ensures Valid() && Model() == IDLE && !isPolling && panes == map[]
      ensures this.maxHistoryEvents == maxHistoryEvents
    {
      this.maxHistoryEvents := maxHistoryEvents;
      panes, pollTimer, isPolling, sent := map[], false, false, [];
    }

    /** Every watcher is registered for its own pane, so different panes have different watchers. */
    ghost predicate Valid()
      reads this
    {
      forall p :: p in panes ==> panes[p].paneId == p
    }

    /** The watcher is the one currently registered for its pane. */
    ghost predicate Registered(watcher: PaneWatcher)
      reads this
    {
      watcher.paneId in panes && panes[watcher.paneId] == watcher
    }

    function Model(): State
      reads this`panes, this`pollTimer, this`sent, panes.Values
    {
      State(WatchedPanes(), pollTimer, sent)
    }

    function WatchedPanes(): map<PaneId, Watcher>
      reads this`panes, panes.Values
    {
      map p | p in panes :: panes[p].Value()
    }

    lemma IdleModel()
      ensures WatchedPanes() == map[] <==> panes == map[]
    {
      assert WatchedPanes().Keys == panes.Keys;
    }

    method EnsureStarted()
      modifies this`pollTimer
      ensures pollTimer
    {
      if pollTimer { return; }
      pollTimer := true;
    }

    method StopWhenIdle()
      modifies this`pollTimer
      ensures pollTimer == (old(pollTimer) && panes != map[])
    {
      if |panes| > 0 || !pollTimer { return; }
      pollTimer := false;
    }

    method StopWhenIdleModel()
      modifies this`pollTimer
      ensures pollTimer == (old(pollTimer) && WatchedPanes() != map[])
    {
      IdleModel();
      StopWhenIdle();
    }

    /** Numbers an event and stores it in the bounded history. */
    method Publish(watcher: PaneWatcher, pane: PaneId, mode: Mode, chunk: string) returns (e: Event)
      modifies watcher
      ensures e == NextEvent(old(watcher.Value()), pane, mode, chunk)
      ensures watcher.Value() == Store(old(watcher.Value()), e, maxHistoryEvents)
    {
      watcher.streamSeq := watcher.streamSeq + 1;
      e := Event(mode, pane, chunk, watcher.streamSeq);
      watcher.history := watcher.history + [e];
      if |watcher.history| > maxHistoryEvents {
        watcher.history := watcher.history[1..];
      }
    }

    method Emit(client: ClientId, events: seq<Event>)
      modifies this`sent
      ensures sent == old(sent) + Addressed(client, events)
    {
      for i := 0 to |events|
        invariant sent == old(sent) + Addressed(client, events)[..i]
      {
        sent := sent + [Output(client, events[i])];
      }
    }

    method EmitToAll(subscribers: seq<ClientId>, e: Event)
      modifies this`sent
      ensures sent == old(sent) + Broadcast(subscribers, e)
    {
      for i := 0 to |subscribers|
        invariant sent == old(sent) + Broadcast(subscribers, e)[..i]
      {
        sent := sent + [Output(subscribers[i], e)];
      }
    }

    method EmitFailure(subscribers: seq<ClientId>, pane: PaneId)
      modifies this`sent
      ensures sent == old(sent) + ReportFailure(subscribers, pane)
    {
      for i := 0 to |subscribers|
        invariant sent == old(sent) + ReportFailure(subscribers, pane)[..i]
      {
        sent := sent + [PollFailed(subscribers[i], pane)];
      }
    }

    method WatcherFor(pane: PaneId) returns (watcher: PaneWatcher)
      requires Valid()
      modifies this`panes
      ensures Valid() && watcher.paneId == pane && Registered(watcher)
      ensures forall p :: p in panes ==> fresh(panes[p]) || (p in old(panes) && panes[p] == old(panes[p]))
      ensures watcher.Value() == if pane in old(panes) then old(WatchedPanes())[pane] else FRESH_WATCHER
      ensures WatchedPanes() == old(WatchedPanes())[pane := watcher.Value()]
    {
      if pane in panes {
        watcher := panes[pane];
      } else {
        watcher := new PaneWatcher(pane);
        panes := panes[pane := watcher];
      }
    }

    method AttachStart(client: ClientId, pane: PaneId, since: Option<int>)
      returns (watcher: PaneWatcher, done: Option<Metadata>)
      requires Valid()
      modifies this, panes.Values
      ensures Valid() && isPolling == old(isPolling)
      ensures forall p :: p in panes ==> fresh(panes[p]) || (p in old(panes) && panes[p] == old(panes[p]))
      ensures Model() == BeginAttach(old(Model()), client, pane, since).0
      ensures done == BeginAttach(old(Model()), client, pane, since).1
      ensures watcher.paneId == pane && Registered(watcher)
    {
      watcher := SubscribeTo(client, pane);
      if watcher.streamSeq > 0 {
        var meta := Reply(watcher, client, pane, since);
        done := Some(meta);
      } else {
        done := None;
      }
    }

    method SubscribeTo(client: ClientId, pane: PaneId) returns (watcher: PaneWatcher)
      requires Valid()
      modifies this`panes, panes.Values
      ensures Valid() && watcher.paneId == pane && Registered(watcher)
      ensures forall p :: p in panes ==> fresh(panes[p]) || (p in old(panes) && panes[p] == old(panes[p]))
      ensures var w := if pane in old(panes) then old(WatchedPanes())[pane] else FRESH_WATCHER;
              && watcher.Value() == w.(subscribers := Subscribe(w.subscribers, client))
              && WatchedPanes() == old(WatchedPanes())[pane := watcher.Value()]
    {
      ghost var before := WatchedPanes();
      watcher := WatcherFor(pane);
      watcher.subscribers := Subscribe(watcher.subscribers, client);
      assert WatchedPanes() == before[pane := watcher.Value()];
    }

    method Reply(watcher: PaneWatcher, client: ClientId, pane: PaneId, since: Option<int>) returns (meta: Metadata)
      modifies this`sent, this`pollTimer
      ensures sent == old(sent) + Addressed(client, AttachReply(watcher.Value(), pane, since).0)
      ensures meta == AttachReply(watcher.Value(), pane, since).1 && pollTimer
    {
      var (events, m) := AttachReply(watcher.Value(), pane, since);
      Emit(client, events);
      EnsureStarted();
      meta := m;
    }

    /** What happens once the first capture of an attach returns text, or fails. */
    method AttachCaptured(watcher: PaneWatcher, client: ClientId, pane: PaneId, since: Option<int>,
                          output: Option<string>)
      returns (done: Option<Metadata>)
      requires Valid()
      requires watcher.paneId == pane
      modifies this, watcher
      ensures Valid() && isPolling == old(isPolling)
      ensures forall p :: p in panes ==> p in old(panes) && panes[p] == old(panes[p])
      ensures old(Registered(watcher)) ==>
                && Model() == FinishAttach(old(Model()), client, pane, since, output, maxHistoryEvents).0
                && done == FinishAttach(old(Model()), client, pane, since, output, maxHistoryEvents).1
      ensures !old(Registered(watcher)) ==>
                Model() == FinishOrphaned(old(Model()), client, pane, old(watcher.Value()), output, maxHistoryEvents)
    {
      match output
      case Some(text) =>
        done := AttachPublished(watcher, client, pane, since, text);
      case None =>
        ghost var before := Model();
        DropFailed(watcher, client, pane);
        StopWhenIdleModel();
        done := None;
        assert Model() == StopIfIdle(before.(panes := WatchedPanes()));
    }

    method AttachPublished(watcher: PaneWatcher, client: ClientId, pane: PaneId, since: Option<int>, text: string)
      returns (done: Option<Metadata>)
      requires Valid() && watcher.paneId == pane
      modifies this`sent, this`pollTimer, watcher
      ensures var (w, e) := Captured(old(watcher.Value()), pane, text, maxHistoryEvents);
              && done == Some(FirstAttachMetadata(w, pane, since))
              && sent == old(sent) + [Output(client, e)] && pollTimer
              && WatchedPanes() == if Registered(watcher) then old(WatchedPanes())[pane := w] else old(WatchedPanes())
    {
      ghost var before := Model();
      var e := PublishFirst(watcher, pane, text);
      assert WatchedPanes() == if Registered(watcher) then before.panes[pane := watcher.Value()] else before.panes;
      SendFirst(client, e);
      done := Some(FirstAttachMetadata(watcher.Value(), pane, since));
    }

    method PublishFirst(watcher: PaneWatcher, pane: PaneId, text: string) returns (e: Event)
      modifies watcher
      ensures (watcher.Value(), e) == Captured(old(watcher.Value()), pane, text, maxHistoryEvents)
    {
      watcher.lastOutput := text;
      e := Publish(watcher, pane, Snapshot, text);
    }

    /** Only the attaching client is sent the first event. */
    method SendFirst(client: ClientId, e: Event)
      modifies this`sent, this`pollTimer
      ensures sent == old(sent) + [Output(client, e)] && pollTimer
    {
      sent := sent + [Output(client, e)];
      EnsureStarted();
    }

    /** Forgets a client whose first capture failed, and the pane if it was left without subscribers or events. */
    method DropFailed(watcher: PaneWatcher, client: ClientId, pane: PaneId)
      requires Valid() && watcher.paneId == pane
      modifies this`panes, watcher
      ensures Valid() && forall p :: p in panes ==> p in old(panes) && panes[p] == old(panes[p])
      ensures watcher.Value() == old(watcher.Value()).(subscribers := Unsubscribe(old(watcher.subscribers), client))
      ensures watcher.subscribers == [] && watcher.streamSeq == 0 ==> WatchedPanes() == old(WatchedPanes()) - {pane}
      ensures !(watcher.subscribers == [] && watcher.streamSeq == 0) ==>
                WatchedPanes() == if Registered(watcher) then old(WatchedPanes())[pane := watcher.Value()]
                    else old(WatchedPanes())
      ensures !(watcher.subscribers == [] && watcher.streamSeq == 0) ==> panes == old(panes)
    {
      ghost var before := Model();
      watcher.subscribers := Unsubscribe(watcher.subscribers, client);
      if watcher.subscribers == [] && watcher.streamSeq == 0 {
        panes := panes - {pane};
        assert WatchedPanes() == before.panes - {pane};
      } else {
        assert WatchedPanes() == if Registered(watcher) then before.panes[pane := watcher.Value()] else before.panes;
      }
    }

    method AttachClient(client: ClientId, pane: PaneId, since: Option<int>, output: Option<string>)
      returns (done: Option<Metadata>)
      requires Valid()
      modifies this, panes.Values
      ensures Valid() && isPolling == old(isPolling)
      ensures forall p :: p in panes ==> fresh(panes[p]) || (p in old(panes) && panes[p] == old(panes[p]))
      ensures (Model(), done) == Attach(old(Model()), client, pane, since, output, maxHistoryEvents)
    {
      var watcher;
      watcher, done := AttachStart(client, pane, since);
      if done.None? {
        done := AttachCaptured(watcher, client, pane, since, output);
      }
    }

    method RemoveSubscriber(client: ClientId, pane: PaneId)
      requires Valid() && pane in panes
      modifies this`panes, panes[pane]
      ensures Valid() && forall p :: p in panes ==> p in old(panes) && panes[p] == old(panes[p])
      ensures var w := old(WatchedPanes())[pane].(subscribers := Unsubscribe(old(WatchedPanes())[pane].subscribers,
          client));
              WatchedPanes() == if w.subscribers == [] then old(WatchedPanes()) - {pane}
                  else old(WatchedPanes())[pane := w]
    {
      ghost var before := WatchedPanes();
      var watcher := panes[pane];
      watcher.subscribers := Unsubscribe(watcher.subscribers, client);
      if watcher.subscribers == [] {
        panes := panes - {pane};
        assert WatchedPanes() == before - {pane};
      } else {
        assert WatchedPanes() == before[pane := watcher.Value()];
      }
    }

    method DetachClient(client: ClientId, pane: PaneId)
      requires Valid()
      modifies this, panes.Values
      ensures Valid() && isPolling == old(isPolling)
      ensures forall p :: p in panes ==> p in old(panes) && panes[p] == old(panes[p])
      ensures Model() == Detach(old(Model()), client, pane)
    {
      if pane !in panes { return; }
      ghost var before := Model();
      RemoveSubscriber(client, pane);
      StopWhenIdleModel();
      assert Model() == StopIfIdle(before.(panes := WatchedPanes()));
    }

    method DetachClientFromAll(client: ClientId)
      requires Valid()
      modifies this, panes.Values
      ensures Valid() && isPolling == old(isPolling)
      ensures forall p :: p in panes ==> p in old(panes) && panes[p] == old(panes[p])
      ensures Model() == DetachAll(old(Model()), client)
    {
      ghost var start, order := Model(), [];
      var rest := panes.Keys;
      assert start.panes.Keys == rest;
      while rest != {}
        invariant Valid() && isPolling == old(isPolling)
        invariant forall p :: p in panes ==> p in old(panes) && panes[p] == old(panes[p])
        invariant rest <= start.panes.Keys && Visits(order, start.panes.Keys - rest)
        invariant Model() == DetachEach(start, client, order)
        decreases rest
      {
        var pane :| pane in rest;
        DetachClient(client, pane);
        VisitsMore(order, start.panes.Keys, rest, pane);
        order := order + [pane];
        assert order[..|order| - 1] + [pane] == order;
        rest := rest - {pane};
      }
      assert start.panes.Keys - {} == start.panes.Keys;
      DetachEachIsAll(start, client, order);
    }

    /** One iteration of the poll loop after its capture; the watcher may have been deleted meanwhile. */
    method PollWatcher(watcher: PaneWatcher, pane: PaneId, output: Option<string>)
      requires Valid()
      requires watcher.paneId == pane
      modifies this`sent, watcher
      ensures watcher.Value() == PolledWatcher(old(watcher.Value()), pane, output, maxHistoryEvents)
      ensures sent == old(sent) + PollOutput(old(watcher.Value()), pane, output, maxHistoryEvents)
      ensures Registered(watcher) ==> Model() == PollPane(old(Model()), pane, output, maxHistoryEvents)
    {
      ghost var before := Model();
      match output
      case None =>
        EmitFailure(watcher.subscribers, pane);
      case Some(text) =>
        var delta := ComputeDelta(watcher.lastOutput, text);
        if delta.Some? {
          watcher.lastOutput := text;
          var e := Publish(watcher, pane, delta.value.0, delta.value.1);
          EmitToAll(watcher.subscribers, e);
        }
      if Registered(watcher) {
        assert WatchedPanes() == before.panes[pane := watcher.Value()];
      }
    }

    /** A whole poll during which nothing else happens; order says how the panes were visited. */
    method PollOnce(outputs: map<PaneId, string>) returns (ghost order: seq<PaneId>)
      requires Valid()
      modifies this`sent, this`isPolling, panes.Values
      ensures Valid() && isPolling == old(isPolling)
      ensures isPolling ==> order == []
      ensures !isPolling ==> Visits(order, panes.Keys)
      ensures Model() == PollEach(old(Model()), order, outputs, maxHistoryEvents)
    {
      if isPolling || panes == map[] { return []; }
      SetPolling(true);
      order := PollPanes(outputs);
      SetPolling(false);
    }

    method SetPolling(polling: bool)
      requires Valid()
      modifies this`isPolling
      ensures Valid() && isPolling == polling && Model() == old(Model())
    {
      isPolling := polling;
    }

    method PollPanes(outputs: map<PaneId, string>) returns (ghost order: seq<PaneId>)
      requires Valid()
      modifies this`sent, panes.Values
      ensures Visits(order, panes.Keys)
      ensures Model() == PollEach(old(Model()), order, outputs, maxHistoryEvents)
    {
      order := [];
      ghost var start := Model();
      var rest := panes.Keys;
      assert start.panes.Keys == rest;
      while rest != {}
        invariant rest <= start.panes.Keys == panes.Keys
        invariant Visits(order, start.panes.Keys - rest)
        invariant Model() == PollEach(start, order, outputs, maxHistoryEvents)
        decreases rest
      {
        var pane :| pane in rest;
        PollWatcher(panes[pane], pane, Lookup(outputs, pane));
        PollEachMore(start, order, pane, outputs, maxHistoryEvents);
        VisitsMore(order, start.panes.Keys, rest, pane);
        order := order + [pane];
        rest := rest - {pane};
      }
      assert start.panes.Keys - {} == panes.Keys;
    }
  }

  /** The order visits each pane of the set exactly once. */
  ghost predicate Visits(order: seq<PaneId>, panes: set<PaneId>) {
    && NoDuplicates(order)
    && forall p :: p in order <==> p in panes
  }

  function PollEach(s: State, order: seq<PaneId>, outputs: map<PaneId, string>, maxHistory: nat): (r: State)
    ensures r.panes.Keys == s.panes.Keys
    decreases |order|
  {
    if order == [] then s
    else
      var last := order[|order| - 1];
      var t := PollEach(s, order[..|order| - 1], outputs, maxHistory);
      if last in t.panes then PollPane(t, last, Lookup(outputs, last), maxHistory) else t
  }

  lemma PollEachMore(s: State, order: seq<PaneId>, pane: PaneId, outputs: map<PaneId, string>, maxHistory: nat)
    requires pane in s.panes
    ensures PollEach(s, order + [pane], outputs, maxHistory) ==
            PollPane(PollEach(s, order, outputs, maxHistory), pane, Lookup(outputs, pane), maxHistory)
  {
    assert (order + [pane])[..|order|] == order;
  }

  lemma VisitsMore(order: seq<PaneId>, all: set<PaneId>, rest: set<PaneId>, pane: PaneId)
    requires Visits(order, all - rest) && pane in rest && rest <= all
    ensures Visits(order + [pane], all - (rest - {pane}))
  {
  }

  lemma LastVisit(order: seq<PaneId>)
    requires NoDuplicates(order) && order != []
    ensures var init, last := order[..|order| - 1], order[|order| - 1];
            NoDuplicates(init) && last !in init && forall q :: q in order <==> q in init || q == last
  {
    assert order == order[..|order| - 1] + [order[|order| - 1]];
  }

  /** A poll gives every watched pane exactly the effect of its own capture, whatever the order of the visits. */
  lemma {:induction false} PollEachPane(s: State, order: seq<PaneId>, outputs: map<PaneId, string>, maxHistory: nat,
                                        p: PaneId)
    requires NoDuplicates(order) && (forall q :: q in order ==> q in s.panes) && p in s.panes
    ensures var t := PollEach(s, order, outputs, maxHistory);
            && t.timerSet == s.timerSet
            && t.panes[p] == (if p in order then PolledWatcher(s.panes[p], p, Lookup(outputs, p), maxHistory)
                              else s.panes[p])
  {
    if order != [] {
      LastVisit(order);
      PollEachPane(s, order[..|order| - 1], outputs, maxHistory, p);
    }
  }

  lemma {:induction false} PollPaneSent(s: State, pane: PaneId, output: Option<string>, maxHistory: nat, p: PaneId)
    requires pane in s.panes
    ensures OnPane(PollPane(s, pane, output, maxHistory).sent, p) ==
            OnPane(s.sent, p) + if p == pane then PollOutput(s.panes[p], p, output, maxHistory) else []
  {
    PollOutputOnPane(s.sent, s.panes[pane], pane, p, output, maxHistory);
  }

  /** What a poll sends about a pane is what that pane's own capture calls for, and nothing else. */
  lemma {:induction false} PollEachSent(s: State, order: seq<PaneId>, outputs: map<PaneId, string>, maxHistory: nat,
                                        p: PaneId)
    requires NoDuplicates(order) && (forall q :: q in order ==> q in s.panes)
    ensures OnPane(PollEach(s, order, outputs, maxHistory).sent, p) ==
            OnPane(s.sent, p) + if p in order then PollOutput(s.panes[p], p, Lookup(outputs, p), maxHistory) else []
  {
    if order != [] {
      var init, last := order[..|order| - 1], order[|order| - 1];
      LastVisit(order);
      PollEachSent(s, init, outputs, maxHistory, p);
      PollEachPane(s, init, outputs, maxHistory, last);
      PollPaneSent(PollEach(s, init, outputs, maxHistory), last, Lookup(outputs, last), maxHistory, p);
      assert p == last ==> OnPane(s.sent, p) + [] == OnPane(s.sent, p);
    }
  }

  function PaneOf(x: Sent): PaneId {
    match x
    case Output(_, e) => e.paneId
    case PollFailed(_, pane) => pane
  }

  /** The callbacks that concern one pane, in order. */
  function OnPane(log: seq<Sent>, pane: PaneId): seq<Sent> {
    if log == [] then []
    else OnPane(log[..|log| - 1], pane) + if PaneOf(log[|log| - 1]) == pane then [log[|log| - 1]] else []
  }

  lemma {:induction false} OnPaneOfOne(before: seq<Sent>, added: seq<Sent>, pane: PaneId, other: PaneId)
    requires forall i :: 0 <= i < |added| ==> PaneOf(added[i]) == pane
    ensures OnPane(before + added, other) == OnPane(before, other) + if other == pane then added else []
  {
    if added == [] {
      assert before + added == before;
    } else {
      var init := added[..|added| - 1];
      assert (before + added)[..|before + added| - 1] == before + init;
      OnPaneOfOne(before, init, pane, other);
      assert added == init + [added[|added| - 1]];
    }
  }

  lemma PollOutputOnPane(before: seq<Sent>, w: Watcher, pane: PaneId, other: PaneId, output: Option<string>,
                         maxHistory: nat)
    ensures var added := PollOutput(w, pane, output, maxHistory);
            OnPane(before + added, other) == OnPane(before, other) + if other == pane then added else []
  {
    OnPaneOfOne(before, PollOutput(w, pane, output, maxHistory), pane, other);
  }

  /** The metadata of a first attach, after its capture was published: no replay, no fallback, no gap. */
  lemma FirstAttachIsExact(w: Watcher, pane: PaneId, text: string, since: Option<int>, maxHistory: nat)
    requires Windowed(w, pane, maxHistory)
    ensures var after := Captured(w, pane, text, maxHistory).0; var meta := FirstAttachMetadata(after, pane, since);
            && after.lastOutput == text && after.streamSeq == w.streamSeq + 1
            && DescribesWindow(meta, after, pane, maxHistory) && meta.requestedLastSeq == since
            && meta.replayedCount == 0 && !meta.replayUsed && !meta.fallbackToSnapshot && !meta.replayGapDetected
  {
    StoreKeepsWindow(w.(lastOutput := text), pane, Snapshot, text, maxHistory);
    Sequenced.SortIsIdentity(Captured(w, pane, text, maxHistory).0.history, SeqOf);
  }

  lemma {:induction false} EachOnce(subscribers: seq<ClientId>, e: Event, pane: PaneId, c: ClientId)
    requires NoDuplicates(subscribers)
    ensures multiset(Broadcast(subscribers, e))[Output(c, e)] == if c in subscribers then 1 else 0
    ensures multiset(ReportFailure(subscribers, pane))[PollFailed(c, pane)] == if c in subscribers then 1 else 0
    ensures |Broadcast(subscribers, e)| == |ReportFailure(subscribers, pane)| == |subscribers|
  {
    if subscribers != [] {
      var init, last := subscribers[..|subscribers| - 1], subscribers[|subscribers| - 1];
      EachOnce(init, e, pane, c);
      assert subscribers == init + [last];
      assert Broadcast(subscribers, e) == Broadcast(init, e) + [Output(last, e)];
      assert ReportFailure(subscribers, pane) == ReportFailure(init, pane) + [PollFailed(last, pane)];
    }
  }

  /**
   * What the capture of one pane sends. A failure is reported to every subscriber once, and
   * nothing else is sent. A changed text is sent to every subscriber once, as the next event,
   * which turns the text they were sent last into the new one. An unchanged text is not sent.
   */
  lemma PollReachesEach(w: Watcher, pane: PaneId, output: Option<string>, maxHistory: nat, c: ClientId)
    requires NoDuplicates(w.subscribers)
    ensures var sent := PollOutput(w, pane, output, maxHistory);
            if output.None? then
              |sent| == |w.subscribers| && multiset(sent)[PollFailed(c, pane)] == if c in w.subscribers then 1 else 0
            else if output.value == w.lastOutput then sent == []
            else
              |sent| == |w.subscribers|
              && exists e: Event ::
                   && e.paneId == pane && e.streamSeq == w.streamSeq + 1
                   && Render(w.lastOutput, e.mode, e.chunk) == output.value
                   && multiset(sent)[Output(c, e)] == if c in w.subscribers then 1 else 0
  {
    match output
    case None => EachOnce(w.subscribers, Event(Snapshot, pane, "", 0), pane, c);
    case Some(text) =>
      var e := Polled(w, pane, text, maxHistory).1;
      if e.Some? {
        EachOnce(w.subscribers, e.value, pane, c);
      }
  }

  function Lookup(outputs: map<PaneId, string>, pane: PaneId): Option<string> {
    if pane in outputs then Some(outputs[pane]) else None
  }

  /** The state after detaching the client from some of the panes. */
  ghost function DetachSome(s: State, client: ClientId, done: set<PaneId>): State {
    var left := map p | p in s.panes && (p in done ==> Unsubscribe(s.panes[p].subscribers, client) != []) ::
      if p in done then s.panes[p].(subscribers := Unsubscribe(s.panes[p].subscribers, client)) else s.panes[p];
    if done == {} then s else StopIfIdle(s.(panes := left))
  }

  ghost function Visited(order: seq<PaneId>): set<PaneId> { set p | p in order }

  function DetachEach(s: State, client: ClientId, order: seq<PaneId>): State {
    if order == [] then s else Detach(DetachEach(s, client, order[..|order| - 1]), client, order[|order| - 1])
  }

  lemma {:induction false} DetachEachIsSome(s: State, client: ClientId, order: seq<PaneId>)
    requires NoDuplicates(order) && forall p :: p in order ==> p in s.panes
    ensures DetachEach(s, client, order) == DetachSome(s, client, Visited(order))
  {
    if order != [] {
      var init, last := order[..|order| - 1], order[|order| - 1];
      LastVisit(order);
      DetachEachIsSome(s, client, init);
      DetachOneMore(s, client, Visited(init), last);
      assert Visited(order) == Visited(init) + {last};
    }
  }

  lemma DetachEachIsAll(s: State, client: ClientId, order: seq<PaneId>)
    requires Visits(order, s.panes.Keys)
    ensures DetachEach(s, client, order) == DetachAll(s, client)
  {
    DetachEachIsSome(s, client, order);
    assert Visited(order) == s.panes.Keys;
    DetachSomeIsAll(s, client);
  }

  lemma DetachSomeIsAll(s: State, client: ClientId)
    ensures DetachSome(s, client, s.panes.Keys) == DetachAll(s, client)
  {
    assert s.panes.Keys == {} <==> s.panes == map[];
  }

  lemma DetachOneMore(s: State, client: ClientId, done: set<PaneId>, pane: PaneId)
    requires pane in s.panes && pane !in done && done <= s.panes.Keys
    ensures Detach(DetachSome(s, client, done), client, pane) == DetachSome(s, client, done + {pane})
  {
    var a, b := Detach(DetachSome(s, client, done), client, pane), DetachSome(s, client, done + {pane});
    assert pane in DetachSome(s, client, done).panes;
    assert a.panes == b.panes;
  }

  // ---- Invariant when first attaches are atomic ----

  ghost predicate Watched(w: Watcher, pane: PaneId, maxHistory: nat) {
    Windowed(w, pane, maxHistory) && w.streamSeq >= 1 && w.subscribers != [] && NoDuplicates(w.subscribers)
  }

  ghost predicate TimerMatches(s: State) {
    s.timerSet <==> s.panes != map[]
  }

  ghost predicate Consistent(s: State, maxHistory: nat) {
    && TimerMatches(s)
    && forall p :: p in s.panes ==> Watched(s.panes[p], p, maxHistory)
  }

  lemma AttachKeepsConsistent(s: State, client: ClientId, pane: PaneId, since: Option<int>, output: Option<string>,
                              maxHistory: nat)
    requires Consistent(s, maxHistory)
    ensures Consistent(Attach(s, client, pane, since, output, maxHistory).0, maxHistory)
  {
    var t := Attach(s, client, pane, since, output, maxHistory).0;
    if pane !in s.panes {
      var w := FRESH_WATCHER.(subscribers := Subscribe([], client));
      if output.Some? {
        StoreKeepsWindow(w.(lastOutput := output.value), pane, Snapshot, output.value, maxHistory);
      } else {
        assert Unsubscribe(Subscribe([], client), client) == [];
        assert t.panes == s.panes[pane := w] - {pane} == s.panes;
      }
    }
  }

  lemma DetachKeepsConsistent(s: State, client: ClientId, pane: PaneId, maxHistory: nat)
    requires Consistent(s, maxHistory)
    ensures Consistent(Detach(s, client, pane), maxHistory)
  {
    var t := Detach(s, client, pane);
    assert forall p :: p in t.panes ==> p in s.panes;
  }

  lemma DetachAllKeepsConsistent(s: State, client: ClientId, maxHistory: nat)
    requires Consistent(s, maxHistory)
    ensures Consistent(DetachAll(s, client), maxHistory)
    ensures forall p :: p in DetachAll(s, client).panes ==> client !in DetachAll(s, client).panes[p].subscribers
  {
  }

  lemma PollKeepsConsistent(s: State, pane: PaneId, output: Option<string>, maxHistory: nat)
    requires Consistent(s, maxHistory) && pane in s.panes
    ensures Consistent(PollPane(s, pane, output, maxHistory), maxHistory)
  {
    var w := s.panes[pane];
    if output.Some? && w.lastOutput != output.value {
      var d := ComputeDelta(w.lastOutput, output.value).value;
      StoreKeepsWindow(w.(lastOutput := output.value), pane, d.0, d.1, maxHistory);
    }
  }
}

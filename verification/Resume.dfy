/**
 * A resuming reader beside a whole engine, with many panes and clients: what it
 * receives is what the engine hands to the output callback for its connection and
 * pane. Each step is one of the replication protocol, or brings one event of an
 * earlier watcher.
 */
module Resume {
  import opened Common
  import opened Watchers
  import E = Engine
  import H = EngineRuns
  import R = Replication
  import D = Disturbances

  /** texts[n] is the text the engine held for the pane when it issued event n of the pane's current watcher. */
  datatype Session = Session(host: H.Host, texts: seq<string>, conn: Option<ClientId>, inbox: seq<Event>,
                             reader: R.Reader)

  datatype Step =
    | EngineStep(step: H.Step)
    | ReaderAttach(client: ClientId, since: Option<int>)
    | Deliver
    | DropConnection

  const START := Session(H.START, [""], None, [], R.Reader(None, ""))

  /** The events of the pane among the callbacks for a connection. */
  function Received(sent: seq<E.Sent>, conn: Option<ClientId>, pane: PaneId): seq<Event> {
    if sent == [] then []
    else
      (if sent[0].Output? && conn == Some(sent[0].client) && sent[0].event.paneId == pane then [sent[0].event] else [])
      + Received(sent[1..], conn, pane)
  }

  function Recorded(texts: seq<string>, panes: map<PaneId, Watcher>, pane: PaneId): seq<string> {
    if pane !in panes then [""]
    else if panes[pane].streamSeq >= |texts| then texts + [panes[pane].lastOutput]
    else texts
  }

  /** The engine moves on; the reader's connection receives its share of what was sent. */
  function Hosted(s: Session, host: H.Host, pane: PaneId): Session {
    var before := |s.host.engine.sent|;
    var added := if before <= |host.engine.sent| then host.engine.sent[before..] else [];
    s.(host := host,
       texts := Recorded(s.texts, host.engine.panes, pane),
       inbox := s.inbox + Received(added, s.conn, pane))
  }

  function Connected(s: Session, c: ClientId): Session {
    s.(conn := Some(c), inbox := if s.conn == Some(c) then s.inbox else [])
  }

  function Next(s: Session, step: Step, pane: PaneId, maxHistory: nat): Session {
    match step
    case EngineStep(step) => Hosted(s, H.Next(s.host, step, maxHistory), pane)
    case ReaderAttach(c, since) =>
      Hosted(Connected(s, c), H.Next(s.host, H.Attach(c, pane, since), maxHistory), pane)
    case Deliver =>
      if s.inbox == [] then s else s.(reader := R.Consume(s.reader, s.inbox[0]), inbox := s.inbox[1..])
    case DropConnection => s.(conn := None, inbox := [])
  }

  function Run(s: Session, steps: seq<Step>, pane: PaneId, maxHistory: nat): Session
    decreases |steps|
  {
    if steps == [] then s else Run(Next(s, steps[0], pane, maxHistory), steps[1..], pane, maxHistory)
  }

  function WatcherOf(panes: map<PaneId, Watcher>, pane: PaneId): Watcher {
    if pane in panes then panes[pane] else FRESH_WATCHER
  }

  predicate Live(s: Session, pane: PaneId) {
    s.conn.Some? && s.conn.value in WatcherOf(s.host.engine.panes, pane).subscribers
  }

  /**
   * What every run respects. A watcher of the pane, once there, lives on. A client id names
   * one connection. The reader resumes from a cursor it has reached.
   */
  predicate Permitted(s: Session, step: Step, pane: PaneId, maxHistory: nat) {
    && (pane in s.host.engine.panes ==> pane in Next(s, step, pane, maxHistory).host.engine.panes)
    && match step
       case EngineStep(Attach(c, p, _)) => p == pane ==> s.conn != Some(c)
       case ReaderAttach(c, since) =>
         && (s.conn == Some(c)
             || (c !in WatcherOf(s.host.engine.panes, pane).subscribers
                 && !exists a :: a in s.host.waiting && a.client == c && a.pane == pane))
         && (since.Some? ==> since.value <= R.Position(s.reader.cursor))
       case _ => true
  }

  /** The event of an earlier watcher of the pane that a step sends on the reader's connection. */
  function StrayEvent(s: Session, step: Step, pane: PaneId, maxHistory: nat): Option<Event> {
    match step
    case EngineStep(Capture(a, Some(text))) =>
      if a in s.host.waiting && a.pane == pane && !H.Registered(s.host, a) && a.watcher in s.host.retired
         && s.conn == Some(a.client)
      then Some(Captured(s.host.retired[a.watcher], pane, text, maxHistory).1)
      else None
    case EngineStep(PollRetired(id, Some(text))) =>
      if id in s.host.retired && id < |s.host.paneOf| && s.host.paneOf[id] == pane
         && s.conn.Some? && s.conn.value in s.host.retired[id].subscribers
      then Polled(s.host.retired[id], pane, text, maxHistory).1
      else None
    case _ => None
  }

  // ---- What reaches a connection ----

  lemma ReceivedAfter(s: Session, host: H.Host, added: seq<E.Sent>, pane: PaneId)
    requires host.engine.sent == s.host.engine.sent + added
    ensures Hosted(s, host, pane).inbox == s.inbox + Received(added, s.conn, pane)
  {
    assert host.engine.sent[|s.host.engine.sent|..] == added;
  }

  lemma {:induction false} ReceivedAddressed(c: ClientId, events: seq<Event>, conn: Option<ClientId>, pane: PaneId,
                                             about: PaneId)
    requires forall i :: 0 <= i < |events| ==> events[i].paneId == about
    ensures Received(E.Addressed(c, events), conn, pane) == if conn == Some(c) && about == pane then events else []
  {
    if events != [] {
      assert E.Addressed(c, events)[1..] == E.Addressed(c, events[1..]);
      ReceivedAddressed(c, events[1..], conn, pane, about);
      assert events == [events[0]] + events[1..];
    }
  }

  lemma {:induction false} ReceivedBroadcast(subscribers: seq<ClientId>, e: Event, conn: Option<ClientId>, pane: PaneId)
    requires NoDuplicates(subscribers)
    ensures Received(E.Broadcast(subscribers, e), conn, pane) ==
            if conn.Some? && conn.value in subscribers && e.paneId == pane then [e] else []
  {
    if subscribers != [] {
      var rest := subscribers[1..];
      assert E.Broadcast(subscribers, e)[1..] == E.Broadcast(rest, e);
      ReceivedBroadcast(rest, e, conn, pane);
      assert subscribers[0] !in rest;
    }
  }

  lemma {:induction false} ReceivedFailure(subscribers: seq<ClientId>, about: PaneId, conn: Option<ClientId>,
                                           pane: PaneId)
    ensures Received(E.ReportFailure(subscribers, about), conn, pane) == []
  {
    if subscribers != [] {
      assert E.ReportFailure(subscribers, about)[1..] == E.ReportFailure(subscribers[1..], about);
      ReceivedFailure(subscribers[1..], about, conn, pane);
    }
  }

  /** A poll of a pane sends its event to each subscriber of that pane once. */
  lemma ReceivedPoll(w: Watcher, about: PaneId, output: Option<string>, conn: Option<ClientId>, pane: PaneId,
                     maxHistory: nat)
    requires NoDuplicates(w.subscribers)
    ensures Received(E.PollOutput(w, about, output, maxHistory), conn, pane) ==
            if output.None? || Polled(w, about, output.value, maxHistory).1.None? then []
            else if conn.Some? && conn.value in w.subscribers && about == pane
            then [Polled(w, about, output.value, maxHistory).1.value] else []
  {
    match output
    case None => ReceivedFailure(w.subscribers, about, conn, pane);
    case Some(text) =>
      var e := Polled(w, about, text, maxHistory).1;
      if e.Some? {
        ReceivedBroadcast(w.subscribers, e.value, conn, pane);
      }
  }

  lemma ReplyPane(w: Watcher, about: PaneId, since: Option<int>, maxHistory: nat)
    requires Windowed(w, about, maxHistory) && w.streamSeq > 0
    ensures var events := AttachReply(w, about, since).0; forall i :: 0 <= i < |events| ==> events[i].paneId == about
  {
    match since
    case None => assert AttachReply(w, about, since).0 == [CurrentSnapshot(w, about)];
    case Some(lastSeq) => ReplayDecision(w, about, lastSeq, maxHistory);
  }

  // ---- The projection ----

  /** How many attaches of a client are suspended on the pane's current watcher. */
  function WaitingFor(h: H.Host, c: ClientId, pane: PaneId): nat {
    if pane in h.current then h.waiting[H.Waiting(c, pane, h.current[pane])] else 0
  }

  ghost predicate Represents(s: Session, sys: R.Sys, pane: PaneId) {
    && sys.watcher == WatcherOf(s.host.engine.panes, pane)
    && sys.texts == s.texts && sys.conn == s.conn && sys.inbox == s.inbox && sys.reader == s.reader
    && forall c :: sys.awaiting[c] == WaitingFor(s.host, c, pane)
  }

  ghost predicate Projects(s: Session, sys: R.Sys, pane: PaneId, maxHistory: nat) {
    H.HostInv(s.host, maxHistory) && Represents(s, sys, pane) && R.EngineInv(sys, pane, maxHistory)
  }

  /** The part of the projection that a single step needs. */
  ghost predicate Linked(s: Session, sys: R.Sys, pane: PaneId, maxHistory: nat) {
    H.Numbered(s.host) && Represents(s, sys, pane) && R.EngineInv(sys, pane, maxHistory)
  }

  /** The step of the replication protocol that a step amounts to, if it concerns the pane or the reader. */
  function Mirror(s: Session, step: Step, pane: PaneId, maxHistory: nat): Option<D.AnyStep> {
    var stray := StrayEvent(s, step, pane, maxHistory);
    var known := pane in s.host.engine.panes;
    if stray.Some? then Some(D.Stray(stray.value))
    else
      match step
      case ReaderAttach(c, since) => Some(D.Protocol(R.ReaderAttach(c, since)))
      case Deliver => Some(D.Protocol(R.Deliver))
      case DropConnection => Some(D.Protocol(R.DropConnection))
      case EngineStep(Attach(c, p, _)) => if p == pane then Some(D.Protocol(R.OtherAttach(c))) else None
      case EngineStep(Capture(a, output)) =>
        if a.pane == pane && a in s.host.waiting && H.Registered(s.host, a) then
          Some(D.Protocol(R.FirstCapture(a.client, output)))
        else None
      case EngineStep(Detach(c, p)) => if p == pane && known then Some(D.Protocol(R.Detach(c))) else None
      case EngineStep(DetachAll(c)) => if known then Some(D.Protocol(R.Detach(c))) else None
      case EngineStep(Poll(p, output)) => if p == pane && known then Some(D.Protocol(R.Poll(output))) else None
      case EngineStep(PollRetired(_, _)) => None
  }

  function Mirrored(sys: R.Sys, step: Option<D.AnyStep>, pane: PaneId, maxHistory: nat): R.Sys {
    if step.None? then sys else D.After(sys, step.value, pane, maxHistory)
  }

  lemma Represented(s: Session, host: H.Host, added: seq<E.Sent>, u: R.Sys, pane: PaneId)
    requires host.engine.sent == s.host.engine.sent + added
    requires u.watcher == WatcherOf(host.engine.panes, pane) && u.texts == Recorded(s.texts, host.engine.panes, pane)
    requires u.conn == s.conn && u.reader == s.reader && u.inbox == s.inbox + Received(added, s.conn, pane)
    requires forall c :: u.awaiting[c] == WaitingFor(host, c, pane)
    ensures Represents(Hosted(s, host, pane), u, pane)
  {
    ReceivedAfter(s, host, added, pane);
  }

  lemma RecordedSame(s: Session, sys: R.Sys, panes: map<PaneId, Watcher>, pane: PaneId, maxHistory: nat)
    requires R.EngineInv(sys, pane, maxHistory) && sys.texts == s.texts
    requires WatcherOf(panes, pane).streamSeq == sys.watcher.streamSeq
    requires pane !in panes ==> sys.watcher.streamSeq == 0
    ensures Recorded(s.texts, panes, pane) == s.texts
  {
    if pane !in panes {
      assert s.texts == [s.texts[0]];
    }
  }

  /** Whatever happens to other panes leaves the projection as it is. */
  lemma Elsewhere(s: Session, host: H.Host, added: seq<E.Sent>, sys: R.Sys, pane: PaneId, maxHistory: nat)
    requires Represents(s, sys, pane) && R.EngineInv(sys, pane, maxHistory)
    requires host.engine.sent == s.host.engine.sent + added && Received(added, s.conn, pane) == []
    requires pane in host.engine.panes <==> pane in s.host.engine.panes
    requires WatcherOf(host.engine.panes, pane) == WatcherOf(s.host.engine.panes, pane)
    requires forall c :: WaitingFor(host, c, pane) == WaitingFor(s.host, c, pane)
    ensures Represents(Hosted(s, host, pane), sys, pane)
  {
    RecordedSame(s, sys, host.engine.panes, pane, maxHistory);
    assert s.inbox + [] == s.inbox;
    Represented(s, host, added, sys, pane);
  }

  /** An event of an earlier watcher reaches the reader; the pane's watcher is as it was. */
  lemma StrayReceived(s: Session, host: H.Host, added: seq<E.Sent>, e: Event, sys: R.Sys, pane: PaneId,
                      maxHistory: nat)
    requires Represents(s, sys, pane) && R.EngineInv(sys, pane, maxHistory)
    requires host.engine.sent == s.host.engine.sent + added && Received(added, s.conn, pane) == [e]
    requires pane in host.engine.panes <==> pane in s.host.engine.panes
    requires WatcherOf(host.engine.panes, pane) == WatcherOf(s.host.engine.panes, pane)
    requires forall c :: WaitingFor(host, c, pane) == WaitingFor(s.host, c, pane)
    ensures Represents(Hosted(s, host, pane), D.After(sys, D.Stray(e), pane, maxHistory), pane)
  {
    RecordedSame(s, sys, host.engine.panes, pane, maxHistory);
    Represented(s, host, added, D.After(sys, D.Stray(e), pane, maxHistory), pane);
  }

  lemma AttachSent(h: H.Host, c: ClientId, p: PaneId, since: Option<int>) returns (added: seq<E.Sent>)
    ensures var w := WatcherOf(h.engine.panes, p); var u := w.(subscribers := Subscribe(w.subscribers, c));
            var t := H.AfterAttach(h, c, p, since);
            && added == (if w.streamSeq > 0 then E.Addressed(c, AttachReply(u, p, since).0) else [])
            && t.engine.sent == h.engine.sent + added && t.engine.panes == h.engine.panes[p := u]
  {
    var w := WatcherOf(h.engine.panes, p);
    var u := w.(subscribers := Subscribe(w.subscribers, c));
    added := if w.streamSeq > 0 then E.Addressed(c, AttachReply(u, p, since).0) else [];
    assert h.engine.sent + [] == h.engine.sent;
  }

  lemma AttachReceived(h: H.Host, c: ClientId, p: PaneId, since: Option<int>, conn: Option<ClientId>, pane: PaneId,
                       maxHistory: nat)
    requires H.HostInv(h, maxHistory)
    ensures var w := WatcherOf(h.engine.panes, p); var u := w.(subscribers := Subscribe(w.subscribers, c));
            w.streamSeq > 0 ==>
              Received(E.Addressed(c, AttachReply(u, p, since).0), conn, pane) ==
              if conn == Some(c) && p == pane then AttachReply(u, p, since).0 else []
  {
    var w := WatcherOf(h.engine.panes, p);
    var u := w.(subscribers := Subscribe(w.subscribers, c));
    if w.streamSeq > 0 {
      assert H.PaneFits(w, p, maxHistory);
      ReplyPane(u, p, since, maxHistory);
      ReceivedAddressed(c, AttachReply(u, p, since).0, conn, pane, p);
    }
  }

  lemma AttachWaiting(h: H.Host, c: ClientId, p: PaneId, since: Option<int>, pane: PaneId, x: ClientId, maxHistory: nat)
    requires H.HostInv(h, maxHistory)
    ensures WaitingFor(H.AfterAttach(h, c, p, since), x, pane) ==
            WaitingFor(h, x, pane)
            + if p == pane && x == c && WatcherOf(h.engine.panes, p).streamSeq == 0 then 1 else 0
  {
    if pane !in h.current {
      assert forall a :: a in h.waiting ==> H.Holds(h, a);
      assert H.Waiting(x, pane, |h.paneOf|) !in h.waiting;
    }
  }

  lemma AttachProjects(s: Session, sys: R.Sys, c: ClientId, p: PaneId, since: Option<int>, pane: PaneId,
                       maxHistory: nat)
    requires Projects(s, sys, pane, maxHistory) && p != pane
    ensures Represents(Hosted(s, H.AfterAttach(s.host, c, p, since), pane), sys, pane)
  {
    var t := H.AfterAttach(s.host, c, p, since);
    var added := AttachSent(s.host, c, p, since);
    AttachReceived(s.host, c, p, since, s.conn, pane, maxHistory);
    forall x
      ensures WaitingFor(t, x, pane) == WaitingFor(s.host, x, pane)
    {
      AttachWaiting(s.host, c, p, since, pane, x, maxHistory);
    }
    Elsewhere(s, t, added, sys, pane, maxHistory);
  }

  /** An attach to the pane, by the reader's connection or another. */
  lemma PaneAttachProjects(s: Session, sys: R.Sys, c: ClientId, since: Option<int>, pane: PaneId, maxHistory: nat)
    requires Projects(s, sys, pane, maxHistory)
    ensures var subscribed := R.Subscribed(sys, c);
            var replies := s.conn == Some(c) && sys.watcher.streamSeq > 0;
            var u := if replies then subscribed.(inbox := s.inbox + AttachReply(subscribed.watcher, pane, since).0)
                else subscribed;
            Represents(Hosted(s, H.AfterAttach(s.host, c, pane, since), pane), u, pane)
  {
    var t := H.AfterAttach(s.host, c, pane, since);
    var added := AttachSent(s.host, c, pane, since);
    AttachReceived(s.host, c, pane, since, s.conn, pane, maxHistory);
    var subscribed := R.Subscribed(sys, c);
    forall x
      ensures subscribed.awaiting[x] == WaitingFor(t, x, pane)
    {
      AttachWaiting(s.host, c, pane, since, pane, x, maxHistory);
    }
    RecordedSame(s, sys, t.engine.panes, pane, maxHistory);
    assert s.inbox + [] == s.inbox;
    var replies := s.conn == Some(c) && sys.watcher.streamSeq > 0;
    Represented(s, t, added,
                if replies then subscribed.(inbox := s.inbox + AttachReply(subscribed.watcher, pane, since).0)
                    else subscribed, pane);
  }

  lemma ReaderAttachProjects(s: Session, sys: R.Sys, c: ClientId, since: Option<int>, pane: PaneId, maxHistory: nat)
    requires Projects(s, sys, pane, maxHistory)
    ensures Represents(Next(s, ReaderAttach(c, since), pane, maxHistory),
                       R.Next(sys, R.ReaderAttach(c, since), pane, maxHistory), pane)
  {
    var connected := sys.(conn := Some(c), inbox := if sys.conn == Some(c) then sys.inbox else []);
    assert Projects(Connected(s, c), connected, pane, maxHistory);
    PaneAttachProjects(Connected(s, c), connected, c, since, pane, maxHistory);
  }

  lemma LeaveProjects(s: Session, sys: R.Sys, engine: E.State, c: ClientId, pane: PaneId, maxHistory: nat)
    requires Linked(s, sys, pane, maxHistory) && engine.sent == s.host.engine.sent
    requires pane in engine.panes && pane in s.host.engine.panes
    requires engine.panes[pane] ==
        s.host.engine.panes[pane].(subscribers := Unsubscribe(s.host.engine.panes[pane].subscribers, c))
    ensures Represents(Hosted(s, H.Moved(s.host, engine, Some(c)), pane), R.Next(sys, R.Detach(c), pane, maxHistory),
                       pane)
  {
    var t := H.Moved(s.host, engine, Some(c));
    assert engine.sent == s.host.engine.sent + [];
    RecordedSame(s, sys, engine.panes, pane, maxHistory);
    assert s.inbox + [] == s.inbox;
    Represented(s, t, [], R.Next(sys, R.Detach(c), pane, maxHistory), pane);
  }

  /** A step that only moves the engine, and does not touch the pane. */
  lemma MovedElsewhere(s: Session, sys: R.Sys, engine: E.State, leaving: Option<ClientId>, added: seq<E.Sent>,
                       pane: PaneId, maxHistory: nat)
    requires Linked(s, sys, pane, maxHistory) && engine.sent == s.host.engine.sent + added
        && Received(added, s.conn, pane) == []
    requires pane in engine.panes <==> pane in s.host.engine.panes
    requires WatcherOf(engine.panes, pane) == WatcherOf(s.host.engine.panes, pane)
    ensures Represents(Hosted(s, H.Moved(s.host, engine, leaving), pane), sys, pane)
  {
    Elsewhere(s, H.Moved(s.host, engine, leaving), added, sys, pane, maxHistory);
  }

  lemma {:induction false} DetachProjects(s: Session, sys: R.Sys, c: ClientId, p: PaneId, pane: PaneId, maxHistory: nat)
    requires Projects(s, sys, pane, maxHistory) && Permitted(s, EngineStep(H.Detach(c, p)), pane, maxHistory)
    ensures Represents(Next(s, EngineStep(H.Detach(c, p)), pane, maxHistory),
                       Mirrored(sys, Mirror(s, EngineStep(H.Detach(c, p)), pane, maxHistory), pane, maxHistory), pane)
  {
    var engine := E.Detach(s.host.engine, c, p);
    if p == pane && pane in s.host.engine.panes {
      LeaveProjects(s, sys, engine, c, pane, maxHistory);
    } else {
      assert engine.sent == s.host.engine.sent + [];
      MovedElsewhere(s, sys, engine, Some(c), [], pane, maxHistory);
    }
  }

  lemma DetachAllProjects(s: Session, sys: R.Sys, c: ClientId, pane: PaneId, maxHistory: nat)
    requires Projects(s, sys, pane, maxHistory) && Permitted(s, EngineStep(H.DetachAll(c)), pane, maxHistory)
    ensures Represents(Next(s, EngineStep(H.DetachAll(c)), pane, maxHistory),
                       Mirrored(sys, Mirror(s, EngineStep(H.DetachAll(c)), pane, maxHistory), pane, maxHistory), pane)
  {
    var engine := E.DetachAll(s.host.engine, c);
    if pane in s.host.engine.panes {
      LeaveProjects(s, sys, engine, c, pane, maxHistory);
    } else {
      assert engine.sent == s.host.engine.sent + [];
      MovedElsewhere(s, sys, engine, Some(c), [], pane, maxHistory);
    }
  }

  /** The pane publishes an event whose text the engine now holds. */
  lemma RecordedNext(s: Session, sys: R.Sys, panes: map<PaneId, Watcher>, pane: PaneId, maxHistory: nat)
    requires R.EngineInv(sys, pane, maxHistory) && sys.texts == s.texts
    requires pane in panes && panes[pane].streamSeq == sys.watcher.streamSeq + 1
    ensures Recorded(s.texts, panes, pane) == s.texts + [panes[pane].lastOutput]
  {
  }

  lemma MirroredQuiet(sys: R.Sys, output: Option<string>, pane: PaneId, maxHistory: nat)
    requires output.None? || ComputeDelta(sys.watcher.lastOutput, output.value).None?
    ensures R.Next(sys, R.Poll(output), pane, maxHistory) == sys
  {
  }

  lemma QuietPollEngine(engine: E.State, output: Option<string>, pane: PaneId, maxHistory: nat)
    requires pane in engine.panes
    requires output.None? || ComputeDelta(engine.panes[pane].lastOutput, output.value).None?
    ensures E.PollPane(engine, pane, output, maxHistory) ==
            engine.(sent := engine.sent + E.PollOutput(engine.panes[pane], pane, output, maxHistory))
  {
    assert engine.panes[pane := engine.panes[pane]] == engine.panes;
  }

  lemma QuietPoll(s: Session, sys: R.Sys, output: Option<string>, pane: PaneId, maxHistory: nat)
    requires Linked(s, sys, pane, maxHistory) && NoDuplicates(sys.watcher.subscribers) && pane in s.host.engine.panes
    requires output.None? || ComputeDelta(s.host.engine.panes[pane].lastOutput, output.value).None?
    ensures Represents(Hosted(s, s.host.(engine := E.PollPane(s.host.engine, pane, output, maxHistory)), pane),
                       R.Next(sys, R.Poll(output), pane, maxHistory), pane)
  {
    MirroredQuiet(sys, output, pane, maxHistory);
    QuietPollEngine(s.host.engine, output, pane, maxHistory);
    ReceivedPoll(sys.watcher, pane, output, s.conn, pane, maxHistory);
    Elsewhere(s, s.host.(engine := E.PollPane(s.host.engine, pane, output, maxHistory)),
              E.PollOutput(sys.watcher, pane, output, maxHistory), sys, pane, maxHistory);
  }

  lemma MirroredPoll(sys: R.Sys, text: string, pane: PaneId, maxHistory: nat)
    requires ComputeDelta(sys.watcher.lastOutput, text).Some?
    ensures var (w, e) := Polled(sys.watcher, pane, text, maxHistory);
            && e.Some? && w.lastOutput == text && w.streamSeq == sys.watcher.streamSeq + 1
            && R.Next(sys, R.Poll(Some(text)), pane, maxHistory) ==
               sys.(watcher := w, texts := sys.texts + [text], inbox := if R.Live(sys) then sys.inbox + [e.value]
                    else sys.inbox)
  {
  }

  lemma PublishingPollEngine(engine: E.State, text: string, pane: PaneId, maxHistory: nat)
    requires pane in engine.panes
    ensures var t := E.PollPane(engine, pane, Some(text), maxHistory);
            && t.panes == engine.panes[pane := Polled(engine.panes[pane], pane, text, maxHistory).0]
            && t.sent == engine.sent + E.PollOutput(engine.panes[pane], pane, Some(text), maxHistory)
  {
  }

  lemma PublishingPoll(s: Session, sys: R.Sys, text: string, host: H.Host, pane: PaneId, maxHistory: nat)
    requires Linked(s, sys, pane, maxHistory) && NoDuplicates(sys.watcher.subscribers) && pane in s.host.engine.panes
    requires ComputeDelta(sys.watcher.lastOutput, text).Some?
    requires host == s.host.(engine := host.engine)
    requires host.engine.panes == s.host.engine.panes[pane := Polled(sys.watcher, pane, text, maxHistory).0]
    requires host.engine.sent == s.host.engine.sent + E.PollOutput(sys.watcher, pane, Some(text), maxHistory)
    ensures Represents(Hosted(s, host, pane), R.Next(sys, R.Poll(Some(text)), pane, maxHistory), pane)
  {
    ReceivedPoll(sys.watcher, pane, Some(text), s.conn, pane, maxHistory);
    MirroredPoll(sys, text, pane, maxHistory);
    RecordedNext(s, sys, host.engine.panes, pane, maxHistory);
    assert s.inbox + [] == s.inbox;
    Represented(s, host, E.PollOutput(sys.watcher, pane, Some(text), maxHistory),
                R.Next(sys, R.Poll(Some(text)), pane, maxHistory), pane);
  }

  lemma PollElsewhere(s: Session, sys: R.Sys, p: PaneId, output: Option<string>, pane: PaneId, maxHistory: nat)
    requires Linked(s, sys, pane, maxHistory) && p in s.host.engine.panes && p != pane
    requires NoDuplicates(s.host.engine.panes[p].subscribers)
    ensures Represents(Next(s, EngineStep(H.Poll(p, output)), pane, maxHistory), sys, pane)
  {
    var w := s.host.engine.panes[p];
    var engine := E.PollPane(s.host.engine, p, output, maxHistory);
    ReceivedPoll(w, p, output, s.conn, pane, maxHistory);
    Elsewhere(s, s.host.(engine := engine), E.PollOutput(w, p, output, maxHistory), sys, pane, maxHistory);
  }

  lemma PanePollProjects(s: Session, sys: R.Sys, output: Option<string>, pane: PaneId, maxHistory: nat)
    requires Linked(s, sys, pane, maxHistory) && NoDuplicates(sys.watcher.subscribers) && pane in s.host.engine.panes
    ensures Represents(Hosted(s, s.host.(engine := E.PollPane(s.host.engine, pane, output, maxHistory)), pane),
                       R.Next(sys, R.Poll(output), pane, maxHistory), pane)
  {
    if output.None? || ComputeDelta(s.host.engine.panes[pane].lastOutput, output.value).None? {
      QuietPoll(s, sys, output, pane, maxHistory);
    } else {
      PublishingPollEngine(s.host.engine, output.value, pane, maxHistory);
      PublishingPoll(s, sys, output.value, s.host.(engine := E.PollPane(s.host.engine, pane, output, maxHistory)),
                     pane, maxHistory);
    }
  }

  lemma PollProjects(s: Session, sys: R.Sys, p: PaneId, output: Option<string>, pane: PaneId, maxHistory: nat)
    requires Projects(s, sys, pane, maxHistory)
    ensures Represents(Next(s, EngineStep(H.Poll(p, output)), pane, maxHistory),
                       Mirrored(sys, Mirror(s, EngineStep(H.Poll(p, output)), pane, maxHistory), pane, maxHistory),
                       pane)
  {
    if p in s.host.engine.panes {
      assert H.PaneFits(s.host.engine.panes[p], p, maxHistory);
      if p == pane {
        PanePollProjects(s, sys, output, pane, maxHistory);
      } else {
        PollElsewhere(s, sys, p, output, pane, maxHistory);
      }
    } else {
      assert s.host.engine.sent + [] == s.host.engine.sent;
      Elsewhere(s, s.host, [], sys, pane, maxHistory);
    }
  }

  lemma PollRetiredProjects(s: Session, sys: R.Sys, id: nat, output: Option<string>, pane: PaneId, maxHistory: nat)
    requires Projects(s, sys, pane, maxHistory)
    ensures Represents(Next(s, EngineStep(H.PollRetired(id, output)), pane, maxHistory),
                       Mirrored(sys, Mirror(s, EngineStep(H.PollRetired(id, output)), pane, maxHistory), pane,
                                maxHistory), pane)
  {
    var stray := StrayEvent(s, EngineStep(H.PollRetired(id, output)), pane, maxHistory);
    if id in s.host.retired && id < |s.host.paneOf| {
      var w, p := s.host.retired[id], s.host.paneOf[id];
      var added := E.PollOutput(w, p, output, maxHistory);
      var host := H.AfterPollRetired(s.host, id, output, maxHistory);
      ReceivedPoll(w, p, output, s.conn, pane, maxHistory);
      if stray.Some? {
        StrayReceived(s, host, added, stray.value, sys, pane, maxHistory);
      } else {
        Elsewhere(s, host, added, sys, pane, maxHistory);
      }
    } else {
      assert s.host.engine.sent + [] == s.host.engine.sent;
      Elsewhere(s, s.host, [], sys, pane, maxHistory);
    }
  }

  lemma {:induction false} NotAbout(sent: seq<E.Sent>, conn: Option<ClientId>, pane: PaneId, about: PaneId)
    requires about != pane && forall i :: 0 <= i < |sent| ==> E.PaneOf(sent[i]) == about
    ensures Received(sent, conn, pane) == []
  {
    if sent != [] {
      NotAbout(sent[1..], conn, pane, about);
    }
  }

  /** The suspended attach is taken up again, and no other. */
  lemma TakenUp(s: Session, sys: R.Sys, a: H.Waiting, host: H.Host, pane: PaneId, maxHistory: nat)
    requires Linked(s, sys, pane, maxHistory) && H.Registered(s.host, a) && a in s.host.waiting && a.pane == pane
    requires host.waiting == s.host.waiting - multiset{a} && pane in host.current
        && host.current[pane] == s.host.current[pane]
    ensures a.client in sys.awaiting
    ensures forall c :: (sys.awaiting - multiset{a.client})[c] == WaitingFor(host, c, pane)
  {
    assert sys.awaiting[a.client] == WaitingFor(s.host, a.client, pane) > 0;
    forall c
      ensures (sys.awaiting - multiset{a.client})[c] == WaitingFor(host, c, pane)
    {
      assert sys.awaiting[c] == WaitingFor(s.host, c, pane);
    }
  }

  lemma FailedCaptureProjects(s: Session, sys: R.Sys, a: H.Waiting, pane: PaneId, maxHistory: nat)
    requires Linked(s, sys, pane, maxHistory) && H.Registered(s.host, a) && a in s.host.waiting && a.pane == pane
    requires Permitted(s, EngineStep(H.Capture(a, None)), pane, maxHistory)
    ensures Represents(Next(s, EngineStep(H.Capture(a, None)), pane, maxHistory),
                       R.Next(sys, R.FirstCapture(a.client, None), pane, maxHistory), pane)
  {
    var t := s.host.(waiting := s.host.waiting - multiset{a});
    var w := s.host.engine.panes[pane];
    var engine := E.FinishAttach(s.host.engine, a.client, pane, None, None, maxHistory).0;
    var host := H.Moved(t, engine, Some(a.client));
    assert H.AfterCapture(s.host, a, None, maxHistory) == host;
    assert engine.panes[pane] == w.(subscribers := Unsubscribe(w.subscribers, a.client));
    TakenUp(s, sys, a, host, pane, maxHistory);
    RecordedSame(s, sys, engine.panes, pane, maxHistory);
    assert engine.sent == s.host.engine.sent + [] && s.inbox + [] == s.inbox;
    Represented(s, host, [], R.Next(sys, R.FirstCapture(a.client, None), pane, maxHistory), pane);
  }

  lemma TextCaptured(h: H.Host, a: H.Waiting, text: string, maxHistory: nat)
    requires a in h.waiting && H.Registered(h, a)
    ensures var host := H.AfterCapture(h, a, Some(text), maxHistory);
            var (w, e) := Captured(h.engine.panes[a.pane], a.pane, text, maxHistory);
            && host.engine == E.State(h.engine.panes[a.pane := w], true, h.engine.sent + [E.Output(a.client, e)])
            && host.waiting == h.waiting - multiset{a}
            && a.pane in host.current && host.current[a.pane] == h.current[a.pane]
  {
  }

  lemma CaptureMirrored(sys: R.Sys, c: ClientId, text: string, pane: PaneId, maxHistory: nat)
    requires c in sys.awaiting
    ensures var (w, e) := Captured(sys.watcher, pane, text, maxHistory);
            R.Next(sys, R.FirstCapture(c, Some(text)), pane, maxHistory) ==
            sys.(watcher := w, awaiting := sys.awaiting - multiset{c}, texts := sys.texts + [text],
                 inbox := sys.inbox + if sys.conn == Some(c) then [e] else [])
  {
    assert sys.inbox + [] == sys.inbox;
  }

  lemma TextCaptureProjects(s: Session, sys: R.Sys, a: H.Waiting, text: string, host: H.Host, pane: PaneId,
                            maxHistory: nat)
    requires Linked(s, sys, pane, maxHistory) && H.Registered(s.host, a) && a in s.host.waiting && a.pane == pane
        && pane in s.host.engine.panes
    requires var (w, e) := Captured(s.host.engine.panes[pane], pane, text, maxHistory);
             host.engine == E.State(s.host.engine.panes[pane := w], true, s.host.engine.sent + [E.Output(a.client, e)])
    requires host.waiting == s.host.waiting - multiset{a} && pane in host.current
        && host.current[pane] == s.host.current[pane]
    ensures Represents(Hosted(s, host, pane), R.Next(sys, R.FirstCapture(a.client, Some(text)), pane, maxHistory), pane)
  {
    var (w, e) := Captured(s.host.engine.panes[pane], pane, text, maxHistory);
    TakenUp(s, sys, a, host, pane, maxHistory);
    RecordedNext(s, sys, host.engine.panes, pane, maxHistory);
    CaptureMirrored(sys, a.client, text, pane, maxHistory);
    assert [E.Output(a.client, e)][1..] == [];
    Represented(s, host, [E.Output(a.client, e)], R.Next(sys, R.FirstCapture(a.client, Some(text)), pane, maxHistory),
                pane);
  }

  /** A capture for another pane: its one event is not about this pane, and this pane's watcher stays. */
  lemma CaptureElsewhere(s: Session, sys: R.Sys, a: H.Waiting, host: H.Host, added: seq<E.Sent>, pane: PaneId,
                         maxHistory: nat)
    requires Linked(s, sys, pane, maxHistory) && a.pane != pane && host.waiting == s.host.waiting - multiset{a}
    requires host.engine.sent == s.host.engine.sent + added
    requires forall i :: 0 <= i < |added| ==> E.PaneOf(added[i]) == a.pane
    requires pane in host.engine.panes <==> pane in s.host.engine.panes
    requires WatcherOf(host.engine.panes, pane) == WatcherOf(s.host.engine.panes, pane)
    requires pane in host.current <==> pane in s.host.current
    requires pane in host.current ==> host.current[pane] == s.host.current[pane]
    ensures Represents(Hosted(s, host, pane), sys, pane)
  {
    NotAbout(added, s.conn, pane, a.pane);
    Elsewhere(s, host, added, sys, pane, maxHistory);
  }

  lemma RegisteredElsewhere(s: Session, sys: R.Sys, a: H.Waiting, output: Option<string>, pane: PaneId,
                            maxHistory: nat)
    requires Linked(s, sys, pane, maxHistory) && a in s.host.waiting && a.pane != pane && H.Registered(s.host, a)
    ensures Represents(Hosted(s, H.AfterCapture(s.host, a, output, maxHistory), pane), sys, pane)
  {
    var engine := E.FinishAttach(s.host.engine, a.client, a.pane, None, output, maxHistory).0;
    var added := if output.None? then []
                 else [E.Output(a.client, Captured(s.host.engine.panes[a.pane], a.pane, output.value, maxHistory).1)];
    assert engine.sent == s.host.engine.sent + added;
    CaptureElsewhere(s, sys, a, H.AfterCapture(s.host, a, output, maxHistory), added, pane, maxHistory);
  }

  lemma OrphanedEngine(engine: E.State, a: H.Waiting, orphan: Watcher, output: Option<string>, pane: PaneId,
                       maxHistory: nat)
    returns (added: seq<E.Sent>)
    requires a.pane != pane
    ensures var t := E.FinishOrphaned(engine, a.client, a.pane, orphan, output, maxHistory);
            && t.sent == engine.sent + added
            && (pane in t.panes <==> pane in engine.panes) && WatcherOf(t.panes, pane) == WatcherOf(engine.panes, pane)
    ensures forall i :: 0 <= i < |added| ==> E.PaneOf(added[i]) == a.pane
  {
    added := if output.None? then [] else [E.Output(a.client, Captured(orphan, a.pane, output.value, maxHistory).1)];
    assert engine.sent + [] == engine.sent;
  }

  lemma OrphanedCaptured(h: H.Host, a: H.Waiting, output: Option<string>, maxHistory: nat)
    requires a in h.waiting && !H.Registered(h, a) && a.watcher in h.retired
    ensures var host := H.AfterCapture(h, a, output, maxHistory);
            && host.engine == E.FinishOrphaned(h.engine, a.client, a.pane, h.retired[a.watcher], output, maxHistory)
            && host.waiting == h.waiting - multiset{a}
            && forall p :: p in host.current <==> p in h.current && p in host.engine.panes
    ensures var host := H.AfterCapture(h, a, output, maxHistory);
            forall p :: p in host.current ==> host.current[p] == h.current[p]
  {
  }

  lemma {:induction false} OrphanedElsewhere(s: Session, sys: R.Sys, a: H.Waiting, output: Option<string>, pane: PaneId,
                          maxHistory: nat)
    requires Linked(s, sys, pane, maxHistory) && a in s.host.waiting && a.pane != pane && !H.Registered(s.host, a)
    requires a.watcher in s.host.retired
    ensures Represents(Hosted(s, H.AfterCapture(s.host, a, output, maxHistory), pane), sys, pane)
  {
    var added := OrphanedEngine(s.host.engine, a, s.host.retired[a.watcher], output, pane, maxHistory);
    OrphanedCaptured(s.host, a, output, maxHistory);
    CaptureElsewhere(s, sys, a, H.AfterCapture(s.host, a, output, maxHistory), added, pane, maxHistory);
  }

  /** A capture returns text for an earlier watcher of the pane, on the reader's connection or another. */
  lemma StrayTextProjects(s: Session, sys: R.Sys, a: H.Waiting, text: string, host: H.Host, pane: PaneId,
                          maxHistory: nat)
    requires Linked(s, sys, pane, maxHistory) && a in s.host.waiting && a.pane == pane && !H.Registered(s.host, a)
    requires a.watcher in s.host.retired && host == H.AfterCapture(s.host, a, Some(text), maxHistory)
    ensures var mirror := Mirror(s, EngineStep(H.Capture(a, Some(text))), pane, maxHistory);
            Represents(Hosted(s, host, pane), Mirrored(sys, mirror, pane, maxHistory), pane)
  {
    var e := Captured(s.host.retired[a.watcher], pane, text, maxHistory).1;
    OrphanedCaptured(s.host, a, Some(text), maxHistory);
    OrphanWaiting(s.host, host, a, pane);
    StraySent(s, sys, a.client, e, host, pane, maxHistory);
  }

  lemma StraySent(s: Session, sys: R.Sys, c: ClientId, e: Event, host: H.Host, pane: PaneId, maxHistory: nat)
    requires Linked(s, sys, pane, maxHistory) && e.paneId == pane
    requires host.engine.sent == s.host.engine.sent + [E.Output(c, e)] && host.engine.panes == s.host.engine.panes
    requires forall x :: WaitingFor(host, x, pane) == WaitingFor(s.host, x, pane)
    ensures Represents(Hosted(s, host, pane),
                       if s.conn == Some(c) then D.After(sys, D.Stray(e), pane, maxHistory) else sys, pane)
  {
    var added := [E.Output(c, e)];
    assert added[1..] == [];
    if s.conn == Some(c) {
      StrayReceived(s, host, added, e, sys, pane, maxHistory);
    } else {
      Elsewhere(s, host, added, sys, pane, maxHistory);
    }
  }

  /** A capture fails for an earlier watcher of the pane. */
  lemma StrayFailureProjects(s: Session, sys: R.Sys, a: H.Waiting, host: H.Host, pane: PaneId, maxHistory: nat)
    requires Linked(s, sys, pane, maxHistory) && a in s.host.waiting && a.pane == pane && !H.Registered(s.host, a)
    requires a.watcher in s.host.retired && host == H.AfterCapture(s.host, a, None, maxHistory)
    requires pane in s.host.engine.panes ==> pane in host.engine.panes
    ensures Represents(Hosted(s, host, pane), sys, pane)
  {
    OrphanedCaptured(s.host, a, None, maxHistory);
    OrphanWaiting(s.host, host, a, pane);
    assert host.engine.sent == s.host.engine.sent + [];
    Elsewhere(s, host, [], sys, pane, maxHistory);
  }

  /** Taking up an attach that holds an earlier watcher changes nothing for the current one. */
  lemma OrphanWaiting(h: H.Host, host: H.Host, a: H.Waiting, pane: PaneId)
    requires H.Numbered(h) && a.pane == pane && !H.Registered(h, a) && host.waiting == h.waiting - multiset{a}
    requires pane in host.current <==> pane in h.current
    requires pane in host.current ==> host.current[pane] == h.current[pane]
    ensures forall c :: WaitingFor(host, c, pane) == WaitingFor(h, c, pane)
  {
  }

  lemma CaptureProjects(s: Session, sys: R.Sys, a: H.Waiting, output: Option<string>, pane: PaneId, maxHistory: nat)
    requires Projects(s, sys, pane, maxHistory) && Permitted(s, EngineStep(H.Capture(a, output)), pane, maxHistory)
    ensures Represents(Next(s, EngineStep(H.Capture(a, output)), pane, maxHistory),
                       Mirrored(sys, Mirror(s, EngineStep(H.Capture(a, output)), pane, maxHistory), pane, maxHistory),
                           pane)
  {
    assert a in s.host.waiting ==> H.Holds(s.host, a);
    if a !in s.host.waiting {
      assert s.host.engine.sent + [] == s.host.engine.sent;
      Elsewhere(s, s.host, [], sys, pane, maxHistory);
    } else if a.pane != pane {
      if H.Registered(s.host, a) {
        RegisteredElsewhere(s, sys, a, output, pane, maxHistory);
      } else {
        OrphanedElsewhere(s, sys, a, output, pane, maxHistory);
      }
    } else if !H.Registered(s.host, a) {
      if output.Some? {
        StrayTextProjects(s, sys, a, output.value, H.AfterCapture(s.host, a, output, maxHistory), pane, maxHistory);
      } else {
        StrayFailureProjects(s, sys, a, H.AfterCapture(s.host, a, output, maxHistory), pane, maxHistory);
      }
    } else if output.None? {
      FailedCaptureProjects(s, sys, a, pane, maxHistory);
    } else {
      TextCaptured(s.host, a, output.value, maxHistory);
      TextCaptureProjects(s, sys, a, output.value, H.AfterCapture(s.host, a, output, maxHistory), pane, maxHistory);
    }
  }

  lemma DeliverProjects(s: Session, sys: R.Sys, step: Step, pane: PaneId, maxHistory: nat)
    requires Represents(s, sys, pane) && (step.Deliver? || step.DropConnection?)
    ensures Represents(Next(s, step, pane, maxHistory), Mirrored(sys, Mirror(s, step, pane, maxHistory), pane,
                                                                 maxHistory), pane)
  {
  }

  lemma AnyAttachProjects(s: Session, sys: R.Sys, c: ClientId, p: PaneId, since: Option<int>, pane: PaneId,
                          maxHistory: nat)
    requires Projects(s, sys, pane, maxHistory)
    requires Permitted(s, EngineStep(H.Attach(c, p, since)), pane, maxHistory)
    ensures Represents(Next(s, EngineStep(H.Attach(c, p, since)), pane, maxHistory),
                       Mirrored(sys, Mirror(s, EngineStep(H.Attach(c, p, since)), pane, maxHistory), pane, maxHistory),
                       pane)
  {
    if p == pane {
      PaneAttachProjects(s, sys, c, since, pane, maxHistory);
    } else {
      AttachProjects(s, sys, c, p, since, pane, maxHistory);
    }
  }

  /**
   * The simulation: a step of the whole engine gives the pane's watcher, and adds to the
   * reader's inbox, exactly what the step of the replication protocol does.
   */
  lemma {:induction false} StepProjects(s: Session, sys: R.Sys, step: Step, pane: PaneId, maxHistory: nat)
    requires Projects(s, sys, pane, maxHistory) && Permitted(s, step, pane, maxHistory)
    ensures Represents(Next(s, step, pane, maxHistory),
                       Mirrored(sys, Mirror(s, step, pane, maxHistory), pane, maxHistory), pane)
  {
    match step
    case ReaderAttach(c, since) => ReaderAttachProjects(s, sys, c, since, pane, maxHistory);
    case Deliver => DeliverProjects(s, sys, step, pane, maxHistory);
    case DropConnection => DeliverProjects(s, sys, step, pane, maxHistory);
    case EngineStep(Attach(c, p, since)) => AnyAttachProjects(s, sys, c, p, since, pane, maxHistory);
    case EngineStep(Capture(a, output)) => CaptureProjects(s, sys, a, output, pane, maxHistory);
    case EngineStep(Detach(c, p)) => DetachProjects(s, sys, c, p, pane, maxHistory);
    case EngineStep(DetachAll(c)) => DetachAllProjects(s, sys, c, pane, maxHistory);
    case EngineStep(Poll(p, output)) => PollProjects(s, sys, p, output, pane, maxHistory);
    case EngineStep(PollRetired(id, output)) => PollRetiredProjects(s, sys, id, output, pane, maxHistory);
  }

  lemma ReaderAttachAllowed(s: Session, sys: R.Sys, c: ClientId, since: Option<int>, pane: PaneId, maxHistory: nat)
    requires Projects(s, sys, pane, maxHistory) && Permitted(s, ReaderAttach(c, since), pane, maxHistory)
    ensures R.Allowed(sys, R.ReaderAttach(c, since))
  {
    assert sys.awaiting[c] == WaitingFor(s.host, c, pane);
    if c in sys.awaiting {
      assert H.Waiting(c, pane, s.host.current[pane]) in s.host.waiting;
    }
  }

  lemma LeaveAllowed(s: Session, sys: R.Sys, c: ClientId, engine: E.State, pane: PaneId, maxHistory: nat)
    requires Projects(s, sys, pane, maxHistory) && pane in s.host.engine.panes && pane in engine.panes
    requires engine == E.DetachAll(s.host.engine, c) || engine == E.Detach(s.host.engine, c, pane)
    ensures R.Allowed(sys, R.Detach(c))
  {
  }

  lemma StrayPermitted(s: Session, sys: R.Sys, step: Step, pane: PaneId, maxHistory: nat)
    ensures var stray := StrayEvent(s, step, pane, maxHistory);
            stray.Some? ==> D.Permitted(sys, D.Stray(stray.value))
  {
  }

  lemma LeavePermitted(s: Session, sys: R.Sys, step: H.Step, c: ClientId, pane: PaneId, maxHistory: nat)
    requires Projects(s, sys, pane, maxHistory) && Permitted(s, EngineStep(step), pane, maxHistory)
    requires pane in s.host.engine.panes && (step == H.Detach(c, pane) || step == H.DetachAll(c))
    ensures R.Allowed(sys, R.Detach(c))
  {
    var engine := if step.Detach? then E.Detach(s.host.engine, c, pane) else E.DetachAll(s.host.engine, c);
    assert pane in engine.panes;
    LeaveAllowed(s, sys, c, engine, pane, maxHistory);
  }

  /** The step a permitted step amounts to is permitted. */
  lemma MirrorPermitted(s: Session, sys: R.Sys, step: Step, pane: PaneId, maxHistory: nat)
    requires Projects(s, sys, pane, maxHistory) && Permitted(s, step, pane, maxHistory)
    ensures Mirror(s, step, pane, maxHistory).Some? ==> D.Permitted(sys, Mirror(s, step, pane, maxHistory).value)
  {
    StrayPermitted(s, sys, step, pane, maxHistory);
    match step
    case ReaderAttach(c, since) => ReaderAttachAllowed(s, sys, c, since, pane, maxHistory);
    case EngineStep(Detach(c, p)) =>
      if p == pane && pane in s.host.engine.panes {
        LeavePermitted(s, sys, step.step, c, pane, maxHistory);
      }
    case EngineStep(DetachAll(c)) =>
      if pane in s.host.engine.panes {
        LeavePermitted(s, sys, step.step, c, pane, maxHistory);
      }
    case _ =>
  }

  lemma StepKeepsProjection(s: Session, sys: R.Sys, step: Step, pane: PaneId, maxHistory: nat)
    requires Projects(s, sys, pane, maxHistory) && Permitted(s, step, pane, maxHistory)
    ensures Projects(Next(s, step, pane, maxHistory),
                     Mirrored(sys, Mirror(s, step, pane, maxHistory), pane, maxHistory), pane, maxHistory)
  {
    StepProjects(s, sys, step, pane, maxHistory);
    var mirror := Mirror(s, step, pane, maxHistory);
    if mirror.Some? && mirror.value.Protocol? {
      R.EngineStep(sys, mirror.value.step, pane, maxHistory);
    }
    if step.EngineStep? || step.ReaderAttach? {
      H.StepKeepsHost(s.host, if step.EngineStep? then step.step else H.Attach(step.client, pane, step.since),
                      maxHistory);
    }
  }
}

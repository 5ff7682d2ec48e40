/**
 * The relay proxy: sessions that hold client frames back until their upstream is
 * open, connection admission, and the counters of the status report.
 */
module Relay {
  import opened Common

  type Frame = seq<bv8>

  const MAX_WS_PAYLOAD_BYTES: nat := 1024 * 1024 * 4
  const MAX_UPSTREAM_PENDING_MESSAGES: nat := 64
  const MAX_UPSTREAM_PENDING_BYTES: nat := MAX_WS_PAYLOAD_BYTES * 4

  /** The ready state of the upstream socket; once it left the open state it never returns to it. */
  datatype Upstream = Connecting | Open | Ended

  /**
   * accepted are the client frames the session took responsibility for, delivered
   * those handed to the upstream socket.
   */
  datatype Session = Session(
    upstream: Upstream,
    pending: seq<Frame>,
    pendingBytes: nat,
    upstreamBytes: nat,
    downstreamBytes: nat,
    isClosing: bool,
    accepted: seq<Frame>,
    delivered: seq<Frame>)

  const NEW_SESSION := Session(Connecting, [], 0, 0, 0, false, [], [])

  // ---- One session ----

  function OnClientMessage(s: Session, frame: Frame, sendOk: bool): Session {
    var t := s.(upstreamBytes := s.upstreamBytes + |frame|);
    if !s.upstream.Open? then
      if |s.pending| >= MAX_UPSTREAM_PENDING_MESSAGES || s.pendingBytes + |frame| > MAX_UPSTREAM_PENDING_BYTES then
        t.(isClosing := true)
      else
        t.(pending := s.pending + [frame], pendingBytes := s.pendingBytes + |frame|, accepted := s.accepted + [frame])
    else if sendOk then
      t.(accepted := s.accepted + [frame], delivered := s.delivered + [frame])
    else
      t.(accepted := s.accepted + [frame], isClosing := true)
  }

  /** The flush when the upstream opens; sends is how many sends in a row succeed. */
  function OnUpstreamOpen(s: Session, sends: nat): Session {
    if sends < |s.pending| then
      s.(upstream := Open, delivered := s.delivered + s.pending[..sends], isClosing := true)
    else
      s.(upstream := Open, delivered := s.delivered + s.pending, pending := [], pendingBytes := 0)
  }

  function OnUpstreamMessage(s: Session, frame: Frame, clientOpen: bool, sendOk: bool): Session {
    if !clientOpen then s
    else s.(downstreamBytes := s.downstreamBytes + |frame|, isClosing := !sendOk)
  }

  function TotalBytes(frames: seq<Frame>): nat {
    if frames == [] then 0 else TotalBytes(frames[..|frames| - 1]) + |frames[|frames| - 1]|
  }

  /** What the backlog promises: first in, first out, nothing lost or reordered, within both caps. */
  ghost predicate SessionInv(s: Session) {
    && s.pendingBytes == TotalBytes(s.pending) <= MAX_UPSTREAM_PENDING_BYTES
    && |s.pending| <= MAX_UPSTREAM_PENDING_MESSAGES
    && (!s.isClosing ==> s.delivered + s.pending == s.accepted)
    && s.delivered <= s.accepted
    && (s.upstream.Open? && !s.isClosing ==> s.pending == [])
  }

  lemma ClientMessageKeepsFifo(s: Session, frame: Frame, sendOk: bool)
    requires SessionInv(s) && !s.isClosing
    ensures SessionInv(OnClientMessage(s, frame, sendOk))
  {
    assert (s.pending + [frame])[..|s.pending|] == s.pending;
    assert s.delivered + (s.pending + [frame]) == s.delivered + s.pending + [frame];
  }

  lemma UpstreamOpenKeepsFifo(s: Session, sends: nat)
    requires SessionInv(s) && !s.isClosing && s.upstream.Connecting?
    ensures SessionInv(OnUpstreamOpen(s, sends))
    ensures OnUpstreamOpen(s, sends).isClosing <==> sends < |s.pending|
  {
    assert s.accepted == s.delivered + s.pending;
    if sends < |s.pending| {
      assert s.pending == s.pending[..sends] + s.pending[sends..];
      assert s.accepted == s.delivered + s.pending[..sends] + s.pending[sends..];
    }
  }

  // ---- The proxy ----

  datatype Stats = Stats(
    activeConnections: nat,
    totalConnections: nat,
    peakActiveConnections: nat,
    upstreamBytes: nat,
    downstreamBytes: nat)

  /** everOpened are all sessions there ever were, by number; live the numbers of those still registered. */
  datatype State = State(
    everOpened: seq<Session>,
    live: set<nat>,
    stats: Stats,
    reserved: set<nat>,
    inFlightUpgrades: nat,
    shuttingDown: bool)

  datatype Step =
    | Upgrade(request: nat, valid: bool)
    | UpgradeDone(request: nat, wired: bool)
    | UpgradeFailed(request: nat)
    | ClientMessage(id: nat, frame: Frame, sendOk: bool)
    | UpstreamOpened(id: nat, sends: nat)
    | UpstreamMessage(id: nat, frame: Frame, clientOpen: bool, sendOk: bool)
    | UpstreamLeftOpen(id: nat)
    | SessionClosed(id: nat)
    | Shutdown

  function Init(): State {
    State([], {}, Stats(0, 0, 0, 0, 0), {}, 0, false)
  }

  /** A session changed; if it is closing now it is no longer registered. */
  function Replace(s: State, id: nat, session: Session): State
    requires id < |s.everOpened|
  {
    var live := if session.isClosing then s.live - {id} else s.live;
    s.(everOpened := s.everOpened[id := session],
       live := live,
       stats := if session.isClosing then s.stats.(activeConnections := |live|) else s.stats)
  }

  function Release(s: State, request: nat): State {
    if request in s.reserved then
      s.(reserved := s.reserved - {request}, inFlightUpgrades := Max(0, s.inFlightUpgrades - 1))
    else s
  }

  function Wire(s: State): State {
    var active := s.stats.activeConnections + 1;
    s.(everOpened := s.everOpened + [NEW_SESSION],
       live := s.live + {|s.everOpened|},
       stats := s.stats.(activeConnections := active, totalConnections := s.stats.totalConnections + 1,
                         peakActiveConnections := Max(active, s.stats.peakActiveConnections)))
  }

  /** Whether the listeners of a session are still attached. */
  predicate Listening(s: State, id: nat) {
    id in s.live && id < |s.everOpened| && !s.shuttingDown && !s.everOpened[id].isClosing
  }

  function Next(s: State, step: Step, maxConnections: nat): State {
    match step
    case Upgrade(request, valid) =>
      if s.shuttingDown || !valid || |s.live| + s.inFlightUpgrades >= maxConnections || request in s.reserved then s
      else s.(reserved := s.reserved + {request}, inFlightUpgrades := s.inFlightUpgrades + 1)
    case UpgradeDone(request, wired) =>
      if request !in s.reserved then s
      else Release(if s.shuttingDown || !wired then s else Wire(s), request)
    case UpgradeFailed(request) => Release(s, request)
    case ClientMessage(id, frame, sendOk) =>
      if !Listening(s, id) then s
      else
        var t := s.(stats := s.stats.(upstreamBytes := s.stats.upstreamBytes + |frame|));
        Replace(t, id, OnClientMessage(s.everOpened[id], frame, sendOk))
    case UpstreamOpened(id, sends) =>
      if !Listening(s, id) || !s.everOpened[id].upstream.Connecting? then s
      else Replace(s, id, OnUpstreamOpen(s.everOpened[id], sends))
    case UpstreamMessage(id, frame, clientOpen, sendOk) =>
      if !Listening(s, id) then s
      else
        var t := if clientOpen then s.(stats := s.stats.(downstreamBytes := s.stats.downstreamBytes + |frame|)) else s;
        Replace(t, id, OnUpstreamMessage(s.everOpened[id], frame, clientOpen, sendOk))
    case UpstreamLeftOpen(id) =>
      if !Listening(s, id) then s else Replace(s, id, s.everOpened[id].(upstream := Ended))
    case SessionClosed(id) =>
      if !Listening(s, id) then s else Replace(s, id, s.everOpened[id].(isClosing := true))
    case Shutdown =>
      if s.shuttingDown then s else s.(live := {}, stats := s.stats.(activeConnections := 0), shuttingDown := true)
  }

  function Run(steps: seq<Step>, maxConnections: nat): State {
    if steps == [] then Init()
    else Next(Run(steps[..|steps| - 1], maxConnections), steps[|steps| - 1], maxConnections)
  }

  function SumUp(sessions: seq<Session>): nat {
    if sessions == [] then 0 else SumUp(sessions[..|sessions| - 1]) + sessions[|sessions| - 1].upstreamBytes
  }

  function SumDown(sessions: seq<Session>): nat {
    if sessions == [] then 0 else SumDown(sessions[..|sessions| - 1]) + sessions[|sessions| - 1].downstreamBytes
  }

  lemma {:induction false} SumUpdate(sessions: seq<Session>, id: nat, session: Session)
    requires id < |sessions|
    ensures SumUp(sessions[id := session]) == SumUp(sessions) - sessions[id].upstreamBytes + session.upstreamBytes
    ensures SumDown(sessions[id := session]) == SumDown(sessions) - sessions[id].downstreamBytes
        + session.downstreamBytes
  {
    var n := |sessions| - 1;
    if id < n {
      SumUpdate(sessions[..n], id, session);
      assert sessions[id := session][..n] == sessions[..n][id := session];
    } else {
      assert sessions[id := session][..n] == sessions[..n];
    }
  }

  ghost predicate SessionsInv(s: State) {
    && (forall i :: 0 <= i < |s.everOpened| ==> SessionInv(s.everOpened[i]))
    && (forall i :: i in s.live ==> i < |s.everOpened| && !s.everOpened[i].isClosing)
  }

  /** The counters of the status report say what really happened. */
  ghost predicate Accounted(s: State, maxConnections: nat) {
    && s.inFlightUpgrades == |s.reserved|
    && |s.live| + |s.reserved| <= maxConnections
    && s.stats.activeConnections == |s.live| <= s.stats.peakActiveConnections <= s.stats.totalConnections ==
        |s.everOpened|
    && s.stats.upstreamBytes == SumUp(s.everOpened) && s.stats.downstreamBytes == SumDown(s.everOpened)
  }

  lemma ReplaceKeepsSessions(s: State, id: nat, session: Session)
    requires SessionsInv(s) && Listening(s, id) && SessionInv(session)
    ensures SessionsInv(Replace(s, id, session))
  {
    var t := Replace(s, id, session);
    forall i | 0 <= i < |t.everOpened|
      ensures SessionInv(t.everOpened[i])
    {
      assert i != id ==> t.everOpened[i] == s.everOpened[i];
    }
  }

  lemma ReplaceKeepsAccounts(s: State, t: State, id: nat, session: Session, maxConnections: nat)
    requires SessionsInv(s) && Accounted(s, maxConnections) && Listening(s, id)
    requires t == s.(stats := t.stats)
    requires t.stats == s.stats.(upstreamBytes := t.stats.upstreamBytes, downstreamBytes := t.stats.downstreamBytes)
    requires t.stats.upstreamBytes == s.stats.upstreamBytes + session.upstreamBytes - s.everOpened[id].upstreamBytes
    requires t.stats.downstreamBytes == s.stats.downstreamBytes
        + session.downstreamBytes - s.everOpened[id].downstreamBytes
    ensures Accounted(Replace(t, id, session), maxConnections)
  {
    SumUpdate(s.everOpened, id, session);
  }

  lemma WireKeepsSessions(s: State)
    requires SessionsInv(s)
    ensures SessionsInv(Wire(s)) && |s.everOpened| !in s.live
  {
    var t := Wire(s);
    assert forall i :: 0 <= i < |t.everOpened| ==> SessionInv(t.everOpened[i]);
  }

  lemma WireKeepsInv(s: State, request: nat, maxConnections: nat)
    requires SessionsInv(s) && Accounted(s, maxConnections) && request in s.reserved
    ensures SessionsInv(Release(Wire(s), request)) && Accounted(Release(Wire(s), request), maxConnections)
  {
    WireKeepsSessions(s);
    assert Wire(s).everOpened[..|s.everOpened|] == s.everOpened;
  }

  lemma {:induction false} ClientMessageKeepsInv(s: State, id: nat, frame: Frame, sendOk: bool, maxConnections: nat)
    requires SessionsInv(s) && Accounted(s, maxConnections) && Listening(s, id)
    ensures var t := Next(s, ClientMessage(id, frame, sendOk), maxConnections);
            SessionsInv(t) && Accounted(t, maxConnections)
  {
    var session := s.everOpened[id];
    var t := s.(stats := s.stats.(upstreamBytes := s.stats.upstreamBytes + |frame|));
    ClientMessageKeepsFifo(session, frame, sendOk);
    ReplaceKeepsSessions(t, id, OnClientMessage(session, frame, sendOk));
    ReplaceKeepsAccounts(s, t, id, OnClientMessage(session, frame, sendOk), maxConnections);
  }

  lemma UpstreamMessageKeepsInv(s: State, id: nat, frame: Frame, clientOpen: bool, sendOk: bool, maxConnections: nat)
    requires SessionsInv(s) && Accounted(s, maxConnections) && Listening(s, id)
    ensures var t := Next(s, UpstreamMessage(id, frame, clientOpen, sendOk), maxConnections);
            SessionsInv(t) && Accounted(t, maxConnections)
  {
    var session := s.everOpened[id];
    var t := if clientOpen then s.(stats := s.stats.(downstreamBytes := s.stats.downstreamBytes + |frame|)) else s;
    ReplaceKeepsSessions(t, id, OnUpstreamMessage(session, frame, clientOpen, sendOk));
    ReplaceKeepsAccounts(s, t, id, OnUpstreamMessage(session, frame, clientOpen, sendOk), maxConnections);
  }

  lemma SessionStepKeepsInv(s: State, step: Step, maxConnections: nat)
    requires SessionsInv(s) && Accounted(s, maxConnections)
    requires step.UpstreamOpened? || step.UpstreamLeftOpen? || step.SessionClosed?
    ensures SessionsInv(Next(s, step, maxConnections)) && Accounted(Next(s, step, maxConnections), maxConnections)
  {
    if Listening(s, step.id) {
      var session := s.everOpened[step.id];
      if step.UpstreamOpened? && session.upstream.Connecting? {
        UpstreamOpenKeepsFifo(session, step.sends);
      }
      var changed := match step
        case UpstreamOpened(_, sends) => if session.upstream.Connecting? then OnUpstreamOpen(session, sends)
            else session
        case UpstreamLeftOpen(_) => session.(upstream := Ended)
        case SessionClosed(_) => session.(isClosing := true);
      ReplaceKeepsSessions(s, step.id, changed);
      ReplaceKeepsAccounts(s, s, step.id, changed, maxConnections);
    }
  }

  lemma AdmissionKeepsInv(s: State, step: Step, maxConnections: nat)
    requires SessionsInv(s) && Accounted(s, maxConnections)
    requires step.Upgrade? || step.UpgradeDone? || step.UpgradeFailed? || step.Shutdown?
    ensures SessionsInv(Next(s, step, maxConnections)) && Accounted(Next(s, step, maxConnections), maxConnections)
  {
    if step.UpgradeDone? && step.request in s.reserved && !s.shuttingDown && step.wired {
      WireKeepsInv(s, step.request, maxConnections);
    }
  }

  /** In every reachable state every session is first in, first out, and the counters are exact. */
  lemma {:induction false} RelayInvariant(steps: seq<Step>, maxConnections: nat)
    ensures SessionsInv(Run(steps, maxConnections)) && Accounted(Run(steps, maxConnections), maxConnections)
  {
    if steps != [] {
      var init := steps[..|steps| - 1];
      RelayInvariant(init, maxConnections);
      var s := Run(init, maxConnections);
      match steps[|steps| - 1]
      case ClientMessage(id, frame, sendOk) =>
        if Listening(s, id) {
          ClientMessageKeepsInv(s, id, frame, sendOk, maxConnections);
        }
      case UpstreamMessage(id, frame, clientOpen, sendOk) =>
        if Listening(s, id) {
          UpstreamMessageKeepsInv(s, id, frame, clientOpen, sendOk, maxConnections);
        }
      case UpstreamOpened(_, _) => SessionStepKeepsInv(s, steps[|steps| - 1], maxConnections);
      case UpstreamLeftOpen(_) => SessionStepKeepsInv(s, steps[|steps| - 1], maxConnections);
      case SessionClosed(_) => SessionStepKeepsInv(s, steps[|steps| - 1], maxConnections);
      case _ => AdmissionKeepsInv(s, steps[|steps| - 1], maxConnections);
    }
  }

  /** The client frames that reached the message handler of a session during a run. */
  function Received(steps: seq<Step>, maxConnections: nat, id: nat): seq<Frame> {
    if steps == [] then []
    else
      var init := steps[..|steps| - 1];
      Extended(Received(init, maxConnections, id), Run(init, maxConnections), steps[|steps| - 1], id)
  }

  function Extended(received: seq<Frame>, s: State, step: Step, id: nat): seq<Frame> {
    if step.ClientMessage? && step.id == id && Listening(s, id) then received + [step.frame] else received
  }

  /** A session took over exactly what was received, except for the one frame that overflowed its backlog. */
  ghost predicate TookOver(s: Session, received: seq<Frame>) {
    && s.upstreamBytes == TotalBytes(received)
    && (s.accepted == received
        || (s.isClosing && |received| > 0 && s.accepted == received[..|received| - 1]))
  }

  ghost predicate TookOverBy(s: State, id: nat, received: seq<Frame>) {
    if id < |s.everOpened| then TookOver(s.everOpened[id], received) else received == []
  }

  lemma ClientMessageTakesOver(s: Session, frame: Frame, sendOk: bool, received: seq<Frame>)
    requires TookOver(s, received) && !s.isClosing
    ensures TookOver(OnClientMessage(s, frame, sendOk), received + [frame])
  {
    assert (received + [frame])[..|received|] == received;
  }

  /** No step but a client message touches what a session took over, and none reopens a session. */
  lemma OtherStepsTakeNothing(s: State, step: Step, maxConnections: nat, id: nat)
    requires id < |s.everOpened| && !(step.ClientMessage? && step.id == id)
    ensures id < |Next(s, step, maxConnections).everOpened|
    ensures var before := s.everOpened[id]; var after := Next(s, step, maxConnections).everOpened[id];
            after.accepted == before.accepted && after.upstreamBytes == before.upstreamBytes
                && (before.isClosing ==> after.isClosing)
  {
  }

  lemma NewSessionTookNothing(s: State, step: Step, maxConnections: nat, id: nat)
    requires |s.everOpened| <= id < |Next(s, step, maxConnections).everOpened|
    ensures Next(s, step, maxConnections).everOpened[id] == NEW_SESSION
  {
  }

  lemma TookOverStep(s: State, step: Step, maxConnections: nat, id: nat, received: seq<Frame>)
    requires TookOverBy(s, id, received)
    ensures TookOverBy(Next(s, step, maxConnections), id, Extended(received, s, step, id))
  {
    if id >= |s.everOpened| {
      if id < |Next(s, step, maxConnections).everOpened| {
        NewSessionTookNothing(s, step, maxConnections, id);
      }
    } else if step.ClientMessage? && step.id == id {
      if Listening(s, id) {
        ClientMessageTakesOver(s.everOpened[id], step.frame, step.sendOk, received);
      }
    } else {
      OtherStepsTakeNothing(s, step, maxConnections, id);
    }
  }

  lemma {:induction false} ReceivedIsTakenOver(steps: seq<Step>, maxConnections: nat, id: nat)
    ensures TookOverBy(Run(steps, maxConnections), id, Received(steps, maxConnections, id))
  {
    if steps != [] {
      var init := steps[..|steps| - 1];
      ReceivedIsTakenOver(init, maxConnections, id);
      TookOverStep(Run(init, maxConnections), steps[|steps| - 1], maxConnections, id,
                   Received(init, maxConnections, id));
    }
  }

  /**
   * What went upstream is a prefix of what the client sent. While the session is not
   * closing, what went upstream followed by the backlog is all of it, and an open
   * upstream leaves no backlog.
   */
  lemma {:induction false} RelayFifo(steps: seq<Step>, maxConnections: nat, id: nat)
    requires id < |Run(steps, maxConnections).everOpened|
    ensures var s := Run(steps, maxConnections).everOpened[id]; var received := Received(steps, maxConnections, id);
            && s.delivered <= received
            && s.upstreamBytes == TotalBytes(received)
            && (!s.isClosing ==> s.delivered + s.pending == received)
            && (!s.isClosing && s.upstream.Open? ==> s.delivered == received)
            && s.pendingBytes == TotalBytes(s.pending)
            && |s.pending| <= MAX_UPSTREAM_PENDING_MESSAGES && s.pendingBytes <= MAX_UPSTREAM_PENDING_BYTES
  {
    RelayInvariant(steps, maxConnections);
    ReceivedIsTakenOver(steps, maxConnections, id);
  }

  lemma PeakStep(s: State, step: Step, maxConnections: nat)
    requires s.stats.activeConnections == |s.live|
    ensures var t := Next(s, step, maxConnections);
            && s.stats.peakActiveConnections <= t.stats.peakActiveConnections
            && (t.stats.peakActiveConnections == s.stats.peakActiveConnections
                || t.stats.peakActiveConnections == t.stats.activeConnections)
  {
  }

  /** The peak counter is the true maximum of live sessions over the run so far: never exceeded, and reached. */
  lemma {:induction false} PeakIsMaximum(steps: seq<Step>, maxConnections: nat) returns (at: nat)
    ensures forall k :: 0 <= k <= |steps| ==>
              |Run(steps[..k], maxConnections).live| <= Run(steps, maxConnections).stats.peakActiveConnections
    ensures at <= |steps| && |Run(steps[..at], maxConnections).live| ==
        Run(steps, maxConnections).stats.peakActiveConnections
  {
    assert steps[..|steps|] == steps;
    ghost var s := Run(steps, maxConnections);
    RelayInvariant(steps, maxConnections);
    assert |s.live| <= s.stats.peakActiveConnections;
    if steps == [] {
      at := 0;
    } else {
      var init := steps[..|steps| - 1];
      ghost var was := Run(init, maxConnections);
      at := PeakIsMaximum(init, maxConnections);
      RelayInvariant(init, maxConnections);
      PeakStep(was, steps[|steps| - 1], maxConnections);
      forall k | 0 <= k <= |steps|
        ensures |Run(steps[..k], maxConnections).live| <= s.stats.peakActiveConnections
      {
        if k < |steps| {
          assert steps[..k] == init[..k];
        }
      }
      if s.stats.peakActiveConnections != was.stats.peakActiveConnections {
        at := |steps|;
      } else {
        assert steps[..at] == init[..at];
      }
    }
  }

  // ---- The objects ----

  class RelaySession {
    ghost const id: nat
    var upstream: Upstream
    var pendingUpstreamMessages: seq<Frame>
    var pendingUpstreamQueuedBytes: nat
    var upstreamBytes: nat
    var downstreamBytes: nat
    var isClosing: bool
    var sentUpstream: seq<Frame>
    ghost var accepted: seq<Frame>

    constructor (ghost id: nat)
      ensures Value() == NEW_SESSION && this.id == id
    {
      this.id := id;
      upstream, pendingUpstreamMessages, pendingUpstreamQueuedBytes := Connecting, [], 0;
      upstreamBytes, downstreamBytes, isClosing, sentUpstream, accepted := 0, 0, false, [], [];
    }

    ghost function Value(): Session
      reads this
    {
      Session(upstream, pendingUpstreamMessages, pendingUpstreamQueuedBytes, upstreamBytes, downstreamBytes, isClosing,
              accepted, sentUpstream)
    }

    method ReceiveFromClient(frame: Frame, sendOk: bool)
      requires !isClosing
      modifies this
      ensures Value() == OnClientMessage(old(Value()), frame, sendOk)
    {
      upstreamBytes := upstreamBytes + |frame|;
      if !upstream.Open? {
        if |pendingUpstreamMessages| >= MAX_UPSTREAM_PENDING_MESSAGES
           || pendingUpstreamQueuedBytes + |frame| > MAX_UPSTREAM_PENDING_BYTES {
          isClosing := true;
          return;
        }
        pendingUpstreamMessages := pendingUpstreamMessages + [frame];
        pendingUpstreamQueuedBytes := pendingUpstreamQueuedBytes + |frame|;
        accepted := accepted + [frame];
        return;
      }
      accepted := accepted + [frame];
      SafeSend(frame, sendOk);
    }

    /** A send on the upstream socket; a failure closes the session. */
    method SafeSend(frame: Frame, sendOk: bool)
      modifies this`sentUpstream, this`isClosing
      ensures sentUpstream == (if sendOk then old(sentUpstream) + [frame] else old(sentUpstream))
      ensures isClosing == (old(isClosing) || !sendOk)
    {
      if sendOk {
        sentUpstream := sentUpstream + [frame];
      } else {
        isClosing := true;
      }
    }

    /** Flushes the backlog, stopping at the first failed send. */
    method UpstreamOpen(sends: nat)
      requires !isClosing
      modifies this
      ensures Value() == OnUpstreamOpen(old(Value()), sends)
    {
      upstream := Open;
      var i := 0;
      while i < |pendingUpstreamMessages|
        invariant i <= |pendingUpstreamMessages| && i <= sends
        invariant Value() == old(Value()).(upstream := Open,
                                           delivered := old(sentUpstream) + pendingUpstreamMessages[..i])
      {
        SafeSend(pendingUpstreamMessages[i], i < sends);
        if isClosing {
          return;
        }
        i := i + 1;
      }
      assert pendingUpstreamMessages[..i] == pendingUpstreamMessages;
      pendingUpstreamMessages := [];
      pendingUpstreamQueuedBytes := 0;
    }

    method ReceiveFromUpstream(frame: Frame, clientOpen: bool, sendOk: bool)
      requires !isClosing
      modifies this
      ensures Value() == OnUpstreamMessage(old(Value()), frame, clientOpen, sendOk)
    {
      if !clientOpen {
        return;
      }
      downstreamBytes := downstreamBytes + |frame|;
      if !sendOk {
        isClosing := true;
      }
    }
  }

  class RelayProxy {
    const maxConnections: nat
    ghost var everOpened: seq<RelaySession>
    var created: nat
    var sessions: map<nat, RelaySession>
    var stats: Stats
    var inFlightUpgrades: nat
    var reserved: set<nat>
    var shuttingDown: bool

    ghost predicate Valid()
      reads this
    {
      && created == |everOpened|
      && (forall i :: 0 <= i < |everOpened| ==> everOpened[i].id == i)
      && (forall i :: i in sessions ==> i < |everOpened| && sessions[i] == everOpened[i])
    }

    ghost function Sessions(): (values: seq<Session>)
      reads this`everOpened, everOpened
      ensures |values| == |everOpened|
    {
      var all := everOpened;
      seq(|all|, i requires 0 <= i < |all| reads all => all[i].Value())
    }

    ghost function Value(): State
      reads this, everOpened
    {
      State(Sessions(), sessions.Keys, stats, reserved, inFlightUpgrades, shuttingDown)
    }

    constructor (maxConnections: nat)
      ensures Valid() && Value() == Init() && this.maxConnections == maxConnections
    {
      this.maxConnections := maxConnections;
      everOpened, created, sessions, stats := [], 0, map[], Stats(0, 0, 0, 0, 0);
      inFlightUpgrades, reserved, shuttingDown := 0, {}, false;
    }

    /** valid stands for the checks of method, path, origin and token. */
    method OnUpgrade(request: nat, valid: bool)
      requires Valid()
      modifies this`reserved, this`inFlightUpgrades
      ensures Valid() && Value() == Next(old(Value()), Upgrade(request, valid), maxConnections)
    {
      if shuttingDown || !valid || |sessions| + inFlightUpgrades >= maxConnections || request in reserved {
        return;
      }
      inFlightUpgrades := inFlightUpgrades + 1;
      reserved := reserved + {request};
    }

    method ReleaseInFlightUpgrade(request: nat)
      requires Valid()
      modifies this`reserved, this`inFlightUpgrades
      ensures Valid() && Value() == Release(old(Value()), request)
    {
      if request in reserved {
        inFlightUpgrades := Max(0, inFlightUpgrades - 1);
        reserved := reserved - {request};
      }
    }

    method OnUpgraded(request: nat, wired: bool)
      requires Valid() && request in reserved
      modifies this
      ensures Valid() && Value() == Next(old(Value()), UpgradeDone(request, wired), maxConnections)
      ensures everOpened == old(everOpened) || (|everOpened| == |old(everOpened)| + 1
                                                && fresh(everOpened[|old(everOpened)|]))
    {
      if !shuttingDown && wired {
        WireSession();
      }
      ReleaseInFlightUpgrade(request);
    }

    method WireSession()
      requires Valid()
      modifies this`everOpened, this`created, this`sessions, this`stats
      ensures Valid() && Value() == Wire(old(Value()))
      ensures |everOpened| == |old(everOpened)| + 1 && everOpened[..|old(everOpened)|] == old(everOpened)
      ensures fresh(everOpened[|old(everOpened)|])
    {
      var session := new RelaySession(created);
      sessions := sessions[created := session];
      everOpened := everOpened + [session];
      created := created + 1;
      var active := stats.activeConnections + 1;
      stats := stats.(activeConnections := active, totalConnections := stats.totalConnections + 1);
      if active > stats.peakActiveConnections {
        stats := stats.(peakActiveConnections := active);
      }
      assert Sessions() == old(Sessions()) + [NEW_SESSION];
    }

    /** The part of closing a session that the proxy does. */
    method Deregister(id: nat)
      requires Valid() && id in sessions
      modifies this`sessions, this`stats
      ensures Valid() && Value() == Replace(old(Value()), id, everOpened[id].Value())
    {
      assert Sessions() == Sessions()[id := everOpened[id].Value()];
      if sessions[id].isClosing {
        sessions := sessions - {id};
        stats := stats.(activeConnections := |sessions|);
      }
    }

    method OnClientMessage(id: nat, frame: Frame, sendOk: bool)
      requires Valid()
      modifies this`sessions, this`stats, everOpened
      ensures Valid() && Value() == Next(old(Value()), ClientMessage(id, frame, sendOk), maxConnections)
    {
      if id !in sessions || shuttingDown || sessions[id].isClosing {
        return;
      }
      stats := stats.(upstreamBytes := stats.upstreamBytes + |frame|);
      var session := sessions[id];
      session.ReceiveFromClient(frame, sendOk);
      assert Sessions() == old(Sessions())[id := session.Value()];
      Deregister(id);
    }

    method OnUpstreamOpen(id: nat, sends: nat)
      requires Valid()
      modifies this`sessions, this`stats, everOpened
      ensures Valid() && Value() == Next(old(Value()), UpstreamOpened(id, sends), maxConnections)
    {
      if id !in sessions || shuttingDown || sessions[id].isClosing || !sessions[id].upstream.Connecting? {
        return;
      }
      var session := sessions[id];
      session.UpstreamOpen(sends);
      assert Sessions() == old(Sessions())[id := session.Value()];
      Deregister(id);
    }

    method OnUpstreamMessage(id: nat, frame: Frame, clientOpen: bool, sendOk: bool)
      requires Valid()
      modifies this`sessions, this`stats, everOpened
      ensures Valid() && Value() == Next(old(Value()), UpstreamMessage(id, frame, clientOpen, sendOk), maxConnections)
    {
      if id !in sessions || shuttingDown || sessions[id].isClosing {
        return;
      }
      if clientOpen {
        stats := stats.(downstreamBytes := stats.downstreamBytes + |frame|);
      }
      var session := sessions[id];
      session.ReceiveFromUpstream(frame, clientOpen, sendOk);
      assert Sessions() == old(Sessions())[id := session.Value()];
      Deregister(id);
    }

    method CloseSession(id: nat)
      requires Valid()
      modifies this`sessions, this`stats, everOpened
      ensures Valid() && Value() == Next(old(Value()), SessionClosed(id), maxConnections)
    {
      if id !in sessions || shuttingDown || sessions[id].isClosing {
        return;
      }
      var session := sessions[id];
      session.isClosing := true;
      assert Sessions() == old(Sessions())[id := session.Value()];
      Deregister(id);
    }

    method Close()
      requires Valid()
      modifies this`sessions, this`stats, this`shuttingDown
      ensures Valid() && Value() == Next(old(Value()), Shutdown, maxConnections)
    {
      if shuttingDown {
        return;
      }
      shuttingDown := true;
      sessions := map[];
      stats := stats.(activeConnections := 0);
    }
  }
}

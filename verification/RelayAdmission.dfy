/**
 * Which upgrades the relay proxy admits, where its sessions come from, and why they end,
 * read off the steps of a run.
 */
module RelayAdmission {
  import opened Common
  import opened Relay

  lemma RunAppend(steps: seq<Step>, x: Step, maxConnections: nat)
    ensures Run(steps + [x], maxConnections) == Next(Run(steps, maxConnections), x, maxConnections)
  {
    assert (steps + [x])[..|steps|] == steps;
  }

  lemma StepShutsDown(s: State, x: Step, maxConnections: nat)
    ensures Next(s, x, maxConnections).shuttingDown <==> s.shuttingDown || x.Shutdown?
  {
  }

  lemma {:induction false} ShutDownIff(steps: seq<Step>, maxConnections: nat)
    ensures Run(steps, maxConnections).shuttingDown <==> Shutdown in steps
  {
    if steps != [] {
      var init, last := steps[..|steps| - 1], steps[|steps| - 1];
      ShutDownIff(init, maxConnections);
      StepShutsDown(Run(init, maxConnections), last, maxConnections);
      assert steps == init + [last];
    }
  }

  // ---- Admission ----

  /** The request is valid, the proxy is not shutting down, and sessions and reservations leave a place. */
  predicate Admissible(steps: seq<Step>, valid: bool, maxConnections: nat) {
    var s := Run(steps, maxConnections);
    valid && Shutdown !in steps && |s.live| + |s.reserved| < maxConnections
  }

  /** An upgrade gets a place iff it is admissible; a refused one changes nothing. */
  lemma {:induction false} UpgradeAdmittedIff(steps: seq<Step>, request: nat, valid: bool, maxConnections: nat)
    requires request !in Run(steps, maxConnections).reserved
    ensures var s := Run(steps, maxConnections); var t := Run(steps + [Upgrade(request, valid)], maxConnections);
            && (request in t.reserved <==> Admissible(steps, valid, maxConnections))
            && t == if Admissible(steps, valid, maxConnections)
                    then s.(reserved := s.reserved + {request}, inFlightUpgrades := |s.reserved| + 1) else s
  {
    RunAppend(steps, Upgrade(request, valid), maxConnections);
    RelayInvariant(steps, maxConnections);
    ShutDownIff(steps, maxConnections);
  }

  /** A place is held from an admissible upgrade until the upgrade is done or has failed. */
  lemma {:induction false} ReservedIff(steps: seq<Step>, x: Step, request: nat, maxConnections: nat)
    ensures request in Run(steps + [x], maxConnections).reserved <==>
            if request in Run(steps, maxConnections).reserved then
              !(x.UpgradeDone? && x.request == request) && x != UpgradeFailed(request)
            else x == Upgrade(request, true) && Admissible(steps, true, maxConnections)
  {
    RunAppend(steps, x, maxConnections);
    RelayInvariant(steps, maxConnections);
    ShutDownIff(steps, maxConnections);
  }

  /** A session is opened iff an upgrade that holds a place is done, wired, before a shutdown. */
  lemma {:induction false} OpenedIff(steps: seq<Step>, x: Step, maxConnections: nat)
    ensures var s, t := Run(steps, maxConnections), Run(steps + [x], maxConnections);
            |t.everOpened| ==
            |s.everOpened|
            + if x.UpgradeDone? && x.wired && x.request in s.reserved && Shutdown !in steps then 1 else 0
  {
    RunAppend(steps, x, maxConnections);
    ShutDownIff(steps, maxConnections);
  }

  /** The request has held its place since its upgrade was admitted at step k. */
  ghost predicate HeldSince(steps: seq<Step>, k: nat, request: nat, maxConnections: nat)
    requires k < |steps|
  {
    && steps[k] == Upgrade(request, true) && Admissible(steps[..k], true, maxConnections)
    && request !in Run(steps[..k], maxConnections).reserved
    && forall m :: k < m <= |steps| ==> request in Run(steps[..m], maxConnections).reserved
  }

  lemma HeldLonger(steps: seq<Step>, x: Step, k: nat, request: nat, maxConnections: nat)
    requires k < |steps| && HeldSince(steps, k, request, maxConnections)
    requires request in Run(steps + [x], maxConnections).reserved
    ensures HeldSince(steps + [x], k, request, maxConnections)
  {
    var all := steps + [x];
    assert all[..k] == steps[..k] && all[..|all|] == all;
    forall m | k < m <= |all|
      ensures request in Run(all[..m], maxConnections).reserved
    {
      if m <= |steps| {
        assert all[..m] == steps[..m];
      }
    }
  }

  lemma {:induction false} ReservedSince(steps: seq<Step>, request: nat, maxConnections: nat) returns (k: nat)
    requires request in Run(steps, maxConnections).reserved
    ensures k < |steps| && HeldSince(steps, k, request, maxConnections)
  {
    var init, last := steps[..|steps| - 1], steps[|steps| - 1];
    assert steps == init + [last] && steps[..|steps|] == steps;
    ReservedIff(init, last, request, maxConnections);
    if request in Run(init, maxConnections).reserved {
      k := ReservedSince(init, request, maxConnections);
      HeldLonger(init, last, k, request, maxConnections);
    } else {
      k := |init|;
    }
  }

  /** Session id was opened at step j, by the end of an upgrade that had held its place since step k. */
  ghost predicate OpenedBy(steps: seq<Step>, k: nat, j: nat, id: nat, maxConnections: nat) {
    && k < j < |steps| && steps[j].UpgradeDone? && steps[j].wired && Shutdown !in steps[..j]
    && HeldSince(steps[..j], k, steps[j].request, maxConnections)
    && |Run(steps[..j], maxConnections).everOpened| == id
    && |Run(steps[..j + 1], maxConnections).everOpened| == id + 1
  }

  lemma OpenedLonger(steps: seq<Step>, x: Step, k: nat, j: nat, id: nat, maxConnections: nat)
    requires OpenedBy(steps, k, j, id, maxConnections)
    ensures OpenedBy(steps + [x], k, j, id, maxConnections)
  {
    assert (steps + [x])[..j] == steps[..j] && (steps + [x])[..j + 1] == steps[..j + 1];
  }

  /**
   * Every session ever opened was opened by the end of an upgrade that was valid and
   * admissible when it came, and had held its place since.
   */
  lemma {:induction false} SessionsComeFromUpgrades(steps: seq<Step>, id: nat, maxConnections: nat)
      returns (k: nat, j: nat)
    requires id < |Run(steps, maxConnections).everOpened|
    ensures OpenedBy(steps, k, j, id, maxConnections)
  {
    var init, last := steps[..|steps| - 1], steps[|steps| - 1];
    assert steps == init + [last];
    OpenedIff(init, last, maxConnections);
    if id < |Run(init, maxConnections).everOpened| {
      k, j := SessionsComeFromUpgrades(init, id, maxConnections);
      OpenedLonger(init, last, k, j, id, maxConnections);
    } else {
      j := |init|;
      assert steps[..j] == init && steps[..j + 1] == steps;
      k := ReservedSince(init, last.request, maxConnections);
    }
  }

  // ---- The life of a session ----

  /** Step m is about a session that exists then. */
  predicate Known(steps: seq<Step>, m: nat, id: nat, maxConnections: nat)
    requires m < |steps|
  {
    id < |Run(steps[..m], maxConnections).everOpened|
  }

  ghost predicate UpstreamOpenedIn(steps: seq<Step>, id: nat, maxConnections: nat) {
    exists m :: 0 <= m < |steps| && steps[m].UpstreamOpened? && steps[m].id == id && Known(steps, m, id, maxConnections)
  }

  ghost predicate UpstreamLeftIn(steps: seq<Step>, id: nat, maxConnections: nat) {
    exists m :: 0 <= m < |steps| && steps[m] == UpstreamLeftOpen(id) && Known(steps, m, id, maxConnections)
  }

  lemma KnownStays(steps: seq<Step>, x: Step, m: nat, id: nat, maxConnections: nat)
    requires m <= |steps|
    ensures Known(steps + [x], m, id, maxConnections) <==> id < |Run(steps[..m], maxConnections).everOpened|
  {
    assert (steps + [x])[..m] == steps[..m];
  }

  lemma {:induction false} UpstreamAppend(steps: seq<Step>, x: Step, id: nat, maxConnections: nat)
    ensures var known := id < |Run(steps, maxConnections).everOpened|;
            && (UpstreamOpenedIn(steps + [x], id, maxConnections) <==>
                UpstreamOpenedIn(steps, id, maxConnections) || (known && x.UpstreamOpened? && x.id == id))
            && (UpstreamLeftIn(steps + [x], id, maxConnections) <==>
                UpstreamLeftIn(steps, id, maxConnections) || (known && x == UpstreamLeftOpen(id)))
  {
    var all := steps + [x];
    assert steps[..|steps|] == steps;
    forall m | 0 <= m <= |steps|
      ensures m < |steps| ==> all[m] == steps[m]
      ensures Known(all, m, id, maxConnections) <==> id < |Run(steps[..m], maxConnections).everOpened|
    {
      KnownStays(steps, x, m, id, maxConnections);
    }
    assert all[|steps|] == x;
  }

  lemma {:induction false} NewIsSilent(steps: seq<Step>, id: nat, maxConnections: nat)
    requires |Run(steps, maxConnections).everOpened| <= id
    ensures !UpstreamOpenedIn(steps, id, maxConnections) && !UpstreamLeftIn(steps, id, maxConnections)
  {
    if steps != [] {
      var init, last := steps[..|steps| - 1], steps[|steps| - 1];
      assert steps == init + [last];
      OpenedIff(init, last, maxConnections);
      NewIsSilent(init, id, maxConnections);
      UpstreamAppend(init, last, id, maxConnections);
    }
  }

  lemma {:induction false} LiveBefore(s: State, x: Step, id: nat, maxConnections: nat)
    requires SessionsInv(s) && id in Next(s, x, maxConnections).live
    ensures var t := Next(s, x, maxConnections);
            && id < |t.everOpened|
            && (id in s.live || (id == |s.everOpened| && x.UpgradeDone? && t.everOpened[id] == NEW_SESSION))
            && (id in s.live && !s.shuttingDown ==>
                  t.everOpened[id].upstream ==
                  if x.UpstreamOpened? && x.id == id && s.everOpened[id].upstream.Connecting? then Open
                  else if x == UpstreamLeftOpen(id) then Ended
                  else s.everOpened[id].upstream)
  {
  }

  lemma NoLiveAfterShutdown(steps: seq<Step>, maxConnections: nat)
    requires Shutdown in steps
    ensures Run(steps, maxConnections).live == {}
  {
    var init, last := steps[..|steps| - 1], steps[|steps| - 1];
    assert steps == init + [last];
    ShutDownIff(init, maxConnections);
    if last != Shutdown || Shutdown in init {
      NoLiveAfterShutdown(init, maxConnections);
    }
  }

  /** While a session lives its upstream is open iff it was reported open and has not left that state. */
  lemma {:induction false} UpstreamFollows(steps: seq<Step>, id: nat, maxConnections: nat)
    requires id in Run(steps, maxConnections).live
    ensures var s := Run(steps, maxConnections);
            var wasOpened, left := UpstreamOpenedIn(steps, id, maxConnections),
                UpstreamLeftIn(steps, id, maxConnections);
            id < |s.everOpened| && s.everOpened[id].upstream == if left then Ended else if wasOpened then Open
                                                                else Connecting
  {
    var init, last := steps[..|steps| - 1], steps[|steps| - 1];
    assert steps == init + [last];
    var s := Run(init, maxConnections);
    RelayInvariant(init, maxConnections);
    ShutDownIff(init, maxConnections);
    LiveBefore(s, last, id, maxConnections);
    UpstreamAppend(init, last, id, maxConnections);
    if id in s.live {
      if Shutdown in init {
        NoLiveAfterShutdown(init, maxConnections);
      }
      UpstreamFollows(init, id, maxConnections);
    } else {
      NewIsSilent(init, id, maxConnections);
    }
  }

  /** The backlog has no room for the frame: 64 frames, or more than 16 MiB with it. */
  predicate Overflows(session: Session, frame: Frame) {
    |session.pending| >= 64 || TotalBytes(session.pending) + |frame| > 16 * 1024 * 1024
  }

  /**
   * Why a session ends: a client frame that overflows its backlog or cannot be passed on, a
   * flush that fails, an upstream frame that cannot be passed on, a close, or a shutdown.
   * Nothing else ends one.
   */
  lemma {:induction false} EndsIff(steps: seq<Step>, x: Step, id: nat, maxConnections: nat)
    requires id in Run(steps, maxConnections).live
    ensures var s := Run(steps, maxConnections);
            && id < |s.everOpened|
            && var session := s.everOpened[id];
               id !in Run(steps + [x], maxConnections).live <==>
               match x
               case ClientMessage(i, frame, sendOk) =>
                 i == id && if session.upstream.Open? then !sendOk else Overflows(session, frame)
               case UpstreamOpened(i, sends) => i == id && session.upstream.Connecting? && sends < |session.pending|
               case UpstreamMessage(i, _, clientOpen, sendOk) => i == id && clientOpen && !sendOk
               case SessionClosed(i) => i == id
               case Shutdown => true
               case _ => false
  {
    RunAppend(steps, x, maxConnections);
    RelayInvariant(steps, maxConnections);
    ShutDownIff(steps, maxConnections);
    if Shutdown in steps {
      NoLiveAfterShutdown(steps, maxConnections);
    }
  }

  /** The upstream frames that reached a live session while its client was open. */
  function Forwarded(steps: seq<Step>, id: nat, maxConnections: nat): seq<Frame> {
    if steps == [] then []
    else
      var init, last := steps[..|steps| - 1], steps[|steps| - 1];
      Forwarded(init, id, maxConnections)
      + if last.UpstreamMessage? && last.id == id && last.clientOpen && id in Run(init, maxConnections).live
        then [last.frame] else []
  }

  lemma ForwardStep(s: State, x: Step, id: nat, maxConnections: nat)
    requires SessionsInv(s) && (s.shuttingDown ==> s.live == {}) && x.UpstreamMessage?
    ensures var t := Next(s, x, maxConnections);
            && |t.everOpened| == |s.everOpened|
            && (id < |t.everOpened| ==>
                  t.everOpened[id].downstreamBytes ==
                  s.everOpened[id].downstreamBytes
                  + if x.id == id && x.clientOpen && id in s.live then |x.frame| else 0)
  {
  }

  lemma OtherStep(s: State, x: Step, id: nat, maxConnections: nat)
    requires !x.UpstreamMessage?
    ensures var t := Next(s, x, maxConnections);
            && |s.everOpened| <= |t.everOpened|
            && (id < |s.everOpened| ==> t.everOpened[id].downstreamBytes == s.everOpened[id].downstreamBytes)
            && (|s.everOpened| <= id < |t.everOpened| ==> t.everOpened[id].downstreamBytes == 0)
  {
    match x
    case ClientMessage(_, _, _) =>
    case UpstreamOpened(_, _) =>
    case _ =>
  }

  /** What a step adds to a session's downstream counter. */
  lemma DownstreamStep(s: State, x: Step, id: nat, maxConnections: nat)
    requires SessionsInv(s) && (s.shuttingDown ==> s.live == {})
    ensures var t := Next(s, x, maxConnections);
            id < |t.everOpened| ==>
              t.everOpened[id].downstreamBytes ==
              (if id < |s.everOpened| then s.everOpened[id].downstreamBytes else 0)
              + if x.UpstreamMessage? && x.id == id && x.clientOpen && id in s.live then |x.frame| else 0
    ensures |s.everOpened| <= |Next(s, x, maxConnections).everOpened|
  {
    if x.UpstreamMessage? {
      ForwardStep(s, x, id, maxConnections);
    } else {
      OtherStep(s, x, id, maxConnections);
    }
  }

  lemma TotalAppend(frames: seq<Frame>, frame: Frame)
    ensures TotalBytes(frames + [frame]) == TotalBytes(frames) + |frame|
  {
    assert (frames + [frame])[..|frames|] == frames;
  }

  lemma LiveIsOpened(steps: seq<Step>, maxConnections: nat)
    ensures var s := Run(steps, maxConnections);
            && SessionsInv(s) && (s.shuttingDown ==> s.live == {})
            && forall id :: id in s.live ==> id < |s.everOpened|
  {
    RelayInvariant(steps, maxConnections);
    ShutDownIff(steps, maxConnections);
    if Shutdown in steps {
      NoLiveAfterShutdown(steps, maxConnections);
    }
  }

  ghost predicate Counts(s: State, id: nat, forwarded: seq<Frame>) {
    if id < |s.everOpened| then s.everOpened[id].downstreamBytes == TotalBytes(forwarded) else forwarded == []
  }

  /** The downstream counter of a session is the size of the frames forwarded to its client. */
  lemma {:induction false} DownstreamCounted(steps: seq<Step>, id: nat, maxConnections: nat)
    ensures Counts(Run(steps, maxConnections), id, Forwarded(steps, id, maxConnections))
  {
    if steps != [] {
      var init, last := steps[..|steps| - 1], steps[|steps| - 1];
      DownstreamCounted(init, id, maxConnections);
      LiveIsOpened(init, maxConnections);
      CountedStep(Run(init, maxConnections), last, id, Forwarded(init, id, maxConnections), maxConnections);
    }
  }

  lemma CountedStep(s: State, x: Step, id: nat, before: seq<Frame>, maxConnections: nat)
    requires SessionsInv(s) && (s.shuttingDown ==> s.live == {}) && (id in s.live ==> id < |s.everOpened|)
    requires Counts(s, id, before)
    ensures Counts(Next(s, x, maxConnections), id,
                   before + if x.UpstreamMessage? && x.id == id && x.clientOpen && id in s.live then [x.frame] else [])
  {
    DownstreamStep(s, x, id, maxConnections);
    assert before + [] == before;
    if x.UpstreamMessage? {
      TotalAppend(before, x.frame);
    }
  }
}

/**
 * Which client may type into which pane: lane leases with an eager sweep of stale
 * leases, a specification that never sweeps, and the older map without leases.
 */
module Ownership {
  import opened Common

  datatype Lease = Lease(clientId: ClientId, expiresAtMs: int)

  datatype ClaimResult = Granted(overridden: bool) | Refused(ownerClientId: ClientId, overrideAllowed: bool)

  const DEFAULT_LEASE_DURATION_MS := 30_000

  /** A missing or non-positive duration falls back to the default. */
  function ResolveLeaseDuration(configured: Option<int>): (ms: int)
    ensures ms > 0
    ensures configured.Some? && configured.value > 0 ==> ms == configured.value
    ensures configured.None? || configured.value <= 0 ==> ms == 30_000
  {
    if configured.None? || configured.value <= 0 then DEFAULT_LEASE_DURATION_MS else configured.value
  }

  // ---- The arbiter on values ----

  function Sweep(owners: map<PaneId, Lease>, now: int): map<PaneId, Lease> {
    map p | p in owners && owners[p].expiresAtMs > now :: owners[p]
  }

  /** The owner as the claim reads it; an empty client id counts as no owner. */
  function CurrentOwner(owners: map<PaneId, Lease>, pane: PaneId): Option<ClientId> {
    if pane in owners && owners[pane].clientId != "" then Some(owners[pane].clientId) else None
  }

  /** The outcome of a claim against the current owner; the legacy map decides the same way. */
  function Decide(owner: Option<ClientId>, client: ClientId, overrideRequested: bool,
                  overrideAllowed: bool): ClaimResult {
    if owner.None? || owner.value == client then Granted(false)
    else if overrideRequested && overrideAllowed then Granted(true)
    else Refused(owner.value, overrideAllowed)
  }

  /** A claim reads the clock twice: for the sweep, and again for the new lease. */
  function Claim(owners: map<PaneId, Lease>, pane: PaneId, client: ClientId, overrideRequested: bool,
                 overrideAllowed: bool,
                 sweepNow: int, setNow: int, leaseMs: int)
    : (map<PaneId, Lease>, ClaimResult)
  {
    var live := Sweep(owners, sweepNow);
    var result := Decide(CurrentOwner(live, pane), client, overrideRequested, overrideAllowed);
    (if result.Granted? then live[pane := Lease(client, setNow + leaseMs)] else live, result)
  }

  function ReleasePane(owners: map<PaneId, Lease>, pane: PaneId, client: ClientId, now: int)
    : (map<PaneId, Lease>, bool)
  {
    var live := Sweep(owners, now);
    if pane in live && live[pane].clientId == client then (live - {pane}, true) else (live, false)
  }

  function OwnedBy(owners: map<PaneId, Lease>, client: ClientId): set<PaneId> {
    set p | p in owners && owners[p].clientId == client
  }

  function ReleaseClient(owners: map<PaneId, Lease>, client: ClientId, now: int): (map<PaneId, Lease>, nat) {
    var live := Sweep(owners, now);
    (live - OwnedBy(live, client), |OwnedBy(live, client)|)
  }

  class PaneInputOwnershipArbiter {
    var paneOwners: map<PaneId, Lease>
    const leaseDurationMs: int

    constructor (leaseDurationMs: Option<int>)
      ensures paneOwners == map[] && this.leaseDurationMs == ResolveLeaseDuration(leaseDurationMs)
    {
      this.leaseDurationMs := ResolveLeaseDuration(leaseDurationMs);
      paneOwners := map[];
    }

    method ExpireStaleOwners(now: int)
      modifies this
      ensures paneOwners == Sweep(old(paneOwners), now)
    {
      var rest := paneOwners.Keys;
      while rest != {}
        invariant rest <= paneOwners.Keys <= old(paneOwners).Keys
        invariant forall p :: p in paneOwners ==> paneOwners[p] == old(paneOwners)[p]
        invariant forall p :: p in old(paneOwners) && p !in rest ==>
                    (p in paneOwners <==> old(paneOwners)[p].expiresAtMs > now)
        decreases rest
      {
        var pane :| pane in rest;
        rest := rest - {pane};
        if paneOwners[pane].expiresAtMs <= now {
          paneOwners := paneOwners - {pane};
        }
      }
    }

    method ClaimLane(pane: PaneId, client: ClientId, overrideRequested: bool, overrideAllowed: bool, sweepNow: int,
                     setNow: int)
      returns (result: ClaimResult)
      modifies this
      ensures (paneOwners, result) ==
              Claim(old(paneOwners), pane, client, overrideRequested, overrideAllowed, sweepNow, setNow,
                    leaseDurationMs)
    {
      ExpireStaleOwners(sweepNow);
      var currentOwner := CurrentOwner(paneOwners, pane);
      if currentOwner.None? || currentOwner.value == client {
        paneOwners := paneOwners[pane := Lease(client, setNow + leaseDurationMs)];
        return Granted(false);
      }
      if overrideRequested && overrideAllowed {
        paneOwners := paneOwners[pane := Lease(client, setNow + leaseDurationMs)];
        return Granted(true);
      }
      return Refused(currentOwner.value, overrideAllowed);
    }

    method ReleasePaneIfOwnedBy(pane: PaneId, client: ClientId, now: int) returns (released: bool)
      modifies this
      ensures (paneOwners, released) == ReleasePane(old(paneOwners), pane, client, now)
    {
      ExpireStaleOwners(now);
      if pane in paneOwners && paneOwners[pane].clientId == client {
        paneOwners := paneOwners - {pane};
        return true;
      }
      return false;
    }

    method ReleaseAllOf(client: ClientId, now: int) returns (released: nat)
      modifies this
      ensures (paneOwners, released) == ReleaseClient(old(paneOwners), client, now)
    {
      ExpireStaleOwners(now);
      ghost var live, gone := paneOwners, {};
      var rest := paneOwners.Keys;
      released := 0;
      while rest != {}
        invariant rest <= paneOwners.Keys && paneOwners == live - gone
        invariant gone <= OwnedBy(live, client) && OwnedBy(live, client) - gone <= rest && gone !! rest
        invariant released == |gone|
        decreases rest
      {
        var pane :| pane in rest;
        rest := rest - {pane};
        if paneOwners[pane].clientId == client {
          paneOwners := paneOwners - {pane};
          released := released + 1;
          gone := gone + {pane};
        }
      }
      assert gone == OwnedBy(live, client);
    }

    /** The rows a status report shows, by pane. */
    method Snapshot(now: int) returns (rows: map<PaneId, Lease>)
      modifies this
      ensures rows == paneOwners == Sweep(old(paneOwners), now)
    {
      ExpireStaleOwners(now);
      rows := paneOwners;
    }
  }

  /** The older form of the state: a shared map that never expires. */
  class LegacyPaneOwners {
    var owners: map<PaneId, ClientId>

    constructor ()
      ensures owners == map[]
    {
      owners := map[];
    }

    method Claim(pane: PaneId, client: ClientId, overrideRequested: bool, overrideAllowed: bool)
        returns (result: ClaimResult)
      modifies this
      ensures (owners, result) == LegacyClaim(old(owners), pane, client, overrideRequested, overrideAllowed)
    {
      var currentOwner := if pane in owners then owners[pane] else "";
      if currentOwner == "" || currentOwner == client {
        owners := owners[pane := client];
        return Granted(false);
      }
      if overrideRequested && overrideAllowed {
        owners := owners[pane := client];
        return Granted(true);
      }
      return Refused(currentOwner, overrideAllowed);
    }

    method ReleasePane(pane: PaneId, client: ClientId) returns (released: bool)
      modifies this
      ensures (owners, released) == LegacyReleasePane(old(owners), pane, client)
    {
      if pane in owners && owners[pane] == client {
        owners := owners - {pane};
        return true;
      }
      return false;
    }

    method ReleaseClient(client: ClientId) returns (released: nat)
      modifies this
      ensures (owners, released) == LegacyReleaseClient(old(owners), client)
    {
      ghost var all, gone := owners, {};
      var rest := owners.Keys;
      released := 0;
      while rest != {}
        invariant rest <= owners.Keys && owners == all - gone
        invariant gone <= LegacyOwnedBy(all, client) && LegacyOwnedBy(all, client) - gone <= rest && gone !! rest
        invariant released == |gone|
        decreases rest
      {
        var pane :| pane in rest;
        rest := rest - {pane};
        if owners[pane] == client {
          owners := owners - {pane};
          released := released + 1;
          gone := gone + {pane};
        }
      }
      assert gone == LegacyOwnedBy(all, client);
    }
  }

  function LegacyClaim(owners: map<PaneId, ClientId>, pane: PaneId, client: ClientId, overrideRequested: bool,
                       overrideAllowed: bool)
    : (map<PaneId, ClientId>, ClaimResult)
  {
    var owner := if pane in owners && owners[pane] != "" then Some(owners[pane]) else None;
    var result := Decide(owner, client, overrideRequested, overrideAllowed);
    (if result.Granted? then owners[pane := client] else owners, result)
  }

  function LegacyReleasePane(owners: map<PaneId, ClientId>, pane: PaneId, client: ClientId)
    : (map<PaneId, ClientId>, bool)
  {
    if pane in owners && owners[pane] == client then (owners - {pane}, true) else (owners, false)
  }

  function LegacyOwnedBy(owners: map<PaneId, ClientId>, client: ClientId): set<PaneId> {
    set p | p in owners && owners[p] == client
  }

  function LegacyReleaseClient(owners: map<PaneId, ClientId>, client: ClientId): (map<PaneId, ClientId>, nat) {
    (owners - LegacyOwnedBy(owners, client), |LegacyOwnedBy(owners, client)|)
  }

  // ---- Runs ----

  datatype Op =
    | ClaimOp(pane: PaneId, client: ClientId, overrideRequested: bool, overrideAllowed: bool, sweepNow: int,
              setNow: int)
    | ReleasePaneOp(pane: PaneId, client: ClientId, now: int)
    | ReleaseClientOp(client: ClientId, now: int)
    | SnapshotOp(now: int)

  datatype Answer =
    | Claimed(result: ClaimResult)
    | ReleasedPane(released: bool)
    | ReleasedCount(count: nat)
    | Rows(owners: map<PaneId, Lease>)

  function FirstRead(op: Op): int {
    if op.ClaimOp? then op.sweepNow else op.now
  }

  function LastRead(op: Op): int {
    if op.ClaimOp? then op.setNow else op.now
  }

  /** The clock never goes back from one read to the next. */
  predicate Ordered(ops: seq<Op>, since: int) {
    ops == [] ||
    (since <= FirstRead(ops[0]) <= LastRead(ops[0]) && Ordered(ops[1..], LastRead(ops[0])))
  }

  function EagerStep(owners: map<PaneId, Lease>, op: Op, leaseMs: int): (map<PaneId, Lease>, Answer) {
    match op
    case ClaimOp(p, c, requested, allowed, sweepNow, setNow) =>
      var (o, r) := Claim(owners, p, c, requested, allowed, sweepNow, setNow, leaseMs);
      (o, Claimed(r))
    case ReleasePaneOp(p, c, now) => var (o, r) := ReleasePane(owners, p, c, now); (o, ReleasedPane(r))
    case ReleaseClientOp(c, now) => var (o, n) := ReleaseClient(owners, c, now); (o, ReleasedCount(n))
    case SnapshotOp(now) => (Sweep(owners, now), Rows(Sweep(owners, now)))
  }

  /** The specification keeps every lease and only ever looks at those that are live at the moment of the read. */
  function LazyStep(leases: map<PaneId, Lease>, op: Op, leaseMs: int): (map<PaneId, Lease>, Answer) {
    match op
    case ClaimOp(p, c, requested, allowed, sweepNow, setNow) =>
      var owner := if LiveAt(leases, p, sweepNow) && leases[p].clientId != "" then Some(leases[p].clientId) else None;
      var r := Decide(owner, c, requested, allowed);
      (if r.Granted? then leases[p := Lease(c, setNow + leaseMs)] else leases, Claimed(r))
    case ReleasePaneOp(p, c, now) =>
      var held := LiveAt(leases, p, now) && leases[p].clientId == c;
      (if held then leases - {p} else leases, ReleasedPane(held))
    case ReleaseClientOp(c, now) =>
      var held := set p | p in leases && LiveAt(leases, p, now) && leases[p].clientId == c;
      (leases - held, ReleasedCount(|held|))
    case SnapshotOp(now) =>
      (leases, Rows(map p | p in leases && LiveAt(leases, p, now) :: leases[p]))
  }

  predicate LiveAt(leases: map<PaneId, Lease>, pane: PaneId, now: int) {
    pane in leases && leases[pane].expiresAtMs > now
  }

  function LegacyStep(owners: map<PaneId, ClientId>, op: Op): (map<PaneId, ClientId>, Answer) {
    match op
    case ClaimOp(p, c, requested, allowed, _, _) =>
      var (o, r) := LegacyClaim(owners, p, c, requested, allowed);
      (o, Claimed(r))
    case ReleasePaneOp(p, c, _) => var (o, r) := LegacyReleasePane(owners, p, c); (o, ReleasedPane(r))
    case ReleaseClientOp(c, _) => var (o, n) := LegacyReleaseClient(owners, c); (o, ReleasedCount(n))
    case SnapshotOp(_) => (owners, Rows(map p | p in owners :: Lease(owners[p], 0)))
  }

  function EagerAnswers(owners: map<PaneId, Lease>, ops: seq<Op>, leaseMs: int): seq<Answer>
    decreases |ops|
  {
    if ops == [] then []
    else var (o, a) := EagerStep(owners, ops[0], leaseMs); [a] + EagerAnswers(o, ops[1..], leaseMs)
  }

  function LazyAnswers(leases: map<PaneId, Lease>, ops: seq<Op>, leaseMs: int): seq<Answer>
    decreases |ops|
  {
    if ops == [] then []
    else var (l, a) := LazyStep(leases, ops[0], leaseMs); [a] + LazyAnswers(l, ops[1..], leaseMs)
  }

  function LegacyAnswers(owners: map<PaneId, ClientId>, ops: seq<Op>): seq<Answer>
    decreases |ops|
  {
    if ops == [] then []
    else var (o, a) := LegacyStep(owners, ops[0]); [a] + LegacyAnswers(o, ops[1..])
  }

  /**
   * What a claim comes to, for any leases: refused iff another client holds an unexpired lease and
   * no allowed override is asked for, naming that client; granted as an override iff one is.
   */
  lemma ClaimExact(owners: map<PaneId, Lease>, p: PaneId, c: ClientId, requested: bool, allowed: bool, sweepNow: int,
                   setNow: int, leaseMs: int)
    ensures var (after, r) := Claim(owners, p, c, requested, allowed, sweepNow, setNow, leaseMs);
            var held := p in owners && owners[p].expiresAtMs > sweepNow && owners[p].clientId !in {"", c};
            && r == (if held && !(requested && allowed) then Refused(owners[p].clientId, allowed) else Granted(held))
            && (forall q :: q != p || r.Refused? ==>
                  (q in after <==> q in owners && owners[q].expiresAtMs > sweepNow)
                  && (q in after ==> after[q] == owners[q]))
            && (r.Granted? ==> p in after && after[p] == Lease(c, setNow + leaseMs))
  {
    var live := Sweep(owners, sweepNow);
    assert p in live <==> p in owners && owners[p].expiresAtMs > sweepNow;
  }

  /** The arbiter's map, once swept at or after the last read, is the live part of the specification's leases. */
  ghost predicate Swept(owners: map<PaneId, Lease>, leases: map<PaneId, Lease>, now: int) {
    && (forall p :: p in owners ==> p in leases && owners[p] == leases[p])
    && (forall p :: p in leases && leases[p].expiresAtMs > now ==> p in owners)
  }

  lemma SweepStep(owners: map<PaneId, Lease>, leases: map<PaneId, Lease>, op: Op, since: int, leaseMs: int)
    requires Swept(owners, leases, since) && since <= FirstRead(op) <= LastRead(op)
    ensures EagerStep(owners, op, leaseMs).1 == LazyStep(leases, op, leaseMs).1
    ensures Swept(EagerStep(owners, op, leaseMs).0, LazyStep(leases, op, leaseMs).0, LastRead(op))
  {
    var now := FirstRead(op);
    var live := Sweep(owners, now);
    assert live == map p | p in leases && LiveAt(leases, p, now) :: leases[p];
    if op.ReleaseClientOp? {
      assert OwnedBy(live, op.client) == set p | p in leases && LiveAt(leases, p, now)
          && leases[p].clientId == op.client;
    }
  }

  /** Sweeping eagerly is unobservable: every answer is the one of the specification that filters at each read. */
  lemma {:induction false} EagerSweepRefinesLazy(owners: map<PaneId, Lease>, leases: map<PaneId, Lease>, ops: seq<Op>,
                                                 since: int, leaseMs: int)
    requires Swept(owners, leases, since) && Ordered(ops, since)
    ensures EagerAnswers(owners, ops, leaseMs) == LazyAnswers(leases, ops, leaseMs)
    decreases |ops|
  {
    if ops != [] {
      SweepStep(owners, leases, ops[0], since, leaseMs);
      EagerSweepRefinesLazy(EagerStep(owners, ops[0], leaseMs).0, LazyStep(leases, ops[0], leaseMs).0, ops[1..],
                            LastRead(ops[0]), leaseMs);
    }
  }

  /** Every lease in the arbiter was set at or after start, and the legacy map has the same owners. */
  ghost predicate SameOwners(owners: map<PaneId, Lease>, legacy: map<PaneId, ClientId>, start: int, leaseMs: int) {
    && owners.Keys == legacy.Keys
    && forall p :: p in owners ==> owners[p].clientId == legacy[p] && owners[p].expiresAtMs >= start + leaseMs
  }

  /** Two answers agree, where a row of a status report is compared by its owner. */
  ghost predicate SameAnswer(a: Answer, b: Answer) {
    if a.Rows? && b.Rows? then
      && a.owners.Keys == b.owners.Keys
      && forall p :: p in a.owners ==> a.owners[p].clientId == b.owners[p].clientId
    else a == b
  }

  lemma LegacyAgrees(owners: map<PaneId, Lease>, legacy: map<PaneId, ClientId>, op: Op, start: int, leaseMs: int)
    requires SameOwners(owners, legacy, start, leaseMs)
    requires start <= FirstRead(op) <= LastRead(op) < start + leaseMs
    ensures SameAnswer(EagerStep(owners, op, leaseMs).1, LegacyStep(legacy, op).1)
    ensures SameOwners(EagerStep(owners, op, leaseMs).0, LegacyStep(legacy, op).0, start, leaseMs)
  {
    assert Sweep(owners, FirstRead(op)) == owners;
    if op.ReleaseClientOp? {
      assert OwnedBy(owners, op.client) == LegacyOwnedBy(legacy, op.client);
    }
  }

  /** On a run shorter than one lease the arbiter and the legacy map give the same answers, counts included. */
  lemma {:induction false} ShortRunMatchesLegacy(owners: map<PaneId, Lease>, legacy: map<PaneId, ClientId>,
                                                 ops: seq<Op>, start: int, leaseMs: int)
    requires SameOwners(owners, legacy, start, leaseMs)
    requires forall i :: 0 <= i < |ops| ==> start <= FirstRead(ops[i]) <= LastRead(ops[i]) < start + leaseMs
    ensures |EagerAnswers(owners, ops, leaseMs)| == |LegacyAnswers(legacy, ops)| == |ops|
    ensures forall i :: 0 <= i < |ops| ==> SameAnswer(EagerAnswers(owners, ops, leaseMs)[i],
                                                      LegacyAnswers(legacy, ops)[i])
    decreases |ops|
  {
    if ops != [] {
      LegacyAgrees(owners, legacy, ops[0], start, leaseMs);
      ShortRunMatchesLegacy(EagerStep(owners, ops[0], leaseMs).0, LegacyStep(legacy, ops[0]).0, ops[1..], start,
                            leaseMs);
    }
  }
}

/**
 * The pane reducer over any actions at all: envelopes of any stream, repeated, late or with
 * gaps, attaches to other panes, and clears. Every field of the state is what the actions
 * since the last change of pane make of it.
 */
module Reducer {
  import opened Common
  import opened MockReplay

  function Reduced(start: PaneState, actions: seq<Action>): PaneState {
    if actions == [] then start else Reduce(Reduced(start, actions[..|actions| - 1]), actions[|actions| - 1])
  }

  // ---- What the actions say ----

  /** The pane attached to last; a blank name attaches to none. */
  function PaneOf(pane: string, actions: seq<Action>): string {
    if actions == [] then pane
    else
      match actions[|actions| - 1]
      case AttachRequested(paneID) => if Trim(paneID) != "" then Trim(paneID) else PaneOf(pane,
                                                                                       actions[..|actions| - 1])
      case _ => PaneOf(pane, actions[..|actions| - 1])
  }

  /** The last action attaches to another pane than before. */
  predicate Switches(pane: string, actions: seq<Action>) {
    actions != [] && PaneOf(pane, actions) != PaneOf(pane, actions[..|actions| - 1])
  }

  /** The last action delivers an event of the pane that is newer than those delivered before. */
  predicate Delivers(pane: string, before: seq<Envelope>, action: Action) {
    action.ReceiveEnvelope? && action.envelope.streamID == pane
    && (before == [] || action.envelope.streamSeq > before[|before| - 1].streamSeq)
  }

  /** The envelopes applied since the pane was attached to. */
  function Envelopes(pane: string, actions: seq<Action>): seq<Envelope> {
    if actions == [] || Switches(pane, actions) then []
    else
      var init, last := actions[..|actions| - 1], actions[|actions| - 1];
      var before := Envelopes(pane, init);
      if Delivers(PaneOf(pane, init), before, last) then before + [last.envelope] else before
  }

  /** How many of them were applied before the output was last cleared. */
  function Cleared(pane: string, actions: seq<Action>): nat {
    if actions == [] || Switches(pane, actions) then 0
    else if actions[|actions| - 1].ClearOutput? then |Envelopes(pane, actions)|
    else Cleared(pane, actions[..|actions| - 1])
  }

  function Texts(envelopes: seq<Envelope>): string {
    if envelopes == [] then ""
    else
      var last := envelopes[|envelopes| - 1].event;
      Texts(envelopes[..|envelopes| - 1]) + if last.OutputChunk? then last.chunk else ""
  }

  /** An envelope from the n-th on does not follow the one before it. */
  ghost predicate GapFrom(envelopes: seq<Envelope>, n: nat) {
    exists i :: n <= i < |envelopes| && 0 < i && envelopes[i].streamSeq != envelopes[i - 1].streamSeq + 1
  }

  function LastSession(envelopes: seq<Envelope>): Option<string> {
    if envelopes == [] then None
    else
      match envelopes[|envelopes| - 1].event
      case Connected(sessionID) => Some(sessionID)
      case _ => LastSession(envelopes[..|envelopes| - 1])
  }

  function LastStatus(envelopes: seq<Envelope>): Option<string> {
    if envelopes == [] then None
    else
      match envelopes[|envelopes| - 1].event
      case Status(status) => Some(status)
      case _ => LastStatus(envelopes[..|envelopes| - 1])
  }

  function LastHeartbeat(envelopes: seq<Envelope>): Option<nat> {
    if envelopes == [] then None
    else
      match envelopes[|envelopes| - 1].event
      case Heartbeat(serverTimeMs) => Some(serverTimeMs)
      case _ => LastHeartbeat(envelopes[..|envelopes| - 1])
  }

  /** The connection and the attempt are those of the last action about them; an applied hello connects. */
  function ConnectionOf(pane: string, actions: seq<Action>): Connection {
    if actions == [] then Idle
    else
      var init := actions[..|actions| - 1];
      match actions[|actions| - 1]
      case AttachRequested(_) => Attaching
      case AttachConfirmed => Attached
      case ReconnectStarted(_) => Reconnecting
      case ReconnectSucceeded => Attached
      case DetachedByUser => Detached
      case ClearOutput => ConnectionOf(pane, init)
      case ReceiveEnvelope(envelope) =>
        if Delivers(PaneOf(pane, init), Envelopes(pane, init), actions[|actions| - 1]) && envelope.event.Connected?
        then Attached else ConnectionOf(pane, init)
  }

  function AttemptOf(actions: seq<Action>): nat {
    if actions == [] then 0
    else
      match actions[|actions| - 1]
      case ReconnectStarted(attempt) => if attempt > 0 then attempt else 0
      case ReceiveEnvelope(_) => AttemptOf(actions[..|actions| - 1])
      case ClearOutput => AttemptOf(actions[..|actions| - 1])
      case _ => 0
  }

  // ---- The state follows them ----

  lemma {:induction false} ClearedWithin(pane: string, actions: seq<Action>)
    ensures Cleared(pane, actions) <= |Envelopes(pane, actions)|
  {
    if actions != [] {
      ClearedWithin(pane, actions[..|actions| - 1]);
    }
  }

  /** The stream position, the text and the gap flag of a state, for envelopes of which n were cleared. */
  ghost predicate Streams(s: PaneState, envelopes: seq<Envelope>, n: nat)
    requires n <= |envelopes|
  {
    && s.lastAppliedSeq == (if envelopes == [] then None else Some(envelopes[|envelopes| - 1].streamSeq))
    && s.output == Texts(envelopes[n..])
    && (s.hasSequenceGap <==> GapFrom(envelopes, n))
  }

  ghost predicate Reports(s: PaneState, envelopes: seq<Envelope>) {
    && s.sessionID == LastSession(envelopes)
    && s.lastStatus == LastStatus(envelopes)
    && s.lastHeartbeatMs == LastHeartbeat(envelopes)
  }

  lemma {:induction false} GapAppend(envelopes: seq<Envelope>, n: nat, envelope: Envelope)
    requires n <= |envelopes|
    ensures GapFrom(envelopes + [envelope], n) <==>
            GapFrom(envelopes, n)
            || (envelopes != [] && envelope.streamSeq != envelopes[|envelopes| - 1].streamSeq + 1)
  {
    var all := envelopes + [envelope];
    assert forall i :: 0 <= i < |envelopes| ==> all[i] == envelopes[i];
    assert all[|envelopes|] == envelope;
    if GapFrom(envelopes, n) {
      var i :| n <= i < |envelopes| && 0 < i && envelopes[i].streamSeq != envelopes[i - 1].streamSeq + 1;
      assert all[i].streamSeq != all[i - 1].streamSeq + 1;
    }
    if envelopes != [] {
      assert all[|envelopes| - 1] == envelopes[|envelopes| - 1];
    }
  }

  lemma TextsAppend(envelopes: seq<Envelope>, n: nat, envelope: Envelope)
    requires n <= |envelopes|
    ensures Texts((envelopes + [envelope])[n..]) ==
            Texts(envelopes[n..]) + if envelope.event.OutputChunk? then envelope.event.chunk else ""
  {
    var rest := (envelopes + [envelope])[n..];
    assert rest == envelopes[n..] + [envelope] && rest[..|rest| - 1] == envelopes[n..];
  }

  lemma AppliedText(s: PaneState, envelope: Envelope)
    requires envelope.streamID == s.paneID
    requires s.lastAppliedSeq.Some? ==> envelope.streamSeq > s.lastAppliedSeq.value
    ensures var t := ApplyEnvelope(s, envelope);
            && t.lastAppliedSeq == Some(envelope.streamSeq)
            && t.output == s.output + (if envelope.event.OutputChunk? then envelope.event.chunk else "")
            && (t.hasSequenceGap <==>
                s.hasSequenceGap || (s.lastAppliedSeq.Some? && envelope.streamSeq != s.lastAppliedSeq.value + 1))
  {
    assert s.output + "" == s.output;
  }

  lemma DeliveryStreams(s: PaneState, envelopes: seq<Envelope>, n: nat, envelope: Envelope)
    requires n <= |envelopes| && Streams(s, envelopes, n)
    requires envelope.streamID == s.paneID && Delivers(s.paneID, envelopes, ReceiveEnvelope(envelope))
    ensures Streams(ApplyEnvelope(s, envelope), envelopes + [envelope], n)
  {
    AppliedText(s, envelope);
    GapAppend(envelopes, n, envelope);
    TextsAppend(envelopes, n, envelope);
  }

  lemma DeliveryReports(s: PaneState, envelopes: seq<Envelope>, envelope: Envelope)
    requires Reports(s, envelopes) && envelope.streamID == s.paneID
    requires Delivers(s.paneID, envelopes, ReceiveEnvelope(envelope))
    requires s.lastAppliedSeq == (if envelopes == [] then None else Some(envelopes[|envelopes| - 1].streamSeq))
    ensures Reports(ApplyEnvelope(s, envelope), envelopes + [envelope])
  {
    assert (envelopes + [envelope])[..|envelopes|] == envelopes;
  }

  lemma ClearStreams(s: PaneState, envelopes: seq<Envelope>, n: nat)
    requires n <= |envelopes| && Streams(s, envelopes, n)
    ensures Streams(s.(output := "", hasSequenceGap := false), envelopes, |envelopes|)
  {
    assert envelopes[|envelopes|..] == [];
  }

  ghost predicate Follows(s: PaneState, pane: string, actions: seq<Action>) {
    var envelopes, n := Envelopes(pane, actions), Cleared(pane, actions);
    && s.paneID == PaneOf(pane, actions) && s.isReadOnly
    && n <= |envelopes| && Streams(s, envelopes, n) && Reports(s, envelopes)
    && s.connection == ConnectionOf(pane, actions) && s.reconnectAttempt == AttemptOf(actions)
  }

  lemma AttachFollows(s: PaneState, pane: string, actions: seq<Action>, paneID: string)
    requires Follows(s, pane, actions)
    ensures Follows(Reduce(s, AttachRequested(paneID)), pane, actions + [AttachRequested(paneID)])
  {
    var all := actions + [AttachRequested(paneID)];
    assert all[..|actions|] == actions;
    if Switches(pane, all) {
      assert Envelopes(pane, all) == [] && Cleared(pane, all) == 0 && Envelopes(pane, all)[0..] == [];
    } else {
      assert Envelopes(pane, all) == Envelopes(pane, actions) && Cleared(pane, all) == Cleared(pane, actions);
    }
  }

  lemma ClearFollows(s: PaneState, pane: string, actions: seq<Action>)
    requires Follows(s, pane, actions)
    ensures Follows(Reduce(s, ClearOutput), pane, actions + [ClearOutput])
  {
    var all := actions + [ClearOutput];
    assert all[..|actions|] == actions && PaneOf(pane, all) == PaneOf(pane, actions);
    assert Envelopes(pane, all) == Envelopes(pane, actions);
    ClearStreams(s, Envelopes(pane, actions), Cleared(pane, actions));
  }

  lemma ActionFollows(s: PaneState, pane: string, actions: seq<Action>, action: Action)
    requires Follows(s, pane, actions) && !action.ReceiveEnvelope?
    ensures Follows(Reduce(s, action), pane, actions + [action])
  {
    if action.AttachRequested? {
      AttachFollows(s, pane, actions, action.paneID);
    } else if action.ClearOutput? {
      ClearFollows(s, pane, actions);
    } else {
      ConnectionFollows(s, pane, actions, action);
    }
  }

  /** Any other action is about the connection only. */
  lemma ConnectionFollows(s: PaneState, pane: string, actions: seq<Action>, action: Action)
    requires Follows(s, pane, actions)
    requires !action.ReceiveEnvelope? && !action.AttachRequested? && !action.ClearOutput?
    ensures Follows(Reduce(s, action), pane, actions + [action])
  {
    var all, t := actions + [action], Reduce(s, action);
    assert all[..|actions|] == actions && PaneOf(pane, all) == PaneOf(pane, actions);
    assert Envelopes(pane, all) == Envelopes(pane, actions) && Cleared(pane, all) == Cleared(pane, actions);
    assert t == s.(connection := t.connection, reconnectAttempt := t.reconnectAttempt);
  }

  /** An envelope that is not delivered changes nothing. */
  lemma IgnoredEnvelope(s: PaneState, envelopes: seq<Envelope>, envelope: Envelope)
    requires s.lastAppliedSeq == (if envelopes == [] then None else Some(envelopes[|envelopes| - 1].streamSeq))
    requires !Delivers(s.paneID, envelopes, ReceiveEnvelope(envelope)) && s.isReadOnly
    ensures Reduce(s, ReceiveEnvelope(envelope)) == s
  {
  }

  lemma AppliedEnvelope(s: PaneState, envelopes: seq<Envelope>, envelope: Envelope)
    requires s.lastAppliedSeq == (if envelopes == [] then None else Some(envelopes[|envelopes| - 1].streamSeq))
    requires Delivers(s.paneID, envelopes, ReceiveEnvelope(envelope)) && s.isReadOnly
    ensures var t := Reduce(s, ReceiveEnvelope(envelope));
            && t == ApplyEnvelope(s, envelope) && t.paneID == s.paneID && t.isReadOnly
            && t.connection == (if envelope.event.Connected? then Attached else s.connection)
            && t.reconnectAttempt == s.reconnectAttempt
  {
  }

  lemma DeliveryFollows(s: PaneState, pane: string, actions: seq<Action>, envelope: Envelope)
    requires Follows(s, pane, actions)
    ensures Follows(Reduce(s, ReceiveEnvelope(envelope)), pane, actions + [ReceiveEnvelope(envelope)])
  {
    var all, envelopes := actions + [ReceiveEnvelope(envelope)], Envelopes(pane, actions);
    assert all[..|actions|] == actions && PaneOf(pane, all) == PaneOf(pane, actions);
    assert Cleared(pane, all) == Cleared(pane, actions) && AttemptOf(all) == AttemptOf(actions);
    if Delivers(s.paneID, envelopes, ReceiveEnvelope(envelope)) {
      AppliedEnvelope(s, envelopes, envelope);
      DeliveryStreams(s, envelopes, Cleared(pane, actions), envelope);
      DeliveryReports(s, envelopes, envelope);
      assert Envelopes(pane, all) == envelopes + [envelope];
    } else {
      IgnoredEnvelope(s, envelopes, envelope);
      assert Envelopes(pane, all) == envelopes;
    }
  }

  /**
   * After any actions: the pane is the one attached to last; the position, output, gap flag,
   * session, status and heartbeat are those of the envelopes applied since, the output and
   * the gap flag of those applied since the last clear; the connection and the attempt are
   * those of the last action about them; and the stream stays read-only.
   */
  lemma {:induction false} StateFollowsActions(pane: string, actions: seq<Action>)
    ensures Follows(Reduced(Start(pane).reader, actions), pane, actions)
    ensures actions != [] ==> forall s: PaneState :: Reduced(s, actions).isReadOnly
  {
    if actions != [] {
      var init, last := actions[..|actions| - 1], actions[|actions| - 1];
      assert actions == init + [last];
      StateFollowsActions(pane, init);
      if last.ReceiveEnvelope? {
        DeliveryFollows(Reduced(Start(pane).reader, init), pane, init, last.envelope);
      } else {
        ActionFollows(Reduced(Start(pane).reader, init), pane, init, last);
      }
    }
  }

  /** In particular attaching to another pane forgets everything about the one before. */
  lemma {:induction false} AttachForgets(pane: string, actions: seq<Action>, paneID: string)
    requires Trim(paneID) != "" && Trim(paneID) != PaneOf(pane, actions)
    ensures Reduced(Start(pane).reader, actions + [AttachRequested(paneID)]) ==
            Start(Trim(paneID)).reader.(connection := Attaching)
  {
    var all := actions + [AttachRequested(paneID)];
    assert all[..|actions|] == actions;
    StateFollowsActions(pane, all);
    assert Switches(pane, all) && Envelopes(pane, all) == [] && Envelopes(pane, all)[0..] == [];
  }

  // ---- Pane names ----

  predicate Blank(s: string) {
    forall i :: 0 <= i < |s| ==> IsSpace(s[i])
  }

  lemma TrimFront(s: string)
    requires s != "" && IsSpace(s[0])
    ensures Trim(s) == Trim(s[1..])
  {
  }

  lemma TrimBack(s: string)
    requires s != "" && !IsSpace(s[0])
    ensures Trim(s) == if IsSpace(s[|s| - 1]) then Trim(s[..|s| - 1]) else s
  {
  }

  lemma BlankConcat(a: string, b: string)
    requires Blank(a) && Blank(b)
    ensures Blank(a + b)
  {
  }

  ghost predicate Surrounds(s: string, front: string, middle: string, back: string) {
    && s == front + middle + back && Blank(front) && Blank(back)
    && (middle != "" ==> !IsSpace(middle[0]) && !IsSpace(middle[|middle| - 1]))
  }

  lemma SurroundsFront(s: string, front: string, middle: string, back: string)
    requires s != "" && IsSpace(s[0]) && Surrounds(s[1..], front, middle, back)
    ensures Surrounds(s, [s[0]] + front, middle, back)
  {
    BlankConcat([s[0]], front);
    assert s == [s[0]] + s[1..] == [s[0]] + front + middle + back;
  }

  lemma SurroundsBack(s: string, front: string, middle: string, back: string)
    requires s != "" && IsSpace(s[|s| - 1]) && Surrounds(s[..|s| - 1], front, middle, back)
    ensures Surrounds(s, front, middle, back + [s[|s| - 1]])
  {
    BlankConcat(back, [s[|s| - 1]]);
    assert s == s[..|s| - 1] + [s[|s| - 1]] == front + middle + (back + [s[|s| - 1]]);
  }

  /** A name is cut down to what is between the white space at its ends. */
  lemma {:induction false} TrimIsExact(s: string) returns (front: string, back: string)
    ensures s == front + Trim(s) + back && Blank(front) && Blank(back)
    ensures Trim(s) != "" ==> !IsSpace(Trim(s)[0]) && !IsSpace(Trim(s)[|Trim(s)| - 1])
    decreases |s|
  {
    front, back := "", "";
    if s != "" {
      if IsSpace(s[0]) {
        TrimFront(s);
        front, back := TrimIsExact(s[1..]);
        SurroundsFront(s, front, Trim(s), back);
        front := [s[0]] + front;
      } else {
        TrimBack(s);
        if IsSpace(s[|s| - 1]) {
          front, back := TrimIsExact(s[..|s| - 1]);
          SurroundsBack(s, front, Trim(s), back);
          back := back + [s[|s| - 1]];
        }
      }
    }
  }
}

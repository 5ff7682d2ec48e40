/**
 * The mock transport of the iOS client and the reducer that consumes it: a backlog
 * with an acknowledged cursor, redelivery after a reconnect, and a reducer that
 * applies each event once however often it arrives.
 */
module MockReplay {
  import opened Common
  import opened Sequenced

  datatype Event =
    | Connected(sessionID: string)
    | OutputChunk(chunk: string)
    | Status(status: string)
    | Heartbeat(serverTimeMs: nat)

  datatype Envelope = Envelope(streamID: string, streamSeq: nat, sentAtMs: nat, event: Event)

  datatype ResumeRequest = ResumeRequest(streamID: string, streamSeq: nat, lastSeq: nat)

  // ---- The reducer ----

  datatype Connection = Idle | Attaching | Attached | Reconnecting | Detached

  datatype PaneState = PaneState(
    paneID: string,
    connection: Connection,
    sessionID: Option<string>,
    output: string,
    lastAppliedSeq: Option<nat>,
    hasSequenceGap: bool,
    lastStatus: Option<string>,
    lastHeartbeatMs: Option<nat>,
    reconnectAttempt: nat,
    isReadOnly: bool)

  datatype Action =
    | AttachRequested(paneID: string)
    | AttachConfirmed
    | ReceiveEnvelope(envelope: Envelope)
    | ReconnectStarted(attempt: int)
    | ReconnectSucceeded
    | DetachedByUser
    | ClearOutput

  predicate IsSpace(c: char) {
    '\t' <= c <= '\r' || c == ' ' || c == '\U{85}' || c == '\U{A0}' || c == '\U{1680}' || '\U{2000}' <= c <= '\U{200A}'
    || c == '\U{2028}' || c == '\U{2029}' || c == '\U{202F}' || c == '\U{205F}' || c == '\U{3000}'
  }

  function Trim(s: string): string {
    if s == "" then ""
    else if IsSpace(s[0]) then Trim(s[1..])
    else if IsSpace(s[|s| - 1]) then Trim(s[..|s| - 1])
    else s
  }

  function ApplyAttachRequested(s: PaneState, paneID: string): PaneState {
    var pane := Trim(paneID);
    var t := if pane != "" && s.paneID != pane
             then s.(paneID := pane, output := "", lastAppliedSeq := None, hasSequenceGap := false, lastStatus := None,
                     lastHeartbeatMs := None, sessionID := None)
             else s;
    t.(connection := Attaching, reconnectAttempt := 0)
  }

  function ApplyEvent(s: PaneState, event: Event): PaneState {
    match event
    case Connected(sessionID) => s.(sessionID := Some(sessionID), connection := Attached)
    case OutputChunk(chunk) => s.(output := s.output + chunk)
    case Status(status) => s.(lastStatus := Some(status))
    case Heartbeat(serverTimeMs) => s.(lastHeartbeatMs := Some(serverTimeMs))
  }

  function ApplyEnvelope(s: PaneState, envelope: Envelope): PaneState {
    if envelope.streamID != s.paneID then s
    else if s.lastAppliedSeq.Some? && envelope.streamSeq <= s.lastAppliedSeq.value then s
    else
      var gap := s.lastAppliedSeq.Some? && envelope.streamSeq != s.lastAppliedSeq.value + 1;
      ApplyEvent(s.(hasSequenceGap := s.hasSequenceGap || gap, lastAppliedSeq := Some(envelope.streamSeq)),
                 envelope.event)
  }

  function Reduce(s: PaneState, action: Action): PaneState {
    var t := match action
      case AttachRequested(paneID) => ApplyAttachRequested(s, paneID)
      case AttachConfirmed => s.(connection := Attached, reconnectAttempt := 0)
      case ReceiveEnvelope(envelope) => ApplyEnvelope(s, envelope)
      case ReconnectStarted(attempt) => s.(connection := Reconnecting, reconnectAttempt := Max(0, attempt))
      case ReconnectSucceeded => s.(connection := Attached, reconnectAttempt := 0)
      case DetachedByUser => s.(connection := Detached, reconnectAttempt := 0)
      case ClearOutput => s.(output := "", hasSequenceGap := false);
    t.(isReadOnly := true)
  }

  // ---- The planner and the cursors ----

  function SeqOf(envelope: Envelope): int {
    envelope.streamSeq
  }

  function ReplayEvents(backlog: seq<Envelope>, lastSeq: nat): seq<Envelope> {
    SortBy(After(backlog, SeqOf, lastSeq), SeqOf)
  }

  type Cursors = map<string, nat>

  function LastSeq(cursors: Cursors, streamID: string): nat {
    if streamID in cursors then cursors[streamID] else 0
  }

  function Recorded(cursors: Cursors, streamID: string, seq_: nat): Cursors {
    cursors[streamID := Max(LastSeq(cursors, streamID), seq_)]
  }

  // ---- Reader and transport together ----

  /** inFlight is what the current connection has yet to deliver. */
  datatype System = System(backlog: seq<Envelope>, nextSeq: nat, cursors: Cursors, reader: PaneState,
                           inFlight: seq<Envelope>)

  datatype Step =
    | Append(event: Event, sentAtMs: nat)
    | Reconnect
    | Deliver
    | Acknowledge(seq_: nat)
    | Act(action: Action)

  function Start(streamID: string): System {
    System([], 1, map[], PaneState(streamID, Idle, None, "", None, false, None, None, 0, true), [])
  }

  function Applied(reader: PaneState): nat {
    if reader.lastAppliedSeq.Some? then reader.lastAppliedSeq.value else 0
  }

  /**
   * A reconnect may come at any time and drops what was not delivered. Anything may be
   * acknowledged, late, repeatedly or early; what counts is that a reconnect that
   * replays something finds nothing acknowledged beyond what was applied. The reader
   * stays on its pane and keeps its output; envelopes of other streams may reach it.
   */
  predicate Possible(s: System, step: Step, streamID: string) {
    match step
    case Append(_, _) => true
    case Reconnect => LastSeq(s.cursors, streamID) <= Applied(s.reader) || LastSeq(s.cursors, streamID) >= |s.backlog|
    case Deliver => s.inFlight != []
    case Acknowledge(_) => true
    case Act(AttachRequested(paneID)) => Trim(paneID) == "" || Trim(paneID) == streamID
    case Act(ReceiveEnvelope(envelope)) => envelope.streamID != streamID
    case Act(ClearOutput) => false
    case Act(_) => true
  }

  function Next(s: System, step: Step, streamID: string): System {
    match step
    case Append(event, sentAtMs) =>
      s.(backlog := s.backlog + [Envelope(streamID, s.nextSeq, sentAtMs, event)], nextSeq := s.nextSeq + 1)
    case Reconnect => s.(inFlight := ReplayEvents(s.backlog, LastSeq(s.cursors, streamID)))
    case Deliver =>
      if s.inFlight == [] then s
      else s.(inFlight := s.inFlight[1..], reader := Reduce(s.reader, ReceiveEnvelope(s.inFlight[0])))
    case Acknowledge(n) => s.(cursors := Recorded(s.cursors, streamID, n))
    case Act(action) => s.(reader := Reduce(s.reader, action))
  }

  function Run(steps: seq<Step>, streamID: string): System {
    if steps == [] then Start(streamID)
    else Next(Run(steps[..|steps| - 1], streamID), steps[|steps| - 1], streamID)
  }

  predicate PossibleRun(steps: seq<Step>, streamID: string) {
    steps == []
    || (PossibleRun(steps[..|steps| - 1], streamID)
        && Possible(Run(steps[..|steps| - 1], streamID), steps[|steps| - 1], streamID))
  }

  /** The events appended during a run, in order. */
  function Appended(steps: seq<Step>): seq<Event> {
    if steps == [] then []
    else Appended(steps[..|steps| - 1]) + if steps[|steps| - 1].Append? then [steps[|steps| - 1].event] else []
  }

  /** The output chunks of a list of events, joined. */
  function Chunks(events: seq<Event>): string {
    if events == [] then ""
    else
      Chunks(events[..|events| - 1])
      + if events[|events| - 1].OutputChunk? then events[|events| - 1].chunk else ""
  }

  ghost predicate Numbered(backlog: seq<Envelope>, events: seq<Event>, streamID: string) {
    && |backlog| == |events|
    && forall i :: 0 <= i < |backlog| ==>
         backlog[i].streamSeq == i + 1 && backlog[i].streamID == streamID && backlog[i].event == events[i]
  }

  /** The reader has applied the first events of the stream, each once, and nothing else. */
  ghost predicate ExactlyOnce(reader: PaneState, events: seq<Event>, streamID: string) {
    && reader.paneID == streamID && !reader.hasSequenceGap
    && Applied(reader) <= |events|
    && (reader.lastAppliedSeq.Some? ==> Applied(reader) >= 1)
    && reader.output == Chunks(events[..Applied(reader)])
  }

  ghost predicate Inv(s: System, events: seq<Event>, streamID: string) {
    && Numbered(s.backlog, events, streamID) && s.nextSeq == |events| + 1
    && ExactlyOnce(s.reader, events, streamID)
    && InOrder(s.inFlight, s.backlog, Applied(s.reader))
  }

  /** What is in flight comes from the backlog and never skips an event. */
  ghost predicate InOrder(inFlight: seq<Envelope>, backlog: seq<Envelope>, applied: nat) {
    inFlight == []
    || (var n := inFlight[0].streamSeq;
        1 <= n <= applied + 1 && n <= |backlog| && inFlight[0] == backlog[n - 1] && InOrder(inFlight[1..], backlog, n))
  }

  lemma {:induction false} InOrderAppend(inFlight: seq<Envelope>, backlog: seq<Envelope>, applied: nat,
                                         envelope: Envelope)
    requires InOrder(inFlight, backlog, applied)
    ensures InOrder(inFlight, backlog + [envelope], applied)
  {
    if inFlight != [] {
      InOrderAppend(inFlight[1..], backlog, inFlight[0].streamSeq, envelope);
    }
  }

  lemma InOrderLater(inFlight: seq<Envelope>, backlog: seq<Envelope>, applied: nat, later: nat)
    requires InOrder(inFlight, backlog, applied) && applied <= later
    ensures InOrder(inFlight, backlog, later)
  {
  }

  lemma {:induction false} SuffixInOrder(backlog: seq<Envelope>, events: seq<Event>, streamID: string, from: nat,
                                         applied: nat)
    requires Numbered(backlog, events, streamID) && from <= applied && from <= |backlog|
    ensures InOrder(backlog[from..], backlog, applied)
    decreases |backlog| - from
  {
    if from < |backlog| {
      SuffixInOrder(backlog, events, streamID, from + 1, from + 1);
      assert backlog[from..][1..] == backlog[from + 1..];
    }
  }

  /** The planner replays exactly the events after the cursor, in order. */
  lemma ReplayIsSuffix(backlog: seq<Envelope>, events: seq<Event>, streamID: string, lastSeq: nat)
    requires Numbered(backlog, events, streamID)
    ensures ReplayEvents(backlog, lastSeq) == backlog[Min(|backlog|, lastSeq)..]
  {
    var from := Min(|backlog|, lastSeq);
    AfterIsSuffix(backlog, SeqOf, lastSeq);
    SortIsIdentity(backlog[from..], SeqOf);
  }

  lemma AppliedEvent(reader: PaneState, envelope: Envelope, events: seq<Event>, streamID: string)
    requires ExactlyOnce(reader, events, streamID)
    requires envelope.streamID == streamID && 1 <= envelope.streamSeq <= |events|
        && envelope.streamSeq <= Applied(reader) + 1
    requires envelope.event == events[envelope.streamSeq - 1]
    ensures var after := Reduce(reader, ReceiveEnvelope(envelope));
            ExactlyOnce(after, events, streamID) && Applied(after) == Max(Applied(reader), envelope.streamSeq)
  {
    var n := envelope.streamSeq;
    if n == Applied(reader) + 1 {
      assert events[..n][..n - 1] == events[..n - 1];
    }
  }

  lemma AppendKeepsInv(s: System, event: Event, sentAtMs: nat, events: seq<Event>, streamID: string)
    requires Inv(s, events, streamID)
    ensures Inv(Next(s, Append(event, sentAtMs), streamID), events + [event], streamID)
  {
    assert (events + [event])[..Applied(s.reader)] == events[..Applied(s.reader)];
    InOrderAppend(s.inFlight, s.backlog, Applied(s.reader), Envelope(streamID, s.nextSeq, sentAtMs, event));
  }

  /**
   * A replay skips no event if and only if nothing was acknowledged beyond what was
   * applied, or nothing is left to replay; it also leaves none behind if and only if
   * nothing was acknowledged beyond what was applied, or everything was applied.
   */
  lemma ReplaySafeIff(s: System, events: seq<Event>, streamID: string)
    requires Numbered(s.backlog, events, streamID) && ExactlyOnce(s.reader, events, streamID)
    ensures var replay := Next(s, Reconnect, streamID).inFlight;
            var acknowledged, applied := LastSeq(s.cursors, streamID), Applied(s.reader);
            && (InOrder(replay, s.backlog, applied) <==> acknowledged <= applied || acknowledged >= |s.backlog|)
            && (InOrder(replay, s.backlog, applied) && (replay == [] ==> applied == |events|)
                <==> acknowledged <= applied || applied == |events|)
  {
    var acknowledged := LastSeq(s.cursors, streamID);
    ReplayIsSuffix(s.backlog, events, streamID, acknowledged);
    if acknowledged <= Applied(s.reader) {
      SuffixInOrder(s.backlog, events, streamID, Min(|s.backlog|, acknowledged), Applied(s.reader));
    }
  }

  lemma ReconnectKeepsInv(s: System, events: seq<Event>, streamID: string)
    requires Inv(s, events, streamID) && Possible(s, Reconnect, streamID)
    ensures Inv(Next(s, Reconnect, streamID), events, streamID)
  {
    ReplaySafeIff(s, events, streamID);
  }

  lemma DeliverKeepsInv(s: System, events: seq<Event>, streamID: string)
    requires Inv(s, events, streamID) && s.inFlight != []
    ensures Inv(Next(s, Deliver, streamID), events, streamID)
    ensures Applied(Next(s, Deliver, streamID).reader) == Max(Applied(s.reader), s.inFlight[0].streamSeq)
  {
    AppliedEvent(s.reader, s.inFlight[0], events, streamID);
    var n := s.inFlight[0].streamSeq;
    InOrderLater(s.inFlight[1..], s.backlog, n, Max(Applied(s.reader), n));
  }

  lemma ActionKeepsInv(s: System, action: Action, events: seq<Event>, streamID: string)
    requires Inv(s, events, streamID) && Possible(s, Act(action), streamID)
    ensures Inv(Next(s, Act(action), streamID), events, streamID)
  {
  }

  lemma StepKeepsInv(s: System, step: Step, events: seq<Event>, streamID: string)
    requires Inv(s, events, streamID) && Possible(s, step, streamID)
    ensures Inv(Next(s, step, streamID), events + if step.Append? then [step.event] else [], streamID)
  {
    assert events + [] == events;
    match step
    case Append(event, sentAtMs) => AppendKeepsInv(s, event, sentAtMs, events, streamID);
    case Reconnect => ReconnectKeepsInv(s, events, streamID);
    case Deliver => DeliverKeepsInv(s, events, streamID);
    case Acknowledge(_) =>
    case Act(action) => ActionKeepsInv(s, action, events, streamID);
  }

  lemma {:induction false} RunKeepsInv(steps: seq<Step>, streamID: string)
    requires PossibleRun(steps, streamID)
    ensures Inv(Run(steps, streamID), Appended(steps), streamID)
  {
    if steps != [] {
      var init := steps[..|steps| - 1];
      RunKeepsInv(init, streamID);
      StepKeepsInv(Run(init, streamID), steps[|steps| - 1], Appended(init), streamID);
    }
  }

  /**
   * However appends, broken-off replays, and late or repeated acknowledgements
   * interleave, the output is the appended chunks up to the last applied sequence,
   * each once and in order, and no gap is ever reported.
   */
  lemma {:induction false} ExactlyOnceAfterRedelivery(steps: seq<Step>, streamID: string)
    requires PossibleRun(steps, streamID)
    ensures var reader := Run(steps, streamID).reader;
            && Applied(reader) <= |Appended(steps)|
            && reader.output == Chunks(Appended(steps)[..Applied(reader)])
            && !reader.hasSequenceGap
  {
    RunKeepsInv(steps, streamID);
  }

  /** Every sequence acknowledged during a run. */
  function Acknowledged(steps: seq<Step>): seq<nat> {
    if steps == [] then []
    else Acknowledged(steps[..|steps| - 1]) + match steps[|steps| - 1] case Acknowledge(n) => [n] case _ => []
  }

  /** The cursor is the greatest sequence acknowledged, in whatever order; zero if there is none. */
  lemma {:induction false} CursorIsGreatest(steps: seq<Step>, streamID: string)
    ensures var cursor, acknowledged := LastSeq(Run(steps, streamID).cursors, streamID), Acknowledged(steps);
            && (forall n :: n in acknowledged ==> n <= cursor)
            && (cursor in acknowledged || cursor == 0)
  {
    if steps != [] {
      var init, last := steps[..|steps| - 1], steps[|steps| - 1];
      CursorIsGreatest(init, streamID);
      assert Acknowledged(steps) == Acknowledged(init) + if last.Acknowledge? then [last.seq_] else [];
      assert Run(steps, streamID) == Next(Run(init, streamID), last, streamID);
    }
  }

  /** The connection delivers the next n envelopes. */
  function Delivered(s: System, n: nat, streamID: string): System {
    if n == 0 then s else Next(Delivered(s, n - 1, streamID), Deliver, streamID)
  }

  lemma {:induction false} DeliveredApplies(s: System, events: seq<Event>, streamID: string, n: nat)
    requires Inv(s, events, streamID) && n <= |s.inFlight|
    ensures var t := Delivered(s, n, streamID);
            && Inv(t, events, streamID)
            && t.inFlight == s.inFlight[n..]
            && (n > 0 ==> Applied(t.reader) >= s.inFlight[n - 1].streamSeq)
            && Applied(t.reader) >= Applied(s.reader)
  {
    if n > 0 {
      DeliveredApplies(s, events, streamID, n - 1);
      DeliverKeepsInv(Delivered(s, n - 1, streamID), events, streamID);
    }
  }

  lemma ReconnectReachesEnd(s: System, events: seq<Event>, streamID: string)
    requires Numbered(s.backlog, events, streamID) && ExactlyOnce(s.reader, events, streamID)
    requires LastSeq(s.cursors, streamID) <= Applied(s.reader) || Applied(s.reader) == |events|
    ensures var inFlight := Next(s, Reconnect, streamID).inFlight;
            if inFlight == [] then Applied(s.reader) == |events| else inFlight[|inFlight| - 1].streamSeq == |events|
  {
    ReplayIsSuffix(s.backlog, events, streamID, LastSeq(s.cursors, streamID));
  }

  lemma WholeOutput(reader: PaneState, events: seq<Event>, streamID: string)
    requires ExactlyOnce(reader, events, streamID) && Applied(reader) >= |events|
    ensures Applied(reader) == |events| && reader.output == Chunks(events) && !reader.hasSequenceGap
  {
    assert events[..|events|] == events;
  }

  /**
   * One undisturbed reconnect brings the reader up to date, wherever it was, unless something it
   * lacks was acknowledged.
   */
  lemma {:induction false} ReconnectCatchesUp(steps: seq<Step>, streamID: string)
    requires PossibleRun(steps, streamID)
    requires var s := Run(steps, streamID);
             LastSeq(s.cursors, streamID) <= Applied(s.reader) || Applied(s.reader) == |Appended(steps)|
    ensures var connected := Next(Run(steps, streamID), Reconnect, streamID);
            var reader := Delivered(connected, |connected.inFlight|, streamID).reader;
            && Applied(reader) == |Appended(steps)| && reader.output == Chunks(Appended(steps))
                && !reader.hasSequenceGap
  {
    var s, events := Run(steps, streamID), Appended(steps);
    RunKeepsInv(steps, streamID);
    ReplaySafeIff(s, events, streamID);
    ReconnectReachesEnd(s, events, streamID);
    var connected := Next(s, Reconnect, streamID);
    var n := |connected.inFlight|;
    DeliveredApplies(connected, events, streamID, n);
    WholeOutput(Delivered(connected, n, streamID).reader, events, streamID);
  }

  /**
   * If something the reader lacks was acknowledged and something later is left, the next
   * delivery applies the later event and the reader passes over those between for good.
   * This loss is reported as a gap if and only if the reader had applied an event before.
   */
  lemma LossIsReportedIff(s: System, events: seq<Event>, streamID: string)
    requires Numbered(s.backlog, events, streamID) && ExactlyOnce(s.reader, events, streamID)
    requires Applied(s.reader) < LastSeq(s.cursors, streamID) < |events|
    ensures var next := LastSeq(s.cursors, streamID);
            var after := Next(Next(s, Reconnect, streamID), Deliver, streamID).reader;
            && Applied(after) == next + 1
            && after.output == s.reader.output + (if events[next].OutputChunk? then events[next].chunk else "")
            && (after.hasSequenceGap <==> s.reader.lastAppliedSeq.Some?)
  {
    var next := LastSeq(s.cursors, streamID);
    ReplayIsSuffix(s.backlog, events, streamID, next);
    assert Next(s, Reconnect, streamID).inFlight[0] == s.backlog[next];
    assert s.reader.output + "" == s.reader.output;
  }

  /** A run in which an event is lost and no gap reported. */
  lemma PrematureAcknowledgeLosesEvents(streamID: string)
    ensures var s := Next(Next(Start(streamID), Append(OutputChunk("a"), 0), streamID), Append(OutputChunk("b"), 0),
                          streamID);
            var acknowledged := Next(s, Acknowledge(1), streamID);
            var t := Next(Next(acknowledged, Reconnect, streamID), Deliver, streamID);
            && !Possible(acknowledged, Reconnect, streamID)
            && t.inFlight == [] && Applied(t.reader) == 2
            && t.reader.output == "b" && Chunks([OutputChunk("a"), OutputChunk("b")]) == "ab"
                && !t.reader.hasSequenceGap
  {
    var a, b := Envelope(streamID, 1, 0, OutputChunk("a")), Envelope(streamID, 2, 0, OutputChunk("b"));
    var s := Next(Next(Start(streamID), Append(a.event, 0), streamID), Append(b.event, 0), streamID);
    assert s.backlog == [a, b];
    ReplayIsSuffix([a, b], [a.event, b.event], streamID, 1);
    assert Next(Next(s, Acknowledge(1), streamID), Reconnect, streamID).inFlight == [b];
    assert [a.event, b.event][..1] == [a.event] && [a.event][..0] == [];
    assert Chunks([a.event]) == "" + "a" == "a";
    assert "" + "b" == "b" && "a" + "b" == "ab";
  }

  // ---- The actors ----

  class M0ReplayCursorStore {
    var cursors: Cursors

    constructor (seed: Cursors)
      ensures cursors == seed
    {
      cursors := seed;
    }

    function Last(streamID: string): Option<nat>
      reads this
    {
      if streamID in cursors then Some(cursors[streamID]) else None
    }

    method Record(streamID: string, seq_: nat)
      modifies this
      ensures cursors == Recorded(old(cursors), streamID, seq_)
    {
      var current := if streamID in cursors then cursors[streamID] else 0;
      cursors := cursors[streamID := Max(current, seq_)];
    }
  }

  class M0MockClient {
    const streamID: string
    const cursorStore: M0ReplayCursorStore
    var backlog: seq<Envelope>
    var nextSeq: nat

    constructor (streamID: string, initialEvents: seq<Envelope>, cursorStore: M0ReplayCursorStore)
      ensures this.streamID == streamID && this.cursorStore == cursorStore
      ensures backlog == SortBy(initialEvents, SeqOf)
      ensures nextSeq == (if backlog == [] then 0 else backlog[|backlog| - 1].streamSeq) + 1
    {
      this.streamID := streamID;
      this.cursorStore := cursorStore;
      var sorted := SortBy(initialEvents, SeqOf);
      backlog := sorted;
      nextSeq := (if sorted == [] then 0 else sorted[|sorted| - 1].streamSeq) + 1;
    }

    /** The transport's part of a system. */
    ghost predicate Represents(s: System)
      reads this, cursorStore
    {
      s.backlog == backlog && s.nextSeq == nextSeq && s.cursors == cursorStore.cursors
    }

    method AppendEvent(event: Event, sentAtMs: nat, ghost s: System) returns (envelope: Envelope)
      requires Represents(s)
      modifies this
      ensures Represents(Next(s, Append(event, sentAtMs), streamID)) && backlog == old(backlog) + [envelope]
    {
      envelope := Envelope(streamID, nextSeq, sentAtMs, event);
      backlog := backlog + [envelope];
      nextSeq := nextSeq + 1;
    }

    method AcknowledgeSeq(seq_: nat, ghost s: System)
      requires Represents(s)
      modifies cursorStore
      ensures Represents(Next(s, Acknowledge(seq_), streamID))
    {
      cursorStore.Record(streamID, seq_);
    }

    method ReconnectStream(ghost s: System) returns (resume: ResumeRequest, replay: seq<Envelope>)
      requires Represents(s)
      ensures replay == Next(s, Reconnect, streamID).inFlight && Represents(Next(s, Reconnect, streamID))
      ensures resume == ResumeRequest(streamID, nextSeq, LastSeq(s.cursors, streamID))
    {
      var last := cursorStore.Last(streamID);
      var lastSeq := if last.Some? then last.value else 0;
      resume := ResumeRequest(streamID, nextSeq, lastSeq);
      replay := ReplayEvents(backlog, lastSeq);
    }
  }
}

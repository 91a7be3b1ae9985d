/** The agent's session on the employee dashboard: the status tracker (the
    current status, how long it has lasted, the open segment in the status
    log) and the call session (a simulated ring, the active call and its
    counter), coupled by three reactions that run after every change: the
    "gone home" status withdraws a ring, entering a call switches the status
    to "on call", and a ring is scheduled only while the agent is available
    and idle.

    The store is not modelled: each write is appended to a log of store
    writes, and each answer the store gives (the id of an inserted row or
    its failure, the fetched call list) is a parameter. Each random draw of
    `Math.random()` is a parameter in [0, 1). */
module AgentSession {
  import opened Text
  import SD = StatusDropdown
  import AL = ActivityLog

  // ---------------------------------------------------------------------------
  // Random draws

  /** A value of `Math.random()`. */
  type Draw = r: real | 0.0 <= r < 1.0

  /** The delay before a simulated ring: `floor(random * 6000) + 5000` ms. */
  function IncomingDelay(r: Draw): (d: int)
    ensures 5000 <= d <= 10999
  {
    (r * 6000.0).Floor + 5000
  }

  const AreaCodes: seq<nat> := [
    212, 213, 214, 215, 216, 305, 312, 323, 347, 404, 415, 469, 510,
    562, 602, 619, 626, 702, 714, 718, 760, 805, 818, 832, 917]

  /** A three-digit number is written with exactly three digits. */
  lemma ThreeDigits(n: nat)
    requires 100 <= n <= 999
    ensures |NatToString(n)| == 3 && DecimalValue(NatToString(n)) == n
  {
    NatToStringWidth(n, 3);
    NatToStringWidth(n, 2);
    DecimalRoundTrip(n);
  }

  lemma FourDigits(n: nat)
    requires 1000 <= n <= 9999
    ensures |NatToString(n)| == 4 && DecimalValue(NatToString(n)) == n
  {
    NatToStringWidth(n, 4);
    NatToStringWidth(n, 3);
    DecimalRoundTrip(n);
  }

  /** A random US number `+1 AAA-EEE-LLLL`: an area code from the list, an
      exchange in 100..999 and a line number in 1000..9999. Reading the
      three groups back gives those numbers. */
  function GenerateUSAPhoneNumber(area: Draw, exchange: Draw, line: Draw): (n: string)
    ensures |n| == 15 && n[..3] == "+1 " && n[6] == '-' && n[10] == '-'
    ensures AllDigits(n[3..6]) && DecimalValue(n[3..6]) in AreaCodes
    ensures AllDigits(n[7..10]) && 100 <= DecimalValue(n[7..10]) <= 999
    ensures AllDigits(n[11..]) && 1000 <= DecimalValue(n[11..]) <= 9999
  {
    var code := AreaCodes[(area * 25.0).Floor];
    var ex := (exchange * 900.0).Floor + 100;
    var ln := (line * 9000.0).Floor + 1000;
    assert forall k :: 0 <= k < |AreaCodes| ==> 100 <= AreaCodes[k] <= 999;
    ThreeDigits(code);
    ThreeDigits(ex);
    FourDigits(ln);
    var n := "+1 " + NatToString(code) + "-" + NatToString(ex) + "-" + NatToString(ln);
    assert n[3..6] == NatToString(code);
    assert n[7..10] == NatToString(ex);
    assert n[11..] == NatToString(ln);
    n
  }

  // ---------------------------------------------------------------------------
  // Store writes

  /** A write the session sends to the store: opening and closing a status
      segment, inserting a call record, setting a call's duration. */
  datatype StoreWrite =
    | OpenSegment(userId: string, status: SD.StatusType)
    | CloseSegment(segmentId: string, durationSeconds: int)
    | InsertCall(userId: string, phoneNumber: string, direction: AL.Direction, outcome: AL.Outcome, durationSeconds: int)
    | SetCallDuration(callId: string, durationSeconds: int)

  predicate IsCallWrite(w: StoreWrite) {
    w.InsertCall? || w.SetCallDuration?
  }

  /** The writes to the call records, in order. */
  function CallWrites(ws: seq<StoreWrite>): (r: seq<StoreWrite>)
    ensures |r| <= |ws|
  {
    if ws == [] then []
    else CallWrites(ws[..|ws| - 1]) + (if IsCallWrite(ws[|ws| - 1]) then [ws[|ws| - 1]] else [])
  }

  /** The writes to the status log, in order. */
  function SegmentWrites(ws: seq<StoreWrite>): (r: seq<StoreWrite>)
    ensures |r| <= |ws|
  {
    if ws == [] then []
    else SegmentWrites(ws[..|ws| - 1]) + (if IsCallWrite(ws[|ws| - 1]) then [] else [ws[|ws| - 1]])
  }

  /** Each filter keeps writes of its own table only, taken from the log. */
  lemma {:induction false} WritesFiltered(ws: seq<StoreWrite>)
    ensures forall w :: w in CallWrites(ws) ==> w in ws && IsCallWrite(w)
    ensures forall w :: w in SegmentWrites(ws) ==> w in ws && !IsCallWrite(w)
  {
    if ws != [] {
      var init := ws[..|ws| - 1];
      WritesFiltered(init);
      assert ws == init + [ws[|ws| - 1]];
    }
  }

  /** Every write goes to exactly one of the two tables: splitting a log of
      writes by table loses and invents nothing. */
  lemma {:induction false} WritesSplit(ws: seq<StoreWrite>)
    ensures |CallWrites(ws)| + |SegmentWrites(ws)| == |ws|
    ensures forall w :: w in ws <==> w in CallWrites(ws) || w in SegmentWrites(ws)
  {
    if ws != [] {
      var init := ws[..|ws| - 1];
      WritesSplit(init);
      assert ws == init + [ws[|ws| - 1]];
    }
  }

  // ---------------------------------------------------------------------------
  // The session's state

  /** A status segment left open by an earlier session. */
  datatype OpenSegmentRow = OpenSegmentRow(id: string, status: SD.StatusType, startedAt: int)

  /** The session: the signed-in agent's id, the status tracker, the call
      session, the pending ring timer (its delay in ms, None when no ring is
      scheduled) and the log of store writes. */
  datatype Session = Session(
    agent: Option<string>,
    status: SD.StatusType,
    statusDuration: int,
    statusId: Option<string>,
    ringing: bool,
    incomingNumber: string,
    callLogs: seq<AL.CallLog>,
    onCall: bool,
    callDuration: int,
    callId: Option<string>,
    timer: Option<int>,
    writes: seq<StoreWrite>)

  /** The three values the ring scheduler watches. */
  datatype Deps = Deps(status: SD.StatusType, ringing: bool, onCall: bool)

  function DepsOf(s: Session): Deps {
    Deps(s.status, s.ringing, s.onCall)
  }

  /** The condition under which a ring is scheduled. */
  predicate Idle(s: Session) {
    s.status == SD.Available && !s.ringing && !s.onCall
  }

  /** What holds between any two events of a session: a ring is pending
      exactly while the agent is available and idle, with a delay of 5 to 11
      seconds; "gone home" never rings; a call id belongs to an active call;
      the call counter is zero between calls and never negative. */
  predicate Consistent(s: Session) {
    && (s.timer.Some? <==> Idle(s))
    && (s.timer.Some? ==> 5000 <= s.timer.value <= 10999)
    && !(s.status == SD.GoneHome && s.ringing)
    && (s.callId.Some? ==> s.onCall)
    && (!s.onCall ==> s.callDuration == 0)
    && s.callDuration >= 0
  }

  /** The session as first drawn: available, idle, and with a ring already
      scheduled. */
  function Initial(agent: Option<string>, delay: Draw): (s: Session)
    ensures Consistent(s) && Idle(s) && s.writes == [] && s.statusId == None
  {
    Session(agent, SD.Available, 0, None, false, [], [], false, 0, None, Some(IncomingDelay(delay)), [])
  }

  // ---------------------------------------------------------------------------
  // Steps shared by the handlers

  /** Opening a status segment: the insert is sent for a signed-in agent;
      only when it succeeds does its id become the open segment and the
      counter restart. */
  function OpenStatus(s: Session, status: SD.StatusType, inserted: Option<string>): Session {
    if s.agent.None? then s
    else
      var t := s.(writes := s.writes + [OpenSegment(s.agent.value, status)]);
      if inserted.Some? then t.(statusId := inserted, statusDuration := 0) else t
  }

  /** A status change: with an open segment, it is closed with the counted
      duration, the new status is set and a segment is opened for it. */
  function ChangeStatus(s: Session, newStatus: SD.StatusType, inserted: Option<string>): Session {
    if s.agent.None? || s.statusId.None? then s
    else
      var closed := s.(writes := s.writes + [CloseSegment(s.statusId.value, s.statusDuration)], status := newStatus);
      OpenStatus(closed, newStatus, inserted)
  }

  /** Fetching the call list: a successful fetch replaces it. */
  function FetchLogs(s: Session, fetched: Option<seq<AL.CallLog>>): Session {
    if s.agent.None? || fetched.None? then s else s.(callLogs := fetched.value)
  }

  /** The three reactions, run once the handler's own changes are made
      (`before` is what the scheduler saw last): "gone home" withdraws a
      ring; a call just entered switches to "on call" unless already there;
      a change of the scheduler's three values cancels the pending ring and
      schedules a new one if the agent is now idle. */
  function Settle(before: Deps, s: Session, inserted: Option<string>, delay: Draw): Session {
    var s1 := if s.status == SD.GoneHome && s.ringing then s.(ringing := false) else s;
    var s2 := if s1.onCall && !before.onCall && s1.status != SD.OnCall then ChangeStatus(s1, SD.OnCall, inserted) else s1;
    if DepsOf(s2) == before then s2
    else s2.(timer := if Idle(s2) then Some(IncomingDelay(delay)) else None)
  }

  // ---------------------------------------------------------------------------
  // The events

  /** Sign-in: a segment left open is resumed with the seconds elapsed since
      it started; otherwise an "available" segment is opened, without
      setting the status. Then the call list is fetched. */
  function Start(s: Session, existing: Option<OpenSegmentRow>, now: int, inserted: Option<string>,
                 fetched: Option<seq<AL.CallLog>>, delay: Draw): Session
  {
    if s.agent.None? then s
    else
      var t := if existing.Some? then
          s.(status := existing.value.status, statusId := Some(existing.value.id),
             statusDuration := (now - existing.value.startedAt) / 1000)
        else OpenStatus(s, SD.Available, inserted);
      Settle(DepsOf(s), FetchLogs(t, fetched), inserted, delay)
  }

  /** The agent picks a status from the dropdown. */
  function SelectStatus(s: Session, newStatus: SD.StatusType, inserted: Option<string>, delay: Draw): Session {
    Settle(DepsOf(s), ChangeStatus(s, newStatus, inserted), inserted, delay)
  }

  /** One second of the status counter, whatever the status. */
  function TickStatus(s: Session): Session {
    s.(statusDuration := s.statusDuration + 1)
  }

  /** One second of the call counter, which runs only during a call. */
  function TickCall(s: Session): Session {
    if s.onCall then s.(callDuration := s.callDuration + 1) else s
  }

  /** The pending ring fires: a generated number rings. */
  function Ring(s: Session, area: Draw, exchange: Draw, line: Draw): Session {
    if s.timer.None? then s
    else
      var t := s.(incomingNumber := GenerateUSAPhoneNumber(area, exchange, line), ringing := true, timer := None);
      Settle(DepsOf(s), t, None, 0.0)
  }

  /** Answering: an inbound answered record is inserted; its id is kept if
      the insert succeeded, but the call is entered either way. */
  function Answer(s: Session, recordId: Option<string>, fetched: Option<seq<AL.CallLog>>,
                  inserted: Option<string>, delay: Draw): Session
  {
    if s.agent.None? then s
    else
      var t := s.(
        writes := s.writes + [InsertCall(s.agent.value, s.incomingNumber, AL.Inbound, AL.Answered, 0)],
        callId := if recordId.Some? then recordId else s.callId,
        ringing := false, onCall := true, callDuration := 0);
      Settle(DepsOf(s), FetchLogs(t, fetched), inserted, delay)
  }

  /** Declining: an inbound declined record is inserted and the ring
      withdrawn. */
  function Decline(s: Session, fetched: Option<seq<AL.CallLog>>, delay: Draw): Session {
    if s.agent.None? then s
    else
      var t := s.(
        writes := s.writes + [InsertCall(s.agent.value, s.incomingNumber, AL.Inbound, AL.Declined, 0)],
        ringing := false);
      Settle(DepsOf(s), FetchLogs(t, fetched), None, delay)
  }

  /** Hanging up: only a call with a record id can end. Its counted duration
      is written to the record, the call is cleared and the status changes
      to "after call". */
  function End(s: Session, fetched: Option<seq<AL.CallLog>>, inserted: Option<string>, delay: Draw): Session {
    if s.agent.None? || s.callId.None? then s
    else
      var t := s.(
        writes := s.writes + [SetCallDuration(s.callId.value, s.callDuration)],
        onCall := false, callDuration := 0, callId := None);
      Settle(DepsOf(s), FetchLogs(ChangeStatus(t, SD.AfterCall, inserted), fetched), inserted, delay)
  }

  /** Dialling out: an outbound answered record is inserted; only when that
      succeeds is the call entered, with the dialled number shown. A pending
      ring is left alone. */
  function Dial(s: Session, number: string, recordId: Option<string>, fetched: Option<seq<AL.CallLog>>,
                inserted: Option<string>, delay: Draw): Session
  {
    if s.agent.None? then s
    else
      var t := s.(writes := s.writes + [InsertCall(s.agent.value, number, AL.Outbound, AL.Answered, 0)]);
      var u := if recordId.Some? then
          t.(callId := recordId, incomingNumber := number, onCall := true, callDuration := 0)
        else t;
      Settle(DepsOf(s), FetchLogs(u, fetched), inserted, delay)
  }

  /** Sign-out is offered only to an agent who has gone home. */
  function CanSignOut(s: Session): (b: bool)
    ensures b <==> s.status == SD.GoneHome
  {
    s.status == SD.GoneHome
  }

  /** The interactions panel: the active call takes precedence over a ring. */
  datatype Interaction = ActiveCallPanel(phoneNumber: string, duration: int) | IncomingCallPanel(phoneNumber: string) | NoActiveCalls

  function Interactions(s: Session): (v: Interaction)
    ensures v.ActiveCallPanel? <==> s.onCall
    ensures v.IncomingCallPanel? <==> !s.onCall && s.ringing
    ensures v.ActiveCallPanel? ==> v.duration == s.callDuration
    ensures !v.NoActiveCalls? ==> v.phoneNumber == s.incomingNumber
  {
    if s.onCall then ActiveCallPanel(s.incomingNumber, s.callDuration)
    else if s.ringing then IncomingCallPanel(s.incomingNumber)
    else NoActiveCalls
  }

  // ---------------------------------------------------------------------------
  // Runs of events

  datatype Event =
    | SignIn(existing: Option<OpenSegmentRow>, now: int, inserted: Option<string>, fetched: Option<seq<AL.CallLog>>, delay: Draw)
    | PickStatus(status: SD.StatusType, inserted: Option<string>, delay: Draw)
    | StatusSecond
    | CallSecond
    | RingFires(area: Draw, exchange: Draw, line: Draw)
    | AnswerCall(recordId: Option<string>, fetched: Option<seq<AL.CallLog>>, inserted: Option<string>, delay: Draw)
    | DeclineCall(fetched: Option<seq<AL.CallLog>>, delay: Draw)
    | EndCall(fetched: Option<seq<AL.CallLog>>, inserted: Option<string>, delay: Draw)
    | DialOut(number: string, recordId: Option<string>, fetched: Option<seq<AL.CallLog>>, inserted: Option<string>, delay: Draw)

  function Step(s: Session, e: Event): Session {
    match e
    case SignIn(existing, now, inserted, fetched, delay) => Start(s, existing, now, inserted, fetched, delay)
    case PickStatus(status, inserted, delay) => SelectStatus(s, status, inserted, delay)
    case StatusSecond => TickStatus(s)
    case CallSecond => TickCall(s)
    case RingFires(area, exchange, line) => Ring(s, area, exchange, line)
    case AnswerCall(recordId, fetched, inserted, delay) => Answer(s, recordId, fetched, inserted, delay)
    case DeclineCall(fetched, delay) => Decline(s, fetched, delay)
    case EndCall(fetched, inserted, delay) => End(s, fetched, inserted, delay)
    case DialOut(number, recordId, fetched, inserted, delay) => Dial(s, number, recordId, fetched, inserted, delay)
  }

  function Run(s: Session, events: seq<Event>): Session
    decreases |events|
  {
    if events == [] then s else Run(Step(s, events[0]), events[1..])
  }

  // ---------------------------------------------------------------------------
  // Shapes of the shared steps

  /** Appending one write adds it to the log of its own table only. */
  lemma AppendWrite(ws: seq<StoreWrite>, w: StoreWrite)
    ensures (ws + [w])[..|ws|] == ws
    ensures CallWrites(ws + [w]) == CallWrites(ws) + (if IsCallWrite(w) then [w] else [])
    ensures SegmentWrites(ws + [w]) == SegmentWrites(ws) + (if IsCallWrite(w) then [] else [w])
  {
    assert (ws + [w])[..|ws|] == ws;
  }

  /** The result of a status change, field by field. */
  lemma ChangeStatusShape(s: Session, newStatus: SD.StatusType, inserted: Option<string>)
    ensures s.agent.None? || s.statusId.None? ==> ChangeStatus(s, newStatus, inserted) == s
    ensures s.agent.Some? && s.statusId.Some? ==>
      ChangeStatus(s, newStatus, inserted) == s.(
        status := newStatus,
        writes := s.writes + [CloseSegment(s.statusId.value, s.statusDuration)] + [OpenSegment(s.agent.value, newStatus)],
        statusId := if inserted.Some? then inserted else s.statusId,
        statusDuration := if inserted.Some? then 0 else s.statusDuration)
  {
  }

  /** Whether the reactions switch the status to "on call". */
  predicate EntersOnCall(before: Deps, s: Session) {
    s.onCall && !before.onCall && s.status != SD.OnCall && s.agent.Some? && s.statusId.Some?
  }

  /** The result of the reactions, field by field: the call fields are left
      alone, "gone home" loses its ring, the status and the status log
      change only when a call was just entered, and the timer is reset
      exactly when the scheduler's three values changed. */
  lemma SettleShape(before: Deps, s: Session, inserted: Option<string>, delay: Draw)
    ensures var r := Settle(before, s, inserted, delay);
      && r.agent == s.agent && r.onCall == s.onCall && r.callDuration == s.callDuration
      && r.callId == s.callId && r.incomingNumber == s.incomingNumber && r.callLogs == s.callLogs
      && r.ringing == (s.ringing && s.status != SD.GoneHome)
      && (EntersOnCall(before, s) ==>
            && r.status == SD.OnCall
            && r.writes == s.writes + [CloseSegment(s.statusId.value, s.statusDuration)] + [OpenSegment(s.agent.value, SD.OnCall)]
            && r.statusId == (if inserted.Some? then inserted else s.statusId)
            && r.statusDuration == (if inserted.Some? then 0 else s.statusDuration))
      && (!EntersOnCall(before, s) ==>
            r.status == s.status && r.writes == s.writes && r.statusId == s.statusId && r.statusDuration == s.statusDuration)
      && r.timer == (if DepsOf(r) == before then s.timer else if Idle(r) then Some(IncomingDelay(delay)) else None)
  {
    var s1 := if s.status == SD.GoneHome && s.ringing then s.(ringing := false) else s;
    ChangeStatusShape(s1, SD.OnCall, inserted);
  }

  // ---------------------------------------------------------------------------
  // Properties

  /** The reactions restore consistency after any handler that leaves the
      timer as the scheduler last set it and the call fields consistent. */
  lemma SettleConsistent(before: Deps, s: Session, inserted: Option<string>, delay: Draw)
    requires s.timer.Some? <==> before.status == SD.Available && !before.ringing && !before.onCall
    requires s.timer.Some? ==> 5000 <= s.timer.value <= 10999
    requires s.callId.Some? ==> s.onCall
    requires !s.onCall ==> s.callDuration == 0
    requires s.callDuration >= 0
    ensures Consistent(Settle(before, s, inserted, delay))
  {
    SettleShape(before, s, inserted, delay);
  }

  /** Every event keeps a consistent session consistent. */
  lemma StepConsistent(s: Session, e: Event)
    requires Consistent(s)
    ensures Consistent(Step(s, e))
  {
    match e
    case SignIn(existing, now, inserted, fetched, delay) => StartConsistent(s, existing, now, inserted, fetched, delay);
    case PickStatus(status, inserted, delay) =>
      ChangeStatusShape(s, status, inserted);
      SettleConsistent(DepsOf(s), ChangeStatus(s, status, inserted), inserted, delay);
    case StatusSecond =>
    case CallSecond =>
    case RingFires(area, exchange, line) =>
      if s.timer.Some? {
        RingSetsNumber(s, area, exchange, line);
      }
    case AnswerCall(recordId, fetched, inserted, delay) => AnswerConsistent(s, recordId, fetched, inserted, delay);
    case DeclineCall(fetched, delay) => DeclineConsistent(s, fetched, delay);
    case EndCall(fetched, inserted, delay) => EndConsistent(s, fetched, inserted, delay);
    case DialOut(number, recordId, fetched, inserted, delay) => DialConsistent(s, number, recordId, fetched, inserted, delay);
  }

  lemma StartConsistent(s: Session, existing: Option<OpenSegmentRow>, now: int, inserted: Option<string>,
                        fetched: Option<seq<AL.CallLog>>, delay: Draw)
    requires Consistent(s)
    ensures Consistent(Start(s, existing, now, inserted, fetched, delay))
  {
    if s.agent.Some? {
      var t := if existing.Some? then
          s.(status := existing.value.status, statusId := Some(existing.value.id),
             statusDuration := (now - existing.value.startedAt) / 1000)
        else OpenStatus(s, SD.Available, inserted);
      SettleConsistent(DepsOf(s), FetchLogs(t, fetched), inserted, delay);
    }
  }

  lemma AnswerConsistent(s: Session, recordId: Option<string>, fetched: Option<seq<AL.CallLog>>,
                         inserted: Option<string>, delay: Draw)
    requires Consistent(s)
    ensures Consistent(Answer(s, recordId, fetched, inserted, delay))
  {
    if s.agent.Some? {
      var t := s.(
        writes := s.writes + [InsertCall(s.agent.value, s.incomingNumber, AL.Inbound, AL.Answered, 0)],
        callId := if recordId.Some? then recordId else s.callId,
        ringing := false, onCall := true, callDuration := 0);
      SettleConsistent(DepsOf(s), FetchLogs(t, fetched), inserted, delay);
    }
  }

  lemma DeclineConsistent(s: Session, fetched: Option<seq<AL.CallLog>>, delay: Draw)
    requires Consistent(s)
    ensures Consistent(Decline(s, fetched, delay))
  {
    if s.agent.Some? {
      var t := s.(
        writes := s.writes + [InsertCall(s.agent.value, s.incomingNumber, AL.Inbound, AL.Declined, 0)],
        ringing := false);
      SettleConsistent(DepsOf(s), FetchLogs(t, fetched), None, delay);
    }
  }

  lemma EndConsistent(s: Session, fetched: Option<seq<AL.CallLog>>, inserted: Option<string>, delay: Draw)
    requires Consistent(s)
    ensures Consistent(End(s, fetched, inserted, delay))
  {
    if s.agent.Some? && s.callId.Some? {
      var t := s.(
        writes := s.writes + [SetCallDuration(s.callId.value, s.callDuration)],
        onCall := false, callDuration := 0, callId := None);
      ChangeStatusShape(t, SD.AfterCall, inserted);
      SettleConsistent(DepsOf(s), FetchLogs(ChangeStatus(t, SD.AfterCall, inserted), fetched), inserted, delay);
    }
  }

  lemma DialConsistent(s: Session, number: string, recordId: Option<string>, fetched: Option<seq<AL.CallLog>>,
                       inserted: Option<string>, delay: Draw)
    requires Consistent(s)
    ensures Consistent(Dial(s, number, recordId, fetched, inserted, delay))
  {
    if s.agent.Some? {
      var t := s.(writes := s.writes + [InsertCall(s.agent.value, number, AL.Outbound, AL.Answered, 0)]);
      var u := if recordId.Some? then
          t.(callId := recordId, incomingNumber := number, onCall := true, callDuration := 0)
        else t;
      SettleConsistent(DepsOf(s), FetchLogs(u, fetched), inserted, delay);
    }
  }

  /** Every session reached by any events from a consistent one is
      consistent. */
  lemma {:induction false} RunConsistent(s: Session, events: seq<Event>)
    requires Consistent(s)
    ensures Consistent(Run(s, events))
    decreases |events|
  {
    if events != [] {
      StepConsistent(s, events[0]);
      RunConsistent(Step(s, events[0]), events[1..]);
    }
  }

  /** Every session reached from the first drawn one is consistent. */
  lemma ReachableConsistent(agent: Option<string>, delay: Draw, events: seq<Event>)
    ensures Consistent(Run(Initial(agent, delay), events))
  {
    RunConsistent(Initial(agent, delay), events);
  }

  /** Two writes appended one after the other, as a status change does. */
  lemma AppendTwo(ws: seq<StoreWrite>, w1: StoreWrite, w2: StoreWrite)
    ensures CallWrites(ws + [w1] + [w2]) == CallWrites(ws) + (if IsCallWrite(w1) then [w1] else []) + (if IsCallWrite(w2) then [w2] else [])
    ensures SegmentWrites(ws + [w1] + [w2]) == SegmentWrites(ws) + (if IsCallWrite(w1) then [] else [w1]) + (if IsCallWrite(w2) then [] else [w2])
  {
    AppendWrite(ws, w1);
    AppendWrite(ws + [w1], w2);
  }

  /** A status change without an open segment changes nothing. With one, it
      closes that segment with the counted seconds and opens one for the new
      status, even when the status is unchanged; the new id and a zero
      counter are taken only if the insert succeeded. The call is left
      alone and no call record is written. */
  lemma StatusChangeSegments(s: Session, newStatus: SD.StatusType, inserted: Option<string>, delay: Draw)
    requires Consistent(s)
    ensures s.agent.None? || s.statusId.None? ==> SelectStatus(s, newStatus, inserted, delay) == s
    ensures var r := SelectStatus(s, newStatus, inserted, delay);
      s.agent.Some? && s.statusId.Some? ==>
        && r.status == newStatus
        && r.writes == s.writes + [CloseSegment(s.statusId.value, s.statusDuration)] + [OpenSegment(s.agent.value, newStatus)]
        && CallWrites(r.writes) == CallWrites(s.writes)
        && (inserted.Some? ==> r.statusId == inserted && r.statusDuration == 0)
        && (inserted.None? ==> r.statusId == s.statusId && r.statusDuration == s.statusDuration)
        && r.onCall == s.onCall && r.callDuration == s.callDuration && r.callId == s.callId
  {
    ChangeStatusShape(s, newStatus, inserted);
    SettleShape(DepsOf(s), ChangeStatus(s, newStatus, inserted), inserted, delay);
    if s.agent.Some? && s.statusId.Some? {
      AppendTwo(s.writes, CloseSegment(s.statusId.value, s.statusDuration), OpenSegment(s.agent.value, newStatus));
    }
  }

  /** Going home withdraws a pending ring and writes no call record. */
  lemma GoneHomeWithdrawsRing(s: Session, inserted: Option<string>, delay: Draw)
    requires Consistent(s) && s.agent.Some? && s.statusId.Some?
    ensures var r := SelectStatus(s, SD.GoneHome, inserted, delay);
      !r.ringing && CanSignOut(r) && CallWrites(r.writes) == CallWrites(s.writes) && r.timer.None?
  {
    StatusChangeSegments(s, SD.GoneHome, inserted, delay);
    SettleShape(DepsOf(s), ChangeStatus(s, SD.GoneHome, inserted), inserted, delay);
  }

  /** The status counter advances by one each second whatever the status,
      and nothing else changes. */
  lemma StatusTickCounts(s: Session)
    ensures TickStatus(s).statusDuration == s.statusDuration + 1
    ensures TickStatus(s).(statusDuration := s.statusDuration) == s
  {
  }

  /** The call counter advances by one each second of a call and stands
      still otherwise; nothing else changes, the pending ring included. */
  lemma CallTickCounts(s: Session)
    ensures TickCall(s).callDuration == if s.onCall then s.callDuration + 1 else s.callDuration
    ensures TickCall(s).(callDuration := s.callDuration) == s
  {
  }

  /** A firing timer rings with a generated number and writes nothing; no
      other ring is scheduled while this one is pending. */
  lemma RingSetsNumber(s: Session, area: Draw, exchange: Draw, line: Draw)
    requires Consistent(s) && s.timer.Some?
    ensures var r := Ring(s, area, exchange, line);
      && r.ringing && r.incomingNumber == GenerateUSAPhoneNumber(area, exchange, line)
      && r.timer.None? && r.writes == s.writes && r.status == s.status && !r.onCall
  {
    var t := s.(incomingNumber := GenerateUSAPhoneNumber(area, exchange, line), ringing := true, timer := None);
    SettleShape(DepsOf(s), t, None, 0.0);
  }

  /** Answering enters a call at zero seconds and withdraws the ring,
      keeping the record's id only if the insert succeeded; entering from a
      status other than "on call" switches to "on call". No ring is
      scheduled during the call. */
  lemma AnswerEntersCall(s: Session, recordId: Option<string>, fetched: Option<seq<AL.CallLog>>,
                         inserted: Option<string>, delay: Draw)
    requires Consistent(s) && s.agent.Some? && !s.onCall
    ensures var r := Answer(s, recordId, fetched, inserted, delay);
      && r.onCall && !r.ringing && r.callDuration == 0
      && r.callId == recordId
      && (s.status != SD.OnCall && s.statusId.Some? ==> r.status == SD.OnCall)
      && r.timer.None?
  {
    var t := s.(
      writes := s.writes + [InsertCall(s.agent.value, s.incomingNumber, AL.Inbound, AL.Answered, 0)],
      callId := if recordId.Some? then recordId else s.callId,
      ringing := false, onCall := true, callDuration := 0);
    SettleShape(DepsOf(s), FetchLogs(t, fetched), inserted, delay);
  }

  /** Answering writes exactly one call record, inbound and answered with no
      duration. Entering the call from a status other than "on call" closes
      that segment and opens an "on call" one; from "on call" no segment is
      touched. */
  lemma AnswerWrites(s: Session, recordId: Option<string>, fetched: Option<seq<AL.CallLog>>,
                     inserted: Option<string>, delay: Draw)
    requires Consistent(s) && s.agent.Some? && !s.onCall
    ensures var r := Answer(s, recordId, fetched, inserted, delay);
      && CallWrites(r.writes) == CallWrites(s.writes) + [InsertCall(s.agent.value, s.incomingNumber, AL.Inbound, AL.Answered, 0)]
      && SegmentWrites(r.writes) == SegmentWrites(s.writes) +
           (if s.status != SD.OnCall && s.statusId.Some?
            then [CloseSegment(s.statusId.value, s.statusDuration)] + [OpenSegment(s.agent.value, SD.OnCall)]
            else [])
  {
    var w := InsertCall(s.agent.value, s.incomingNumber, AL.Inbound, AL.Answered, 0);
    AnswerLog(s, recordId, fetched, inserted, delay);
    if s.status != SD.OnCall && s.statusId.Some? {
      ThenSegmentChange(s.writes, w, CloseSegment(s.statusId.value, s.statusDuration), OpenSegment(s.agent.value, SD.OnCall));
    } else {
      AppendWrite(s.writes, w);
    }
  }

  /** The log an answer leaves, write by write. */
  lemma AnswerLog(s: Session, recordId: Option<string>, fetched: Option<seq<AL.CallLog>>,
                  inserted: Option<string>, delay: Draw)
    requires s.agent.Some? && !s.onCall
    ensures var w := InsertCall(s.agent.value, s.incomingNumber, AL.Inbound, AL.Answered, 0);
      Answer(s, recordId, fetched, inserted, delay).writes ==
        if s.status != SD.OnCall && s.statusId.Some?
        then s.writes + [w] + [CloseSegment(s.statusId.value, s.statusDuration)] + [OpenSegment(s.agent.value, SD.OnCall)]
        else s.writes + [w]
  {
    var t := s.(
      writes := s.writes + [InsertCall(s.agent.value, s.incomingNumber, AL.Inbound, AL.Answered, 0)],
      callId := if recordId.Some? then recordId else s.callId,
      ringing := false, onCall := true, callDuration := 0);
    SettleShape(DepsOf(s), FetchLogs(t, fetched), inserted, delay);
  }

  /** A call write followed by a status change: one more call write, two
      more segment writes. */
  lemma ThenSegmentChange(ws: seq<StoreWrite>, w: StoreWrite, w1: StoreWrite, w2: StoreWrite)
    requires IsCallWrite(w) && !IsCallWrite(w1) && !IsCallWrite(w2)
    ensures CallWrites(ws + [w] + [w1] + [w2]) == CallWrites(ws) + [w]
    ensures SegmentWrites(ws + [w] + [w1] + [w2]) == SegmentWrites(ws) + [w1] + [w2]
  {
    AppendWrite(ws, w);
    AppendTwo(ws + [w], w1, w2);
  }

  /** Dialling out: a failed insert leaves the call state as it was; a
      successful one enters a call at zero seconds showing the dialled
      number. Either way a pending ring is left as it was. */
  lemma DialEntersCallOnRecord(s: Session, number: string, recordId: Option<string>,
                               fetched: Option<seq<AL.CallLog>>, inserted: Option<string>, delay: Draw)
    requires Consistent(s) && s.agent.Some?
    ensures var r := Dial(s, number, recordId, fetched, inserted, delay);
      && r.ringing == s.ringing
      && (recordId.None? ==> r.onCall == s.onCall && r.callId == s.callId && r.callDuration == s.callDuration
                             && r.status == s.status && r.incomingNumber == s.incomingNumber)
      && (recordId.Some? ==> r.onCall && r.callId == recordId && r.callDuration == 0 && r.incomingNumber == number)
  {
    var t := s.(writes := s.writes + [InsertCall(s.agent.value, number, AL.Outbound, AL.Answered, 0)]);
    var u := if recordId.Some? then
        t.(callId := recordId, incomingNumber := number, onCall := true, callDuration := 0)
      else t;
    SettleShape(DepsOf(s), FetchLogs(u, fetched), inserted, delay);
  }

  /** Dialling out writes exactly one call record, outbound and answered
      with no duration; a failed insert touches no segment. */
  lemma DialWrites(s: Session, number: string, recordId: Option<string>,
                   fetched: Option<seq<AL.CallLog>>, inserted: Option<string>, delay: Draw)
    requires Consistent(s) && s.agent.Some?
    ensures var r := Dial(s, number, recordId, fetched, inserted, delay);
      && CallWrites(r.writes) == CallWrites(s.writes) + [InsertCall(s.agent.value, number, AL.Outbound, AL.Answered, 0)]
      && (recordId.None? ==> SegmentWrites(r.writes) == SegmentWrites(s.writes))
  {
    var w := InsertCall(s.agent.value, number, AL.Outbound, AL.Answered, 0);
    DialLog(s, number, recordId, fetched, inserted, delay);
    if recordId.Some? && !s.onCall && s.status != SD.OnCall && s.statusId.Some? {
      ThenSegmentChange(s.writes, w, CloseSegment(s.statusId.value, s.statusDuration), OpenSegment(s.agent.value, SD.OnCall));
    } else {
      AppendWrite(s.writes, w);
    }
  }

  /** The log a dial leaves, write by write. */
  lemma DialLog(s: Session, number: string, recordId: Option<string>,
                fetched: Option<seq<AL.CallLog>>, inserted: Option<string>, delay: Draw)
    requires s.agent.Some?
    ensures var w := InsertCall(s.agent.value, number, AL.Outbound, AL.Answered, 0);
      Dial(s, number, recordId, fetched, inserted, delay).writes ==
        if recordId.Some? && !s.onCall && s.status != SD.OnCall && s.statusId.Some?
        then s.writes + [w] + [CloseSegment(s.statusId.value, s.statusDuration)] + [OpenSegment(s.agent.value, SD.OnCall)]
        else s.writes + [w]
  {
    var t := s.(writes := s.writes + [InsertCall(s.agent.value, number, AL.Outbound, AL.Answered, 0)]);
    var u := if recordId.Some? then
        t.(callId := recordId, incomingNumber := number, onCall := true, callDuration := 0)
      else t;
    SettleShape(DepsOf(s), FetchLogs(u, fetched), inserted, delay);
  }

  /** Dialling out while a ring is pending keeps both the ring and the
      call, and the panel shows the call. */
  lemma DialWhileRinging(s: Session, number: string, id: string, fetched: Option<seq<AL.CallLog>>,
                         inserted: Option<string>, delay: Draw)
    requires Consistent(s) && s.agent.Some? && s.ringing
    ensures var r := Dial(s, number, Some(id), fetched, inserted, delay);
      r.ringing && r.onCall && Interactions(r) == ActiveCallPanel(number, 0)
  {
    DialEntersCallOnRecord(s, number, Some(id), fetched, inserted, delay);
  }

  /** Declining writes exactly one inbound declined record and withdraws the
      ring; the status, the call and its counter are left alone. */
  lemma DeclineRecordsOnce(s: Session, fetched: Option<seq<AL.CallLog>>, delay: Draw)
    requires Consistent(s) && s.agent.Some?
    ensures var r := Decline(s, fetched, delay);
      && r.writes == s.writes + [InsertCall(s.agent.value, s.incomingNumber, AL.Inbound, AL.Declined, 0)]
      && CallWrites(r.writes) == CallWrites(s.writes) + [InsertCall(s.agent.value, s.incomingNumber, AL.Inbound, AL.Declined, 0)]
      && SegmentWrites(r.writes) == SegmentWrites(s.writes)
      && !r.ringing && r.status == s.status && r.onCall == s.onCall && r.callDuration == s.callDuration
      && r.callId == s.callId
  {
    var w := InsertCall(s.agent.value, s.incomingNumber, AL.Inbound, AL.Declined, 0);
    var t := s.(writes := s.writes + [w], ringing := false);
    SettleShape(DepsOf(s), FetchLogs(t, fetched), None, delay);
    AppendWrite(s.writes, w);
  }

  /** Hanging up without a record id does nothing. With one, the call is
      cleared and, with an open segment, the status becomes "after call"
      whatever it was. */
  lemma EndCallEffects(s: Session, fetched: Option<seq<AL.CallLog>>, inserted: Option<string>, delay: Draw)
    requires Consistent(s)
    ensures s.agent.None? || s.callId.None? ==> End(s, fetched, inserted, delay) == s
    ensures var r := End(s, fetched, inserted, delay);
      s.agent.Some? && s.callId.Some? ==>
        && !r.onCall && r.callDuration == 0 && r.callId.None?
        && (s.statusId.Some? ==> r.status == SD.AfterCall)
        && (s.statusId.None? ==> r.status == s.status)
  {
    if s.agent.Some? && s.callId.Some? {
      var t := s.(writes := s.writes + [SetCallDuration(s.callId.value, s.callDuration)],
                  onCall := false, callDuration := 0, callId := None);
      ChangeStatusShape(t, SD.AfterCall, inserted);
      SettleShape(DepsOf(s), FetchLogs(ChangeStatus(t, SD.AfterCall, inserted), fetched), inserted, delay);
    }
  }

  /** Hanging up a recorded call writes its counted seconds to its record;
      with an open segment it closes that segment and opens an "after call"
      one. */
  lemma EndCallWrites(s: Session, fetched: Option<seq<AL.CallLog>>, inserted: Option<string>, delay: Draw)
    requires Consistent(s) && s.agent.Some? && s.callId.Some?
    ensures var r := End(s, fetched, inserted, delay);
      && CallWrites(r.writes) == CallWrites(s.writes) + [SetCallDuration(s.callId.value, s.callDuration)]
      && SegmentWrites(r.writes) == SegmentWrites(s.writes) +
           (if s.statusId.Some?
            then [CloseSegment(s.statusId.value, s.statusDuration)] + [OpenSegment(s.agent.value, SD.AfterCall)]
            else [])
  {
    var w := SetCallDuration(s.callId.value, s.callDuration);
    EndLog(s, fetched, inserted, delay);
    if s.statusId.Some? {
      ThenSegmentChange(s.writes, w, CloseSegment(s.statusId.value, s.statusDuration), OpenSegment(s.agent.value, SD.AfterCall));
    } else {
      AppendWrite(s.writes, w);
    }
  }

  /** The log a hang-up leaves, write by write. */
  lemma EndLog(s: Session, fetched: Option<seq<AL.CallLog>>, inserted: Option<string>, delay: Draw)
    requires s.agent.Some? && s.callId.Some?
    ensures var w := SetCallDuration(s.callId.value, s.callDuration);
      End(s, fetched, inserted, delay).writes ==
        if s.statusId.Some?
        then s.writes + [w] + [CloseSegment(s.statusId.value, s.statusDuration)] + [OpenSegment(s.agent.value, SD.AfterCall)]
        else s.writes + [w]
  {
    var t := s.(writes := s.writes + [SetCallDuration(s.callId.value, s.callDuration)],
                onCall := false, callDuration := 0, callId := None);
    ChangeStatusShape(t, SD.AfterCall, inserted);
    SettleShape(DepsOf(s), FetchLogs(ChangeStatus(t, SD.AfterCall, inserted), fetched), inserted, delay);
  }

  /** A call answered when the record insert failed has no id, so hanging
      up cannot end it: the call keeps running. */
  lemma UnrecordedCallCannotEnd(s: Session, fetched: Option<seq<AL.CallLog>>, inserted: Option<string>, delay: Draw,
                                fetched': Option<seq<AL.CallLog>>, inserted': Option<string>, delay': Draw)
    requires Consistent(s) && s.agent.Some? && !s.onCall && s.callId.None?
    ensures var r := Answer(s, None, fetched, inserted, delay);
      r.onCall && End(r, fetched', inserted', delay') == r
  {
    AnswerEntersCall(s, None, fetched, inserted, delay);
  }

  /** Sign-in resumes a segment left open, counting the whole seconds since
      it started; with none it opens an "available" segment and leaves the
      status as it was. A fetched call list replaces the old one. */
  lemma StartResumesSegment(s: Session, existing: Option<OpenSegmentRow>, now: int, inserted: Option<string>,
                            fetched: Option<seq<AL.CallLog>>, delay: Draw)
    requires s.agent.Some?
    ensures var r := Start(s, existing, now, inserted, fetched, delay);
      && (existing.Some? ==>
            && r.status == existing.value.status && r.statusId == Some(existing.value.id)
            && r.statusDuration * 1000 <= now - existing.value.startedAt < r.statusDuration * 1000 + 1000
            && r.writes == s.writes)
      && (existing.None? ==>
            && r.status == s.status
            && r.writes == s.writes + [OpenSegment(s.agent.value, SD.Available)]
            && (inserted.Some? ==> r.statusId == inserted && r.statusDuration == 0))
      && (fetched.Some? ==> r.callLogs == fetched.value)
  {
    var t := if existing.Some? then
        s.(status := existing.value.status, statusId := Some(existing.value.id),
           statusDuration := (now - existing.value.startedAt) / 1000)
      else OpenStatus(s, SD.Available, inserted);
    SettleShape(DepsOf(s), FetchLogs(t, fetched), inserted, delay);
  }

  // ---------------------------------------------------------------------------
  // The dashboard component

  /** The dashboard's state as the component holds it, one field per piece
      of state, and its handlers, each proved to do what the event of the
      same name does to the session. */
  class EmployeeDashboard {
    var user: Option<string>
    var currentStatus: SD.StatusType
    var statusDuration: int
    var currentStatusId: Option<string>
    var hasIncomingCall: bool
    var incomingNumber: string
    var callLogs: seq<AL.CallLog>
    var isOnCall: bool
    var callDuration: int
    var currentCallId: Option<string>
    var incomingCallTimer: Option<int>
    ghost var writes: seq<StoreWrite>

    ghost function State(): Session
      reads this
    {
      Session(user, currentStatus, statusDuration, currentStatusId, hasIncomingCall, incomingNumber,
              callLogs, isOnCall, callDuration, currentCallId, incomingCallTimer, writes)
    }

    ghost predicate Valid()
      reads this
    {
      Consistent(State())
    }

    /** The first render: available, idle, and a ring scheduled at once. */
    constructor (user: Option<string>, delay: Draw)
      ensures State() == Initial(user, delay) && Valid()
    {
      this.user := user;
      currentStatus, statusDuration, currentStatusId := SD.Available, 0, None;
      hasIncomingCall, incomingNumber, callLogs := false, [], [];
      isOnCall, callDuration, currentCallId := false, 0, None;
      incomingCallTimer := Some(IncomingDelay(delay));
      writes := [];
    }

    method CreateNewStatus(status: SD.StatusType, inserted: Option<string>)
      modifies this
      ensures State() == OpenStatus(old(State()), status, inserted)
    {
      if user.None? {
        return;
      }
      writes := writes + [OpenSegment(user.value, status)];
      if inserted.Some? {
        currentStatusId := inserted;
        statusDuration := 0;
      }
    }

    method HandleStatusChange(newStatus: SD.StatusType, inserted: Option<string>)
      modifies this
      ensures State() == ChangeStatus(old(State()), newStatus, inserted)
    {
      if user.None? || currentStatusId.None? {
        return;
      }
      writes := writes + [CloseSegment(currentStatusId.value, statusDuration)];
      currentStatus := newStatus;
      CreateNewStatus(newStatus, inserted);
    }

    method FetchCallLogs(fetched: Option<seq<AL.CallLog>>)
      modifies this
      ensures State() == FetchLogs(old(State()), fetched)
    {
      if user.None? {
        return;
      }
      if fetched.Some? {
        callLogs := fetched.value;
      }
    }

    /** The three reactions, in the order their effects settle. */
    method RunEffects(before: Deps, inserted: Option<string>, delay: Draw)
      modifies this
      ensures State() == Settle(before, old(State()), inserted, delay)
    {
      if currentStatus == SD.GoneHome && hasIncomingCall {
        hasIncomingCall := false;
      }
      if isOnCall && !before.onCall && currentStatus != SD.OnCall {
        HandleStatusChange(SD.OnCall, inserted);
      }
      if Deps(currentStatus, hasIncomingCall, isOnCall) != before {
        if currentStatus == SD.Available && !hasIncomingCall && !isOnCall {
          incomingCallTimer := Some(IncomingDelay(delay));
        } else {
          incomingCallTimer := None;
        }
      }
    }

    /** Sign-in: resume or open a status segment, then fetch the calls. */
    method InitializeStatus(existing: Option<OpenSegmentRow>, now: int, inserted: Option<string>,
                            fetched: Option<seq<AL.CallLog>>, delay: Draw)
      requires Valid()
      modifies this
      ensures State() == Start(old(State()), existing, now, inserted, fetched, delay) && Valid()
    {
      if user.None? {
        return;
      }
      var before := Deps(currentStatus, hasIncomingCall, isOnCall);
      if existing.Some? {
        currentStatus := existing.value.status;
        currentStatusId := Some(existing.value.id);
        statusDuration := (now - existing.value.startedAt) / 1000;
      } else {
        CreateNewStatus(SD.Available, inserted);
      }
      FetchCallLogs(fetched);
      RunEffects(before, inserted, delay);
      StartConsistent(old(State()), existing, now, inserted, fetched, delay);
    }

    /** A status picked from the dropdown. */
    method ChooseStatus(newStatus: SD.StatusType, inserted: Option<string>, delay: Draw)
      requires Valid()
      modifies this
      ensures State() == SelectStatus(old(State()), newStatus, inserted, delay) && Valid()
    {
      var before := Deps(currentStatus, hasIncomingCall, isOnCall);
      HandleStatusChange(newStatus, inserted);
      RunEffects(before, inserted, delay);
      StepConsistent(old(State()), PickStatus(newStatus, inserted, delay));
    }

    /** One second of the status counter. */
    method StatusTick()
      requires Valid()
      modifies this
      ensures State() == TickStatus(old(State())) && Valid()
    {
      statusDuration := statusDuration + 1;
    }

    /** One second of the call counter, which runs only during a call. */
    method CallTick()
      requires Valid()
      modifies this
      ensures State() == TickCall(old(State())) && Valid()
    {
      if isOnCall {
        callDuration := callDuration + 1;
      }
    }

    /** The pending ring fires. */
    method ScheduleIncomingCall(area: Draw, exchange: Draw, line: Draw)
      requires Valid() && incomingCallTimer.Some?
      modifies this
      ensures State() == Ring(old(State()), area, exchange, line) && Valid()
    {
      var before := Deps(currentStatus, hasIncomingCall, isOnCall);
      incomingNumber := GenerateUSAPhoneNumber(area, exchange, line);
      hasIncomingCall := true;
      incomingCallTimer := None;
      RunEffects(before, None, 0.0);
      StepConsistent(old(State()), RingFires(area, exchange, line));
    }

    method HandleAnswerCall(recordId: Option<string>, fetched: Option<seq<AL.CallLog>>,
                            inserted: Option<string>, delay: Draw)
      requires Valid()
      modifies this
      ensures State() == Answer(old(State()), recordId, fetched, inserted, delay) && Valid()
    {
      if user.None? {
        return;
      }
      var before := Deps(currentStatus, hasIncomingCall, isOnCall);
      writes := writes + [InsertCall(user.value, incomingNumber, AL.Inbound, AL.Answered, 0)];
      if recordId.Some? {
        currentCallId := recordId;
      }
      hasIncomingCall := false;
      isOnCall := true;
      callDuration := 0;
      FetchCallLogs(fetched);
      RunEffects(before, inserted, delay);
      AnswerConsistent(old(State()), recordId, fetched, inserted, delay);
    }

    method HandleDeclineCall(fetched: Option<seq<AL.CallLog>>, delay: Draw)
      requires Valid()
      modifies this
      ensures State() == Decline(old(State()), fetched, delay) && Valid()
    {
      if user.None? {
        return;
      }
      var before := Deps(currentStatus, hasIncomingCall, isOnCall);
      writes := writes + [InsertCall(user.value, incomingNumber, AL.Inbound, AL.Declined, 0)];
      hasIncomingCall := false;
      FetchCallLogs(fetched);
      RunEffects(before, None, delay);
      DeclineConsistent(old(State()), fetched, delay);
    }

    method HandleEndCall(fetched: Option<seq<AL.CallLog>>, inserted: Option<string>, delay: Draw)
      requires Valid()
      modifies this
      ensures State() == End(old(State()), fetched, inserted, delay) && Valid()
    {
      if user.None? || currentCallId.None? {
        return;
      }
      ghost var s0 := State();
      var before := Deps(currentStatus, hasIncomingCall, isOnCall);
      writes := writes + [SetCallDuration(currentCallId.value, callDuration)];
      isOnCall := false;
      callDuration := 0;
      currentCallId := None;
      ghost var t := State();
      assert t == s0.(writes := s0.writes + [SetCallDuration(s0.callId.value, s0.callDuration)],
                      onCall := false, callDuration := 0, callId := None);
      HandleStatusChange(SD.AfterCall, inserted);
      FetchCallLogs(fetched);
      ghost var u := State();
      assert u == FetchLogs(ChangeStatus(t, SD.AfterCall, inserted), fetched);
      RunEffects(before, inserted, delay);
      assert End(s0, fetched, inserted, delay) == Settle(before, u, inserted, delay);
      EndConsistent(s0, fetched, inserted, delay);
    }

    method HandleOutboundCall(number: string, recordId: Option<string>, fetched: Option<seq<AL.CallLog>>,
                              inserted: Option<string>, delay: Draw)
      requires Valid()
      modifies this
      ensures State() == Dial(old(State()), number, recordId, fetched, inserted, delay) && Valid()
    {
      if user.None? {
        return;
      }
      var before := Deps(currentStatus, hasIncomingCall, isOnCall);
      writes := writes + [InsertCall(user.value, number, AL.Outbound, AL.Answered, 0)];
      if recordId.Some? {
        currentCallId := recordId;
        incomingNumber := number;
        isOnCall := true;
        callDuration := 0;
      }
      FetchCallLogs(fetched);
      RunEffects(before, inserted, delay);
      DialConsistent(old(State()), number, recordId, fetched, inserted, delay);
    }
  }
}

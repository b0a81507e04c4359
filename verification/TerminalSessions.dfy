/** When an ONLINE terminal has a live session behind it. */
module TerminalSessions {
  import opened Basics
  import opened TerminalGates
  import opened TerminalSafety

  // --- One session ---

  /** A step ends a session: its own logout, or a login of its agent that takes effect. */
  predicate Ends(s: State, e: Event, sid: SessionId)
    requires sid in s.sessions
  {
    match e
    case LogoutEvent(x, _) => x == sid
    case LoginEvent(x, agent, at, _) => x !in s.sessions && at in s.terminals && agent == s.sessions[sid].agent
    case _ => false
  }

  predicate NothingEnds(s: State, events: seq<Event>, sid: SessionId)
    requires sid in s.sessions
    decreases |events|
  {
    events == [] ||
    (!Ends(s, events[0], sid)
     && (SessionStep(s, events[0], sid); NothingEnds(Apply(s, events[0]), events[1..], sid)))
  }

  lemma SessionStep(s: State, e: Event, sid: SessionId)
    requires sid in s.sessions
    ensures var t := Apply(s, e);
      sid in t.sessions && t.sessions[sid] == s.sessions[sid].(ended := s.sessions[sid].ended || Ends(s, e, sid))
  {}

  lemma {:induction false} EndedStays(s: State, events: seq<Event>, sid: SessionId)
    requires sid in s.sessions && s.sessions[sid].ended
    ensures sid in Run(s, events).sessions && Run(s, events).sessions[sid].ended
    decreases |events|
  {
    hide Apply;
    if events != [] {
      SessionStep(s, events[0], sid);
      EndedStays(Apply(s, events[0]), events[1..], sid);
    }
  }

  /** A live session is live after a run exactly when it has not expired and neither its logout
      nor another login of its agent is part of the run. */
  lemma {:induction false} LiveExactly(s: State, events: seq<Event>, sid: SessionId)
    requires sid in s.sessions && !s.sessions[sid].ended
    ensures Live(Run(s, events), sid) <==>
            NothingEnds(s, events, sid) && Run(s, events).now < s.sessions[sid].expiresAt
    decreases |events|
  {
    hide Apply, Ends;
    if events != [] {
      SessionStep(s, events[0], sid);
      if Ends(s, events[0], sid) {
        EndedStays(Apply(s, events[0]), events[1..], sid);
      } else {
        LiveExactly(Apply(s, events[0]), events[1..], sid);
      }
    }
  }

  /** An ONLINE terminal's session, once live, is live exactly when it has not expired, was not
      logged out, and its agent has not logged in elsewhere since. */
  lemma OnlineSessionLivesExactly(now: int, before: seq<Event>, sid: SessionId, after: seq<Event>, x: TerminalId)
    requires var s := Run(Initial(now), before);
      Live(s, sid) && var t := Run(s, after);
      x in t.terminals && t.terminals[x].status == Online && x in t.last && t.last[x].Activated?
      && t.last[x].clearance.session == sid
    ensures var s := Run(Initial(now), before);
      var t := Run(s, after);
      && t.terminals[x].agent == Some(s.sessions[sid].agent) && s.sessions[sid].terminal == x
      && (Live(t, sid) <==> NothingEnds(s, after, sid) && t.now < s.sessions[sid].expiresAt)
  {
    hide Run, Initial;
    assert Inv(Initial(now)) by { StartsEmpty(now); }
    RunKeepsInv(Initial(now), before);
    var s := Run(Initial(now), before);
    RunKeepsInv(s, after);
    LiveExactly(s, after, sid);
    assert TerminalOk(Run(s, after), x);
    SessionsKeepTheirAgent(s, after, sid);
  }

  lemma StartsEmpty(now: int)
    ensures Inv(Initial(now))
  {}

  lemma {:induction false} SessionsKeepTheirAgent(s: State, events: seq<Event>, sid: SessionId)
    requires sid in s.sessions
    ensures var t := Run(s, events);
      && sid in t.sessions && t.sessions[sid].agent == s.sessions[sid].agent
      && t.sessions[sid].terminal == s.sessions[sid].terminal
    decreases |events|
  {
    hide Apply, Ends;
    if events != [] {
      SessionStep(s, events[0], sid);
      SessionsKeepTheirAgent(Apply(s, events[0]), events[1..], sid);
    }
  }

  // --- One terminal ---

  predicate IsOnline(s: State, x: TerminalId) { x in s.terminals && s.terminals[x].status == Online }

  /** If the terminal is ONLINE, the session that activated it is live. */
  predicate Manned(s: State, x: TerminalId) {
    IsOnline(s, x) ==> x in s.last && s.last[x].Activated? && Live(s, s.last[x].clearance.session)
  }

  predicate Writes(s: State, c: Clearance) {
    c in s.clearances && c.terminal in s.terminals && !Busy(s, c.agent, c.terminal)
  }

  /** No login of the agent of an ONLINE terminal, no logout of its session whose terminal write
      fails, no expiry, and no activation written for a session that is over. */
  predicate KeepsManned(s: State, e: Event, x: TerminalId)
    requires Inv(s)
  {
    if e.ActivateEvent? && e.clearance.terminal == x && Writes(s, e.clearance) then Live(s, e.clearance.session)
    else if !IsOnline(s, x) then true
    else
      assert TerminalOk(s, x);
      var sid := s.last[x].clearance.session;
      match e
      case LoginEvent(_, _, _, _) => !Ends(s, e, sid)
      case LogoutEvent(y, write) => y == sid ==> write
      case Tick(now) => now < s.sessions[sid].expiresAt
      case _ => true
  }

  /** A step keeps a terminal manned if and only if it is none of these. */
  lemma MannedStep(s: State, e: Event, x: TerminalId)
    requires Inv(s) && Manned(s, x)
    ensures Manned(Apply(s, e), x) <==> KeepsManned(s, e, x)
  {
    if IsOnline(s, x) {
      assert TerminalOk(s, x);
      SessionStep(s, e, s.last[x].clearance.session);
    }
    if e.ActivateEvent? && e.clearance in s.clearances {
      assert ClearanceOk(s, e.clearance);
    }
  }

  ghost predicate AlwaysManned(s: State, events: seq<Event>, x: TerminalId)
    decreases |events|
  {
    Manned(s, x) && (events == [] || AlwaysManned(Apply(s, events[0]), events[1..], x))
  }

  ghost predicate MannedRun(s: State, events: seq<Event>, x: TerminalId)
    requires Inv(s)
    decreases |events|
  {
    if events == [] then true
    else StepKeepsInv(s, events[0]); KeepsManned(s, events[0], x) && MannedRun(Apply(s, events[0]), events[1..], x)
  }

  /** Throughout a run ONLINE means a live session if and only if every step is of this kind. */
  lemma {:induction false} OnlineIsLiveExactly(s: State, events: seq<Event>, x: TerminalId)
    requires Inv(s) && Manned(s, x)
    ensures AlwaysManned(s, events, x) <==> MannedRun(s, events, x)
    decreases |events|
  {
    hide Inv, Apply, Manned, KeepsManned;
    if events != [] {
      StepKeepsInv(s, events[0]);
      MannedStep(s, events[0], x);
      if KeepsManned(s, events[0], x) {
        OnlineIsLiveExactly(Apply(s, events[0]), events[1..], x);
      }
    }
  }

  // --- A run in which it does not ---

  lemma {:induction false} RunAppend(s: State, first: seq<Event>, rest: seq<Event>)
    ensures Run(s, first + rest) == Run(Run(s, first), rest)
    decreases |first|
  {
    hide Apply;
    if first == [] {
      assert first + rest == rest;
    } else {
      assert (first + rest)[1..] == first[1..] + rest;
      RunAppend(Apply(s, first[0]), first[1..], rest);
    }
  }

  lemma RunThree(s: State, a: Event, b: Event, c: Event)
    ensures Run(s, [a, b, c]) == Apply(Apply(Apply(s, a), b), c)
  {
    hide Apply;
    RunAppend(s, [a], [b, c]);
    RunAppend(Apply(s, a), [b], [c]);
    assert [a] + [b, c] == [a, b, c] && [b] + [c] == [b, c];
  }

  function Cleared(now: int, sid: SessionId, a: Agent, x: TerminalId): Clearance {
    Clearance(sid, a, x, now, map[SupervisorAuth := now, DeviceHealth := now, PiiAck := now])
  }

  /** An agent logs in, passes the gates and activates the terminal, and later logs in at another. */
  function MovesOn(now: int, x: TerminalId, y: TerminalId, a: Agent, first: SessionId, second: SessionId, end: int)
    : seq<Event>
  {
    [RegisterEvent(x), RegisterEvent(y), LoginEvent(first, a, x, end)]
    + [GateEvent(first, SupervisorAuth), GateEvent(first, DeviceHealth), GateEvent(first, PiiAck)]
    + [CheckEvent(first), ActivateEvent(Cleared(now, first, a, x)), LoginEvent(second, a, y, end)]
  }

  lemma Entering(now: int, x: TerminalId, y: TerminalId, a: Agent, first: SessionId, end: int)
    requires x != y
    ensures var s := Run(Initial(now), [RegisterEvent(x), RegisterEvent(y), LoginEvent(first, a, x, end)]);
      && s.now == now && s.terminals == map[x := Terminal(Registered, None), y := Terminal(Registered, None)]
      && s.sessions == map[first := AgentSession(a, x, false, end)] && s.clearances == {}
  {
    RunThree(Initial(now), RegisterEvent(x), RegisterEvent(y), LoginEvent(first, a, x, end));
    hide Run;
  }

  lemma GateRecorded(s: State, sid: SessionId, g: Gate)
    requires Live(s, sid)
    ensures var t := Apply(s, GateEvent(sid, g));
      t == s.(gates := s.gates[(sid, g) := GateRecord(g, s.now, s.now + GATE_TTL)], deciding := t.deciding)
  {
    hide CanActivate;
  }

  lemma Passing(s: State, sid: SessionId)
    requires Live(s, sid)
    ensures var t := Run(s, [GateEvent(sid, SupervisorAuth), GateEvent(sid, DeviceHealth), GateEvent(sid, PiiAck)]);
      && t == s.(gates := t.gates, deciding := t.deciding)
      && forall g: Gate :: (sid, g) in t.gates && t.gates[(sid, g)] == GateRecord(g, s.now, s.now + GATE_TTL)
  {
    hide Apply;
    RunThree(s, GateEvent(sid, SupervisorAuth), GateEvent(sid, DeviceHealth), GateEvent(sid, PiiAck));
    GateRecorded(s, sid, SupervisorAuth);
    var t := Apply(s, GateEvent(sid, SupervisorAuth));
    GateRecorded(t, sid, DeviceHealth);
    GateRecorded(Apply(t, GateEvent(sid, DeviceHealth)), sid, PiiAck);
    var u := Apply(Apply(t, GateEvent(sid, DeviceHealth)), GateEvent(sid, PiiAck));
    hide Run, Live;
    forall g: Gate ensures (sid, g) in u.gates && u.gates[(sid, g)] == GateRecord(g, s.now, s.now + GATE_TTL) {
      match g
      case SupervisorAuth =>
      case DeviceHealth =>
      case PiiAck =>
    }
  }

  lemma AllPassed(s: State, sid: SessionId)
    requires forall g: Gate :: (sid, g) in s.gates && s.gates[(sid, g)] == GateRecord(g, s.now, s.now + GATE_TTL)
    ensures PassedTimes(s, sid) == map[SupervisorAuth := s.now, DeviceHealth := s.now, PiiAck := s.now]
  {
    var all := map[SupervisorAuth := s.now, DeviceHealth := s.now, PiiAck := s.now];
    forall g: Gate ensures g in all && all[g] == s.now {
      match g
      case SupervisorAuth =>
      case DeviceHealth =>
      case PiiAck =>
    }
  }

  lemma Checking(s: State, sid: SessionId)
    requires Live(s, sid) && s.sessions[sid].terminal in s.terminals
    requires forall g: Gate :: (sid, g) in s.gates && s.gates[(sid, g)] == GateRecord(g, s.now, s.now + GATE_TTL)
    ensures Apply(s, CheckEvent(sid)) ==
            s.(clearances := s.clearances + {Cleared(s.now, sid, s.sessions[sid].agent, s.sessions[sid].terminal)})
  {
    hide PassedTimes;
    AllPassed(s, sid);
  }

  /** A login elsewhere ends the session and does not withdraw its terminal. */
  lemma SupersededStaysOnline(now: int, x: TerminalId, y: TerminalId, a: Agent, first: SessionId, second: SessionId,
                              end: int)
    requires x != y && first != second && now < end
    ensures var t := Run(Initial(now), MovesOn(now, x, y, a, first, second, end));
      AssertOnline(t, x, a) && first in t.sessions && t.sessions[first].ended && !Manned(t, x)
  {
    hide Run, RecordGate, CheckActivation, Register, Deactivate, Logout, WritePromotion;
    var enter := [RegisterEvent(x), RegisterEvent(y), LoginEvent(first, a, x, end)];
    var pass := [GateEvent(first, SupervisorAuth), GateEvent(first, DeviceHealth), GateEvent(first, PiiAck)];
    var c := Cleared(now, first, a, x);
    RunAppend(Initial(now), enter + pass, [CheckEvent(first), ActivateEvent(c), LoginEvent(second, a, y, end)]);
    RunAppend(Initial(now), enter, pass);
    Entering(now, x, y, a, first, end);
    Passing(Run(Initial(now), enter), first);
    var s := Run(Initial(now), enter + pass);
    RunThree(s, CheckEvent(first), ActivateEvent(c), LoginEvent(second, a, y, end));
    Checking(s, first);
  }
}

/** The terminal calls over mutable stores, each run from its check to its write. */
module TerminalService {
  import opened Basics
  import opened TerminalGates
  import opened TerminalSafety

  datatype Answer = Ok | NotReady(pending: seq<Gate>) | NotFound | AgentBusy | SessionInvalid

  class Service {
    var now: int
    var terminals: map<TerminalId, Terminal>
    var sessions: map<SessionId, AgentSession>
    var gates: map<(SessionId, Gate), GateRecord>
    ghost var last: map<TerminalId, Transition>

    constructor (now: int)
      ensures View() == Initial(now)
    {
      this.now, terminals, sessions, gates, last := now, map[], map[], map[], map[];
    }

    /** Between calls nothing is checked or decided and still to be written. */
    ghost function View(): State
      reads this
    {
      State(now, terminals, sessions, gates, {}, {}, {}, last)
    }

    method ListGates(sid: SessionId) returns (rows: seq<GateRecord>)
      requires Inv(View())
      ensures RowsOf(View(), sid, rows)
    {
      rows := [];
      for i := 0 to |ALL_GATES|
        invariant forall k :: 0 <= k < |rows| ==> (sid, rows[k].gate) in gates && gates[(sid, rows[k].gate)] == rows[k]
        invariant forall j :: 0 <= j < i && (sid, ALL_GATES[j]) in gates ==>
          exists k :: 0 <= k < |rows| && rows[k].gate == ALL_GATES[j]
      {
        var g := ALL_GATES[i];
        if (sid, g) in gates {
          assert GateOk(View(), (sid, g));
          ghost var before := rows;
          rows := rows + [gates[(sid, g)]];
          assert rows[|before|].gate == g;
          forall j | 0 <= j < i && (sid, ALL_GATES[j]) in gates
            ensures exists k :: 0 <= k < |rows| && rows[k].gate == ALL_GATES[j]
          {
            var k :| 0 <= k < |before| && before[k].gate == ALL_GATES[j];
            assert rows[k].gate == ALL_GATES[j];
          }
        }
      }
      forall g: Gate | (sid, g) in gates ensures exists k :: 0 <= k < |rows| && rows[k].gate == g {
        assert g == ALL_GATES[if g == SupervisorAuth then 0 else if g == DeviceHealth then 1 else 2];
      }
    }

    method SetStatus(x: TerminalId, status: Status, ghost decision: Clearance)
      requires x in terminals && status == Ready
      modifies this`terminals, this`last
      ensures terminals == old(terminals)[x := old(terminals)[x].(status := status)]
      ensures last == old(last)[x := Promoted(decision)]
    {
      terminals := terminals[x := terminals[x].(status := status)];
      last := last[x := Promoted(decision)];
    }

    /** One of the three gate recorders: the row is replaced, then the terminal is promoted if
        all gates are passed, never to ONLINE. */
    method RecordGate(sid: SessionId, g: Gate) returns (answer: Answer)
      requires Inv(View())
      modifies this`gates, this`terminals, this`last
      ensures Inv(View())
      ensures Live(old(View()), sid) ==>
                var t := TerminalGates.RecordGate(old(View()), sid, g);
                View() == WritePromotion(DecidePromotion(t, sid), Seen(t, sid))
      ensures Live(old(View()), sid) && sessions[sid].terminal in terminals ==>
                var x := sessions[sid].terminal;
                (terminals[x].status == Ready <==>
                 || old(terminals)[x].status == Ready
                 || (old(terminals)[x].status != Online && forall h: Gate :: h == g || GatePassed(old(View()), sid, h)))
      ensures answer == Ok <==> Live(old(View()), sid) && sessions[sid].terminal in terminals
      ensures answer == SessionInvalid <==> !Live(old(View()), sid)
      ensures answer == SessionInvalid ==> View() == old(View())
      ensures forall x, agent :: AssertOnline(View(), x, agent) ==> AssertOnline(old(View()), x, agent)
    {
      hide Inv, GatePassed, PassedTimes, CanActivate, DecidePromotion, WritePromotion;
      if sid !in sessions || sessions[sid].ended || sessions[sid].expiresAt <= now {
        return SessionInvalid;
      }
      ghost var s := View();
      ghost var t := TerminalGates.RecordGate(s, sid, g);
      if sessions[sid].terminal in terminals {
        ReadyExactly(s, sid, g);
      }
      InOnePiece(s, sid, g);
      gates := gates[(sid, g) := GateRecord(g, now, now + GATE_TTL)];
      RecordedIsFine(s, sid, g, View());
      var x := sessions[sid].terminal;
      if x !in terminals {
        return NotFound;
      }
      var rows := ListGates(sid);
      var states, ready := Readiness(View(), sid, rows, now);
      SameGates(View(), t, sid);
      if ready && terminals[x].status != Online && terminals[x].status != Ready {
        SetStatus(x, Ready, Seen(t, sid));
      }
      return Ok;
    }

    method Activate(sid: SessionId) returns (answer: Answer)
      requires Inv(View())
      modifies this`terminals, this`last
      ensures Inv(View())
      ensures answer.Ok? ==> sid in sessions && AssertOnline(View(), sessions[sid].terminal, sessions[sid].agent)
      ensures answer.Ok? <==>
              Live(old(View()), sid) && sessions[sid].terminal in old(terminals) && CanActivate(old(View()), sid)
              && !Busy(old(View()), sessions[sid].agent, sessions[sid].terminal)
      ensures !answer.Ok? ==> View() == old(View())
      ensures answer == SessionInvalid <==> !Live(old(View()), sid)
      ensures answer == NotFound <==> Live(old(View()), sid) && sessions[sid].terminal !in old(terminals)
      ensures answer.NotReady? <==>
              Live(old(View()), sid) && sessions[sid].terminal in old(terminals) && !CanActivate(old(View()), sid)
      ensures answer.NotReady? ==>
                answer.pending != [] && forall g :: g in answer.pending <==> !GatePassed(View(), sid, g)
    {
      if sid !in sessions || sessions[sid].ended || sessions[sid].expiresAt <= now {
        return SessionInvalid;
      }
      var x := sessions[sid].terminal;
      if x !in terminals {
        return NotFound;
      }
      ghost var s := View();
      var rows := ListGates(sid);
      var states, ready := Readiness(View(), sid, rows, now);
      if !ready {
        var pending := Pending(s, sid, states);
        return NotReady(pending);
      }
      var agent := sessions[sid].agent;
      if exists y :: y in terminals && y != x && terminals[y] == Terminal(Online, Some(agent)) {
        return AgentBusy;
      }
      ghost var c := ClearedActivation(s, sid);
      terminals := terminals[x := Terminal(Online, Some(agent))];
      last := last[x := Activated(c)];
      return Ok;
    }

    method Pending(ghost s: State, ghost sid: SessionId, states: seq<GateState>) returns (pending: seq<Gate>)
      requires |states| == |ALL_GATES| && !CanActivate(s, sid)
      requires forall i :: 0 <= i < |ALL_GATES| ==>
                 states[i].gate == ALL_GATES[i] && (states[i].passed <==> GatePassed(s, sid, ALL_GATES[i]))
      ensures pending != [] && forall g :: g in pending <==> !GatePassed(s, sid, g)
    {
      pending := [];
      for i := 0 to |states|
        invariant forall g :: g in pending <==> exists k :: 0 <= k < i && states[k].gate == g && !states[k].passed
      {
        if !states[i].passed {
          pending := pending + [states[i].gate];
        }
      }
      forall g ensures g in pending <==> !GatePassed(s, sid, g) {
        var k := if g == SupervisorAuth then 0 else if g == DeviceHealth then 1 else 2;
        assert ALL_GATES[k] == g && states[k].gate == g;
      }
    }

    method Deactivate(x: TerminalId) returns (changed: bool)
      requires Inv(View())
      modifies this`terminals, this`last
      ensures Inv(View()) && View() == TerminalGates.Deactivate(old(View()), x)
      ensures forall agent :: !AssertOnline(View(), x, agent)
    {
      TerminalStep(View(), DeactivateEvent(x));
      if x !in terminals || terminals[x].status == Offline {
        return false;
      }
      terminals := terminals[x := Terminal(Offline, None)];
      last := last[x := Deactivated];
      return true;
    }

    method Logout(sid: SessionId, write: bool) returns (ended: bool)
      requires Inv(View())
      modifies this`sessions, this`terminals, this`last
      ensures Inv(View()) && View() == TerminalGates.Logout(old(View()), sid, write)
      ensures ended <==> sid in old(sessions) && !old(sessions)[sid].ended
    {
      LogoutStep(View(), sid, write);
      if sid !in sessions || sessions[sid].ended {
        return false;
      }
      ghost var s := View();
      sessions := sessions[sid := sessions[sid].(ended := true)];
      assert Inv(View()) by {
        LogoutStep(s, sid, false);
      }
      if write {
        var changed := Deactivate(sessions[sid].terminal);
      }
      return true;
    }

    method AssertAgentOnline(x: TerminalId, agent: Agent) returns (answer: Answer)
      ensures answer.Ok? <==> AssertOnline(View(), x, agent)
    {
      if x !in terminals {
        return NotFound;
      }
      if terminals[x].status != Online || terminals[x].agent != Some(agent) {
        return NotReady([]);
      }
      return Ok;
    }
  }

  /** A check and its write, with nobody between them. */
  lemma ClearedActivation(s: State, sid: SessionId) returns (c: Clearance)
    requires Inv(s) && Live(s, sid) && s.sessions[sid].terminal in s.terminals && CanActivate(s, sid)
    requires s.clearances == {} && !Busy(s, s.sessions[sid].agent, s.sessions[sid].terminal)
    ensures var x, agent := s.sessions[sid].terminal, s.sessions[sid].agent;
      var t := s.(terminals := s.terminals[x := Terminal(Online, Some(agent))], last := s.last[x := Activated(c)]);
      t == WriteActivation(CheckActivation(s, sid), c) && Inv(t)
  {
    var t := CheckActivation(s, sid);
    c :| c in t.clearances;
    assert WriteActivation(t, c).clearances == {};
    hide Inv;
    StepKeepsInv(s, CheckEvent(sid));
    StepKeepsInv(t, ActivateEvent(c));
  }

  lemma SameGates(s: State, t: State, sid: SessionId)
    requires s.gates == t.gates && s.now == t.now
    ensures CanActivate(s, sid) == CanActivate(t, sid)
  {}

  /** A gate, its decision and the promotion, with nobody between them. */
  lemma InOnePiece(s: State, sid: SessionId, g: Gate)
    requires Inv(s) && Live(s, sid) && s.deciding == {} && s.promotions == {}
    ensures var t := TerminalGates.RecordGate(s, sid, g);
      var u := WritePromotion(DecidePromotion(t, sid), Seen(t, sid));
      var x := s.sessions[sid].terminal;
      && Inv(u)
      && u == if x in s.terminals && CanActivate(t, sid) && s.terminals[x].status != Online
                 && s.terminals[x].status != Ready
              then t.(deciding := {}, terminals := s.terminals[x := s.terminals[x].(status := Ready)],
                      last := s.last[x := Promoted(Seen(t, sid))])
              else t.(deciding := {})
  {
    var t := TerminalGates.RecordGate(s, sid, g);
    assert WritePromotion(DecidePromotion(t, sid), Seen(t, sid)).promotions == {};
    hide Inv, CanActivate, PassedTimes;
    StepKeepsInv(s, GateEvent(sid, g));
    StepKeepsInv(t, DecideEvent(sid));
    StepKeepsInv(DecidePromotion(t, sid), PromoteEvent(Seen(t, sid)));
  }

  lemma RecordedIsFine(s: State, sid: SessionId, g: Gate, t: State)
    requires Inv(s) && Live(s, sid)
    requires t == s.(gates := s.gates[(sid, g) := GateRecord(g, s.now, s.now + GATE_TTL)])
    ensures Inv(t)
  {
    forall k | k in t.gates ensures GateOk(t, k) {
      assert k in s.gates ==> GateOk(s, k);
    }
    forall c | c in t.clearances + t.promotions ensures ClearanceOk(t, c) {
      assert ClearanceOk(s, c);
    }
    SameTerminals(s, t);
  }
}

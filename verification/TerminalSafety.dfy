/** What every run of the terminal machine keeps, and what being ONLINE tells about the past. */
module TerminalSafety {
  import opened Basics
  import opened TerminalGates

  // --- What every run keeps ---

  predicate GateOk(s: State, k: (SessionId, Gate))
    requires k in s.gates
  {
    var r := s.gates[k];
    r.gate == k.1 && r.expiresAt == r.passedAt + GATE_TTL && r.passedAt <= s.now
  }

  /** All three gates of the session, each passed within the eight hours before the check. */
  predicate ClearanceOk(s: State, c: Clearance) {
    && c.session in s.sessions && s.sessions[c.session].agent == c.agent && s.sessions[c.session].terminal == c.terminal
    && c.at <= s.now
    && forall g: Gate :: g in c.passed && c.passed[g] <= c.at < c.passed[g] + GATE_TTL
  }

  predicate TerminalOk(s: State, x: TerminalId)
    requires x in s.terminals
  {
    && x in s.last
    && (s.terminals[x].status == Ready ==> s.last[x].Promoted?)
    && (s.last[x].Promoted? ==> s.last[x].decision.terminal == x && ClearanceOk(s, s.last[x].decision))
    && (s.terminals[x].status == Online ==>
          && s.last[x].Activated? && s.last[x].clearance.terminal == x
          && s.terminals[x].agent == Some(s.last[x].clearance.agent) && ClearanceOk(s, s.last[x].clearance))
  }

  predicate Exclusive(s: State, x: TerminalId, y: TerminalId)
    requires x in s.terminals && y in s.terminals
  {
    x != y && s.terminals[x].status == Online && s.terminals[y].status == Online ==>
      s.terminals[x].agent != s.terminals[y].agent
  }

  predicate Inv(s: State) {
    && (forall k {:trigger GateOk(s, k)} :: k in s.gates ==> GateOk(s, k))
    && (forall c {:trigger ClearanceOk(s, c)} :: c in s.clearances + s.promotions ==> ClearanceOk(s, c))
    && (forall x {:trigger TerminalOk(s, x)} :: x in s.terminals ==> TerminalOk(s, x))
    && (forall x, y {:trigger Exclusive(s, x, y)} :: x in s.terminals && y in s.terminals ==> Exclusive(s, x, y))
  }

  /** Sessions keep their agent and terminal; time moves on. */
  predicate Later(s: State, t: State) {
    && s.now <= t.now
    && forall sid {:trigger sid in s.sessions} :: sid in s.sessions ==>
         sid in t.sessions && t.sessions[sid].agent == s.sessions[sid].agent
         && t.sessions[sid].terminal == s.sessions[sid].terminal
  }

  lemma ClearanceStays(s: State, t: State, c: Clearance)
    requires ClearanceOk(s, c) && Later(s, t)
    ensures ClearanceOk(t, c)
  {}

  /** Steps that leave the terminals alone. */
  lemma SameTerminals(s: State, t: State)
    requires Inv(s) && Later(s, t) && t.terminals == s.terminals && t.last == s.last
    requires forall k {:trigger GateOk(t, k)} :: k in t.gates ==> GateOk(t, k)
    requires forall c {:trigger ClearanceOk(t, c)} :: c in t.clearances + t.promotions ==> ClearanceOk(t, c)
    ensures Inv(t)
  {
    forall x | x in t.terminals ensures TerminalOk(t, x) {
      assert TerminalOk(s, x);
    }
    forall x, y | x in t.terminals && y in t.terminals ensures Exclusive(t, x, y) {
      assert Exclusive(s, x, y);
    }
  }

  /** Steps that change one terminal. */
  lemma OneTerminal(s: State, t: State, x: TerminalId)
    requires Inv(s) && Later(s, t) && t.gates == s.gates
    requires t.clearances <= s.clearances && t.promotions <= s.promotions
    requires t.terminals.Keys == s.terminals.Keys + {x}
             && (forall y :: y in s.terminals && y != x ==> t.terminals[y] == s.terminals[y])
    requires x in t.last && forall y :: y in s.last && y != x ==> y in t.last && t.last[y] == s.last[y]
    requires TerminalOk(t, x) && forall y :: y in t.terminals ==> Exclusive(t, x, y) && Exclusive(t, y, x)
    ensures Inv(t)
  {
    forall k | k in t.gates ensures GateOk(t, k) {
      assert GateOk(s, k);
    }
    forall c | c in t.clearances + t.promotions ensures ClearanceOk(t, c) {
      assert ClearanceOk(s, c);
    }
    forall y | y in t.terminals ensures TerminalOk(t, y) {
      assert y == x || TerminalOk(s, y);
    }
    forall y, z | y in t.terminals && z in t.terminals ensures Exclusive(t, y, z) {
      assert y == x || z == x || Exclusive(s, y, z);
    }
  }

  predicate IsQuiet(e: Event) {
    e.LoginEvent? || e.GateEvent? || e.DecideEvent? || e.CheckEvent? || e.Tick?
  }

  lemma QuietLater(s: State, e: Event)
    requires IsQuiet(e)
    ensures var t := Apply(s, e);
      && Later(s, t) && t.terminals == s.terminals && t.last == s.last
      && (forall c {:trigger c in t.clearances} {:trigger c in t.promotions} ::
            c in t.clearances + t.promotions && c !in s.clearances + s.promotions ==>
              && (e.CheckEvent? || e.DecideEvent?) && e.session in s.sessions && CanActivate(s, e.session)
              && c == Seen(s, e.session))
  {}

  lemma QuietGates(s: State, e: Event)
    requires Inv(s) && IsQuiet(e)
    ensures forall k {:trigger GateOk(Apply(s, e), k)} :: k in Apply(s, e).gates ==> GateOk(Apply(s, e), k)
  {
    hide CanActivate;
    var t := Apply(s, e);
    forall k | k in t.gates ensures GateOk(t, k) {
      assert k in s.gates ==> GateOk(s, k);
    }
  }

  lemma QuietStep(s: State, e: Event)
    requires Inv(s) && IsQuiet(e)
    ensures Inv(Apply(s, e))
  {
    var t := Apply(s, e);
    QuietLater(s, e);
    QuietGates(s, e);
    forall c | c in t.clearances + t.promotions ensures ClearanceOk(t, c) {
      if c !in s.clearances + s.promotions {
        Clears(s, e.session);
      }
      hide Apply;
      ClearanceStays(s, t, c);
    }
    hide Apply;
    SameTerminals(s, t);
  }

  lemma Clears(s: State, sid: SessionId)
    requires Inv(s) && sid in s.sessions && CanActivate(s, sid)
    ensures ClearanceOk(s, Seen(s, sid))
  {
    forall g: Gate ensures (sid, g) in s.gates && GateOk(s, (sid, g)) && GatePassed(s, sid, g) {
      match g
      case SupervisorAuth =>
      case DeviceHealth =>
      case PiiAck =>
    }
  }

  lemma TerminalStep(s: State, e: Event)
    requires Inv(s) && (e.RegisterEvent? || e.DeactivateEvent?)
    ensures Inv(Apply(s, e))
  {
    var t := Apply(s, e);
    if t.terminals == s.terminals && t.last == s.last {
      EverythingStays(s, t);
    } else {
      OneTerminal(s, t, e.terminal);
    }
  }

  lemma PromotionStep(s: State, c: Clearance)
    requires Inv(s)
    ensures Inv(WritePromotion(s, c))
  {
    var t := WritePromotion(s, c);
    if t.terminals == s.terminals && t.last == s.last {
      EverythingStays(s, t);
    } else {
      assert ClearanceOk(s, c);
      OneTerminal(s, t, c.terminal);
    }
  }

  lemma EverythingStays(s: State, t: State)
    requires Inv(s) && Later(s, t) && t.gates == s.gates
    requires t.clearances <= s.clearances && t.promotions <= s.promotions
    requires t.terminals == s.terminals && t.last == s.last
    ensures Inv(t)
  {
    forall k | k in t.gates ensures GateOk(t, k) {
      assert GateOk(s, k);
    }
    forall c | c in t.clearances + t.promotions ensures ClearanceOk(t, c) {
      assert ClearanceOk(s, c);
    }
    SameTerminals(s, t);
  }

  lemma ActivationStep(s: State, c: Clearance)
    requires Inv(s)
    ensures Inv(WriteActivation(s, c))
  {
    var t := WriteActivation(s, c);
    if t.terminals == s.terminals && t.last == s.last {
      EverythingStays(s, t);
    } else {
      assert ClearanceOk(s, c);
      OneTerminal(s, t, c.terminal);
    }
  }

  lemma LogoutStep(s: State, sid: SessionId, write: bool)
    requires Inv(s)
    ensures Inv(Logout(s, sid, write))
  {
    if sid in s.sessions && !s.sessions[sid].ended {
      var t := EndSession(s, sid);
      forall c | c in t.clearances + t.promotions ensures ClearanceOk(t, c) {
        ClearanceStays(s, t, c);
      }
      forall k | k in t.gates ensures GateOk(t, k) {
        assert GateOk(s, k);
      }
      SameTerminals(s, t);
      TerminalStep(t, DeactivateEvent(s.sessions[sid].terminal));
    }
  }

  lemma StepKeepsInv(s: State, e: Event)
    requires Inv(s)
    ensures Inv(Apply(s, e))
  {
    hide Inv;
    match e
    case ActivateEvent(c) => ActivationStep(s, c);
    case LogoutEvent(sid, write) => LogoutStep(s, sid, write);
    case RegisterEvent(_) => TerminalStep(s, e);
    case PromoteEvent(c) => PromotionStep(s, c);
    case DeactivateEvent(_) => TerminalStep(s, e);
    case _ => QuietStep(s, e);
  }

  lemma {:induction false} RunKeepsInv(s: State, events: seq<Event>)
    requires Inv(s)
    ensures Inv(Run(s, events))
    decreases |events|
  {
    hide Inv, Apply;
    if events != [] {
      StepKeepsInv(s, events[0]);
      RunKeepsInv(Apply(s, events[0]), events[1..]);
    }
  }

  /** In every reachable state an ONLINE terminal's last transition was an activation by the
      agent bound to it, for a session of that agent at that terminal, whose check found all
      three gates passed within the eight hours before. */
  lemma OnlineWasEarned(now: int, events: seq<Event>, x: TerminalId)
    requires x in Run(Initial(now), events).terminals && Run(Initial(now), events).terminals[x].status == Online
    ensures var s := Run(Initial(now), events);
      && x in s.last && s.last[x].Activated?
      && var c := s.last[x].clearance;
         && c.terminal == x && s.terminals[x].agent == Some(c.agent) && c.at <= s.now
         && c.session in s.sessions && s.sessions[c.session].agent == c.agent && s.sessions[c.session].terminal == x
         && forall g: Gate :: g in c.passed && c.passed[g] <= c.at < c.passed[g] + GATE_TTL
  {
    RunKeepsInv(Initial(now), events);
    assert TerminalOk(Run(Initial(now), events), x);
  }

  /** In every reachable state a READY terminal's last transition was a promotion, and every promotion was
      decided for a session at that terminal, with all three of its gates passed within the eight hours
      before. */
  lemma ReadyWasEarned(now: int, events: seq<Event>, x: TerminalId)
    requires var s := Run(Initial(now), events);
      x in s.terminals && (s.terminals[x].status == Ready || (x in s.last && s.last[x].Promoted?))
    ensures var s := Run(Initial(now), events);
      && x in s.last && s.last[x].Promoted?
      && var c := s.last[x].decision;
         && c.at <= s.now && c.session in s.sessions && s.sessions[c.session].agent == c.agent
         && s.sessions[c.session].terminal == x
         && forall g: Gate :: g in c.passed && c.passed[g] <= c.at < c.passed[g] + GATE_TTL
  {
    RunKeepsInv(Initial(now), events);
    assert TerminalOk(Run(Initial(now), events), x);
  }

  /** When a terminal becomes READY: at a gate of a live session, read and written without interruption,
      if and only if it was READY before, or it was neither READY nor ONLINE and that gate was the last of
      the three to pass. Nothing else about the terminals changes. */
  lemma ReadyExactly(s: State, sid: SessionId, g: Gate)
    requires Live(s, sid) && s.sessions[sid].terminal in s.terminals && sid !in s.deciding && s.promotions == {}
    ensures var t := RecordGate(s, sid, g);
      var u := WritePromotion(DecidePromotion(t, sid), Seen(t, sid));
      var x := s.sessions[sid].terminal;
      && u.now == s.now && u.terminals.Keys == s.terminals.Keys
      && (forall y :: y in s.terminals && y != x ==> u.terminals[y] == s.terminals[y])
      && u.terminals[x].agent == s.terminals[x].agent
      && (u.terminals[x].status == Ready <==>
          || s.terminals[x].status == Ready
          || (s.terminals[x].status != Online && forall h: Gate :: h == g || GatePassed(s, sid, h)))
      && (u.terminals[x].status != Ready ==> u.terminals[x] == s.terminals[x])
  {
    hide PassedTimes, GatePassed, CanActivate;
    var t := RecordGate(s, sid, g);
    GatesPassed(t, sid);
    forall h: Gate ensures GatePassed(t, sid, h) <==> h == g || GatePassed(s, sid, h) {
      GateNowPassed(s, sid, g, h);
    }
  }

  lemma GatesPassed(s: State, sid: SessionId)
    ensures CanActivate(s, sid) <==> forall g: Gate :: GatePassed(s, sid, g)
  {
    if CanActivate(s, sid) {
      forall g: Gate ensures GatePassed(s, sid, g) {
        match g
        case SupervisorAuth =>
        case DeviceHealth =>
        case PiiAck =>
      }
    }
  }

  /** A gate that is passed counts at once, and the others as before. */
  lemma GateNowPassed(s: State, sid: SessionId, g: Gate, h: Gate)
    requires Live(s, sid)
    ensures GatePassed(RecordGate(s, sid, g), sid, h) <==> h == g || GatePassed(s, sid, h)
  {}

  /** Nobody is ONLINE twice. */
  lemma OnlineOnce(now: int, events: seq<Event>, x: TerminalId, y: TerminalId, agent: Agent)
    requires AssertOnline(Run(Initial(now), events), x, agent) && AssertOnline(Run(Initial(now), events), y, agent)
    ensures x == y
  {
    RunKeepsInv(Initial(now), events);
    assert Exclusive(Run(Initial(now), events), x, y);
  }

  /** Only the write of a cleared activation makes a terminal ONLINE: no gate and no promotion
      does. */
  lemma OnlyActivationGoesOnline(s: State, e: Event, x: TerminalId, agent: Agent)
    requires !AssertOnline(s, x, agent) && AssertOnline(Apply(s, e), x, agent)
    ensures e.ActivateEvent? && e.clearance in s.clearances && e.clearance.terminal == x && e.clearance.agent == agent
  {}

  predicate Activates(e: Event, x: TerminalId) { e.ActivateEvent? && e.clearance.terminal == x }

  lemma {:induction false} StaysOff(s: State, events: seq<Event>, x: TerminalId, agent: Agent)
    requires !AssertOnline(s, x, agent) && forall i :: 0 <= i < |events| ==> !Activates(events[i], x)
    ensures !AssertOnline(Run(s, events), x, agent)
    decreases |events|
  {
    hide Apply, AssertOnline;
    if events != [] {
      if AssertOnline(Apply(s, events[0]), x, agent) {
        OnlyActivationGoesOnline(s, events[0], x, agent);
      }
      StaysOff(Apply(s, events[0]), events[1..], x, agent);
    }
  }

  /** A deactivation, or a logout whose write succeeds, withdraws the terminal until somebody
      activates it again. */
  lemma OffUntilActivated(s: State, e: Event, events: seq<Event>, x: TerminalId, agent: Agent)
    requires e == DeactivateEvent(x)
             || (e.LogoutEvent? && e.write && e.session in s.sessions && !s.sessions[e.session].ended
                 && s.sessions[e.session].terminal == x)
    requires forall i :: 0 <= i < |events| ==> !Activates(events[i], x)
    ensures !AssertOnline(Run(Apply(s, e), events), x, agent)
  {
    StaysOff(Apply(s, e), events, x, agent);
  }
}

/** Customer-service terminals: three readiness gates per agent session and explicit activation.
    Calls may overlap: the check of an activation and the decision of a promotion are separate
    steps from the writes that follow them. */
module TerminalGates {
  import opened Basics

  type TerminalId = string
  type SessionId = string
  type Agent = string

  const GATE_TTL := 8 * 60 * 60 * 1000

  datatype Status = Registered | Ready | Online | Offline

  datatype Gate = SupervisorAuth | DeviceHealth | PiiAck

  const ALL_GATES := [SupervisorAuth, DeviceHealth, PiiAck]

  datatype GateRecord = GateRecord(gate: Gate, passedAt: int, expiresAt: int)

  datatype Terminal = Terminal(status: Status, agent: Option<Agent>)

  datatype AgentSession = AgentSession(agent: Agent, terminal: TerminalId, ended: bool, expiresAt: int)

  /** What a readiness check that allowed an activation or a promotion had seen. */
  datatype Clearance = Clearance(session: SessionId, agent: Agent, terminal: TerminalId, at: int,
                                 passed: map<Gate, int>)

  datatype Transition = Activated(clearance: Clearance) | Deactivated | Promoted(decision: Clearance) | Created

  /** `clearances` are activations checked and not yet written, `deciding` the sessions whose gate was
      recorded and whose readiness is not yet read, `promotions` promotions decided and not yet
      written, and `last` each terminal's last transition; the code stores none of them. */
  datatype State = State(
    now: int,
    terminals: map<TerminalId, Terminal>,
    sessions: map<SessionId, AgentSession>,
    gates: map<(SessionId, Gate), GateRecord>,
    clearances: set<Clearance>,
    deciding: set<SessionId>,
    promotions: set<Clearance>,
    last: map<TerminalId, Transition>)

  // --- Readiness ---

  predicate GatePassed(s: State, sid: SessionId, g: Gate) {
    (sid, g) in s.gates && s.now < s.gates[(sid, g)].expiresAt
  }

  predicate CanActivate(s: State, sid: SessionId) {
    GatePassed(s, sid, SupervisorAuth) && GatePassed(s, sid, DeviceHealth) && GatePassed(s, sid, PiiAck)
  }

  datatype GateState = GateState(gate: Gate, passed: bool, expired: bool)

  /** The rows of one session: at most one per gate. */
  predicate RowsOf(s: State, sid: SessionId, rows: seq<GateRecord>) {
    && (forall i :: 0 <= i < |rows| ==> (sid, rows[i].gate) in s.gates && s.gates[(sid, rows[i].gate)] == rows[i])
    && (forall g: Gate :: (sid, g) in s.gates ==> exists i :: 0 <= i < |rows| && rows[i].gate == g)
  }

  /** The source's two loops: index the rows by gate, then walk all gates, not the rows, so that
      a gate never attempted is listed as not passed. */
  method Readiness(ghost s: State, ghost sid: SessionId, rows: seq<GateRecord>, now: int)
    returns (states: seq<GateState>, canActivate: bool)
    requires RowsOf(s, sid, rows) && now == s.now
    ensures canActivate <==> CanActivate(s, sid)
    ensures |states| == |ALL_GATES| && forall i :: 0 <= i < |ALL_GATES| ==>
              states[i].gate == ALL_GATES[i] && (states[i].passed <==> GatePassed(s, sid, ALL_GATES[i]))
              && (states[i].expired <==> (sid, ALL_GATES[i]) in s.gates && !states[i].passed)
  {
    var byGate: map<Gate, GateRecord> := map[];
    for i := 0 to |rows|
      invariant forall g :: g in byGate <==> exists k :: 0 <= k < i && rows[k].gate == g
      invariant forall g :: g in byGate ==> (sid, g) in s.gates && byGate[g] == s.gates[(sid, g)]
    {
      byGate := byGate[rows[i].gate := rows[i]];
    }
    states, canActivate := [], true;
    for i := 0 to |ALL_GATES|
      invariant |states| == i
      invariant canActivate <==> forall k :: 0 <= k < i ==> GatePassed(s, sid, ALL_GATES[k])
      invariant forall k :: 0 <= k < i ==>
        states[k].gate == ALL_GATES[k] && (states[k].passed <==> GatePassed(s, sid, ALL_GATES[k]))
        && (states[k].expired <==> (sid, ALL_GATES[k]) in s.gates && !states[k].passed)
    {
      var g := ALL_GATES[i];
      if g !in byGate {
        canActivate := false;
        states := states + [GateState(g, false, false)];
      } else if byGate[g].expiresAt <= now {
        canActivate := false;
        states := states + [GateState(g, false, true)];
      } else {
        states := states + [GateState(g, true, false)];
      }
    }
    assert canActivate ==>
      GatePassed(s, sid, ALL_GATES[0]) && GatePassed(s, sid, ALL_GATES[1]) && GatePassed(s, sid, ALL_GATES[2]);
    if CanActivate(s, sid) {
      forall k | 0 <= k < |ALL_GATES| ensures GatePassed(s, sid, ALL_GATES[k]) {
        match ALL_GATES[k]
        case SupervisorAuth =>
        case DeviceHealth =>
        case PiiAck =>
      }
    }
  }

  // --- The steps ---

  predicate Live(s: State, sid: SessionId) {
    sid in s.sessions && !s.sessions[sid].ended && s.now < s.sessions[sid].expiresAt
  }

  /** A passed gate replaces the session's earlier row for it. */
  function RecordGate(s: State, sid: SessionId, g: Gate): State {
    if !Live(s, sid) then s
    else
      s.(gates := s.gates[(sid, g) := GateRecord(g, s.now, s.now + GATE_TTL)], deciding := s.deciding + {sid})
  }

  function PassedTimes(s: State, sid: SessionId): map<Gate, int> {
    map g: Gate | (sid, g) in s.gates :: s.gates[(sid, g)].passedAt
  }

  /** What the readiness of a session is now. */
  function Seen(s: State, sid: SessionId): Clearance
    requires sid in s.sessions
  {
    Clearance(sid, s.sessions[sid].agent, s.sessions[sid].terminal, s.now, PassedTimes(s, sid))
  }

  /** Then the readiness is read: all three gates passed decide a promotion, unless the terminal is
      already ready or online. */
  function DecidePromotion(s: State, sid: SessionId): State {
    if sid !in s.deciding || sid !in s.sessions then s
    else
      var t := s.(deciding := s.deciding - {sid});
      var x := s.sessions[sid].terminal;
      if x in s.terminals && CanActivate(s, sid) && s.terminals[x].status != Online && s.terminals[x].status != Ready
      then t.(promotions := t.promotions + {Seen(s, sid)})
      else t
  }

  function WritePromotion(s: State, c: Clearance): State {
    if c !in s.promotions then s
    else
      var x, t := c.terminal, s.(promotions := s.promotions - {c});
      if x !in s.terminals then t
      else t.(terminals := t.terminals[x := t.terminals[x].(status := Ready)], last := t.last[x := Promoted(c)])
  }

  function CheckActivation(s: State, sid: SessionId): State {
    if !Live(s, sid) || s.sessions[sid].terminal !in s.terminals || !CanActivate(s, sid) then s
    else
      s.(clearances := s.clearances + {Seen(s, sid)})
  }

  /** The unique index: an agent is online at one terminal at most. */
  predicate Busy(s: State, agent: Agent, x: TerminalId) {
    exists y :: y in s.terminals && y != x && s.terminals[y] == Terminal(Online, Some(agent))
  }

  function WriteActivation(s: State, c: Clearance): State {
    if c !in s.clearances then s
    else
      var t := s.(clearances := s.clearances - {c});
      if c.terminal !in s.terminals || Busy(s, c.agent, c.terminal) then t
      else t.(terminals := t.terminals[c.terminal := Terminal(Online, Some(c.agent))],
              last := t.last[c.terminal := Activated(c)])
  }

  function Deactivate(s: State, x: TerminalId): State {
    if x !in s.terminals || s.terminals[x].status == Offline then s
    else s.(terminals := s.terminals[x := Terminal(Offline, None)], last := s.last[x := Deactivated])
  }

  function EndSession(s: State, sid: SessionId): State {
    if sid in s.sessions then s.(sessions := s.sessions[sid := s.sessions[sid].(ended := true)]) else s
  }

  /** Ends the session and takes the terminal offline; the second write may fail. */
  function Logout(s: State, sid: SessionId, write: bool): State {
    if sid !in s.sessions || s.sessions[sid].ended then s
    else
      var t := EndSession(s, sid);
      if write then Deactivate(t, s.sessions[sid].terminal) else t
  }

  /** A login closes the agent's other sessions and leaves their terminals as they are. */
  function Login(s: State, sid: SessionId, agent: Agent, x: TerminalId, expiresAt: int): State {
    if sid in s.sessions || x !in s.terminals then s
    else
      s.(sessions := (map y | y in s.sessions ::
           if s.sessions[y].agent == agent then s.sessions[y].(ended := true) else s.sessions[y])
           [sid := AgentSession(agent, x, false, expiresAt)])
  }

  function Register(s: State, x: TerminalId): State {
    if x in s.terminals then s
    else s.(terminals := s.terminals[x := Terminal(Registered, None)], last := s.last[x := Created])
  }

  predicate AssertOnline(s: State, x: TerminalId, agent: Agent) {
    x in s.terminals && s.terminals[x].status == Online && s.terminals[x].agent == Some(agent)
  }

  datatype Event =
    | RegisterEvent(terminal: TerminalId)
    | LoginEvent(session: SessionId, agent: Agent, at: TerminalId, expiresAt: int)
    | LogoutEvent(session: SessionId, write: bool)
    | GateEvent(session: SessionId, gate: Gate)
    | DecideEvent(session: SessionId)
    | PromoteEvent(decision: Clearance)
    | CheckEvent(session: SessionId)
    | ActivateEvent(clearance: Clearance)
    | DeactivateEvent(terminal: TerminalId)
    | Tick(now: int)

  function Apply(s: State, e: Event): State {
    match e
    case RegisterEvent(x) => Register(s, x)
    case LoginEvent(sid, agent, x, expiresAt) => Login(s, sid, agent, x, expiresAt)
    case LogoutEvent(sid, write) => Logout(s, sid, write)
    case GateEvent(sid, g) => RecordGate(s, sid, g)
    case DecideEvent(sid) => DecidePromotion(s, sid)
    case PromoteEvent(c) => WritePromotion(s, c)
    case CheckEvent(sid) => CheckActivation(s, sid)
    case ActivateEvent(c) => WriteActivation(s, c)
    case DeactivateEvent(x) => Deactivate(s, x)
    case Tick(now) => s.(now := if now > s.now then now else s.now)
  }

  function Run(s: State, events: seq<Event>): State
    decreases |events|
  {
    if events == [] then s else Run(Apply(s, events[0]), events[1..])
  }

  function Initial(now: int): State {
    State(now, map[], map[], map[], {}, {}, {}, map[])
  }
}

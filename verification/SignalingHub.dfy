/** The room table of the signaling hub, against its history: who registered and unregistered,
    in which order. */
module SignalingHub {
  import opened Basics
  import opened SignalingClient

  // --- The history ---

  datatype Entry = Registered(client: Client) | Unregistered(client: Client)

  predicate InSlot(c: Client, session: string, role: Role) {
    c.session == session && c.role == role
  }

  /** Who holds the slot (session, role) after a history. */
  function Holder(h: seq<Entry>, session: string, role: Role): (r: Client?)
    ensures r != null ==> InSlot(r, session, role) && Registered(r) in h
  {
    if h == [] then null
    else
      var before := Holder(h[..|h| - 1], session, role);
      match h[|h| - 1]
      case Registered(c) => if InSlot(c, session, role) then c else before
      case Unregistered(c) => if before == c then null else before
  }

  function Held(h: seq<Entry>, session: string): (b: bool) {
    Holder(h, session, Nasabah) != null || Holder(h, session, Agent) != null
  }

  /** Whether a room exists after a history. */
  function HasRoom(h: seq<Entry>, session: string): bool {
    if h == [] then false
    else
      var before := HasRoom(h[..|h| - 1], session);
      match h[|h| - 1]
      case Registered(c) => before || c.session == session
      case Unregistered(c) => if c.session == session then before && Held(h, session) else before
  }

  /** Whether some later registration took the client's slot from it. */
  function Replaced(h: seq<Entry>, c: Client): (b: bool)
    ensures b ==> Registered(c) in h
  {
    if h == [] then false
    else
      Replaced(h[..|h| - 1], c)
      || (h[|h| - 1].Registered? && (c.role == Nasabah || c.role == Agent)
          && InSlot(h[|h| - 1].client, c.session, c.role) && Holder(h[..|h| - 1], c.session, c.role) == c)
  }

  /** The slot belongs to its last registrant, as long as that client has not unregistered. */
  ghost predicate LastRegistrant(h: seq<Entry>, session: string, role: Role, c: Client, i: nat)
    requires i < |h|
  {
    && h[i] == Registered(c) && InSlot(c, session, role)
    && forall j :: i < j < |h| ==>
         h[j] != Unregistered(c) && !(h[j].Registered? && InSlot(h[j].client, session, role))
  }

  lemma {:induction false} HolderIsLastRegistrant(h: seq<Entry>, session: string, role: Role, c: Client)
    ensures Holder(h, session, role) == c <==> exists i :: 0 <= i < |h| && LastRegistrant(h, session, role, c, i)
    decreases |h|
  {
    if h != [] {
      var n := |h| - 1;
      var b := h[..n];
      HolderIsLastRegistrant(b, session, role, c);
      if Holder(h, session, role) == c {
        if h[n] == Registered(c) && InSlot(c, session, role) {
          assert LastRegistrant(h, session, role, c, n);
        } else {
          var i :| 0 <= i < n && LastRegistrant(b, session, role, c, i);
          assert h[i] == b[i];
          assert LastRegistrant(h, session, role, c, i) by {
            forall j | i < j < |h| ensures h[j] != Unregistered(c)
                && !(h[j].Registered? && InSlot(h[j].client, session, role)) {
              if j < n {
                assert h[j] == b[j];
              }
            }
          }
        }
      }
      if i :| 0 <= i < |h| && LastRegistrant(h, session, role, c, i) {
        if i < n {
          assert LastRegistrant(b, session, role, c, i);
        }
      }
    }
  }

  /** A room exists exactly when one of its two slots is held, or the last thing that happened to
      the session was the arrival of a client with neither role. */
  lemma {:induction false} RoomExactly(h: seq<Entry>, session: string)
    ensures HasRoom(h, session) <==> Held(h, session) || LastIsStranger(h, session)
    decreases |h|
  {
    if h != [] {
      RoomExactly(h[..|h| - 1], session);
    }
  }

  /** The last entry about the session registers a client of unknown role. */
  function LastIsStranger(h: seq<Entry>, session: string): bool {
    if h == [] then false
    else if h[|h| - 1].client.session == session then h[|h| - 1].Registered? && h[|h| - 1].client.role.Unknown?
    else LastIsStranger(h[..|h| - 1], session)
  }

  /** Somebody registers for the slot of a client after it has and before it unregisters. */
  ghost predicate Loses(h: seq<Entry>, c: Client, i: nat, j: nat) {
    && i < j < |h| && h[i] == Registered(c) && h[j].Registered? && InSlot(h[j].client, c.session, c.role)
    && forall k :: i < k < j ==> h[k] != Unregistered(c)
  }

  /** The clients that are closed are those that lost their slot to another registration. */
  lemma {:induction false} ReplacedExactly(h: seq<Entry>, c: Client)
    ensures Replaced(h, c) <==> (c.role == Nasabah || c.role == Agent) && exists i, j :: Loses(h, c, i, j)
    decreases |h|
  {
    if h != [] {
      var n := |h| - 1;
      var b := h[..n];
      ReplacedExactly(b, c);
      HolderIsLastRegistrant(b, c.session, c.role, c);
      if i, j :| Loses(b, c, i, j) {
        assert Loses(h, c, i, j);
      }
      if Holder(b, c.session, c.role) == c {
        var i :| 0 <= i < n && LastRegistrant(b, c.session, c.role, c, i);
        if h[n].Registered? && InSlot(h[n].client, c.session, c.role) {
          assert Loses(h, c, i, n);
        }
      }
      if i, j :| Loses(h, c, i, j) {
        LostBefore(h, c, i, j);
      }
    }
  }

  lemma LostBefore(h: seq<Entry>, c: Client, i: nat, j: nat)
    requires Loses(h, c, i, j)
    ensures var b := h[..|h| - 1];
      || (exists x, y :: Loses(b, c, x, y))
      || (Holder(b, c.session, c.role) == c && h[|h| - 1].Registered? && InSlot(h[|h| - 1].client, c.session, c.role))
  {
    var n := |h| - 1;
    var b := h[..n];
    if j < n {
      assert Loses(b, c, i, j);
    } else if Holder(b, c.session, c.role) != c {
      HolderIsLastRegistrant(b, c.session, c.role, c);
      assert !LastRegistrant(b, c.session, c.role, c, i);
      var k :| i < k < n && (b[k] == Unregistered(c) || (b[k].Registered? && InSlot(b[k].client, c.session, c.role)));
      assert b[k] == h[k];
      assert Loses(b, c, i, k);
    }
  }

  lemma HeldIs(h: seq<Entry>, session: string)
    ensures Held(h, session) <==> Holder(h, session, Nasabah) != null || Holder(h, session, Agent) != null
  {}

  /** One more entry, slot by slot. */
  lemma OneMore(h: seq<Entry>, e: Entry, session: string)
    ensures var t := h + [e];
      && Holder(t, session, Nasabah) == NextHolder(Holder(h, session, Nasabah), e, session, Nasabah)
      && Holder(t, session, Agent) == NextHolder(Holder(h, session, Agent), e, session, Agent)
      && HasRoom(t, session) == if e.client.session != session then HasRoom(h, session)
                                else e.Registered? || (HasRoom(h, session) && Held(t, session))
  {
    assert (h + [e])[..|h|] == h;
  }

  function NextHolder(before: Client?, e: Entry, session: string, role: Role): Client? {
    match e
    case Registered(c) => if InSlot(c, session, role) then c else before
    case Unregistered(c) => if before == c then null else before
  }

  lemma OneMoreReplaced(h: seq<Entry>, e: Entry, c: Client)
    ensures Replaced(h + [e], c) <==>
            Replaced(h, c) || (e.Registered? && !c.role.Unknown? && InSlot(e.client, c.session, c.role)
                               && Holder(h, c.session, c.role) == c)
  {
    assert (h + [e])[..|h|] == h;
  }

  /** The late unregister of a replaced client changes no slot and no room. */
  lemma LateUnregisterChangesNothing(h: seq<Entry>, c: Client, session: string, role: Role)
    requires Holder(h, c.session, c.role) != c
    ensures var t := h + [Unregistered(c)];
      && Holder(t, session, role) == Holder(h, session, role)
      && (Held(h, c.session) ==> HasRoom(t, session) == HasRoom(h, session))
  {
    var t := h + [Unregistered(c)];
    assert t[..|t| - 1] == h;
    if session == c.session && Held(h, session) {
      RoomExactly(h, session);
    }
  }

  // --- The hub ---

  class Room {
    const session: string
    const queueId: string
    var nasabah: Client?
    var agent: Client?

    constructor (session: string, queueId: string)
      ensures this.session == session && this.queueId == queueId && nasabah == null && agent == null
    {
      this.session, this.queueId := session, queueId;
      nasabah, agent := null, null;
    }

    function Occupant(role: Role): Client?
      reads this
    {
      match role
      case Nasabah => nasabah
      case Agent => agent
      case Unknown(_) => null
    }

    /** The client takes its slot and whoever was there is closed; no slot for other roles. */
    method Seat(client: Client)
      modifies this, Alone(Occupant(client.role))`done
      ensures nasabah == if client.role == Nasabah then client else old(nasabah)
      ensures agent == if client.role == Agent then client else old(agent)
      ensures var o := old(Occupant(client.role)); o != null ==> o.done
    {
      match client.role {
        case Nasabah =>
          if nasabah != null {
            nasabah.Close();
          }
          nasabah := client;
        case Agent =>
          if agent != null {
            agent.Close();
          }
          agent := client;
        case Unknown(_) =>
      }
    }

    /** The client leaves its slot if it still has it. */
    method Leave(client: Client)
      modifies this
      ensures nasabah == if client.role == Nasabah && old(nasabah) == client then null else old(nasabah)
      ensures agent == if client.role == Agent && old(agent) == client then null else old(agent)
    {
      match client.role {
        case Nasabah =>
          if nasabah == client {
            nasabah := null;
          }
        case Agent =>
          if agent == client {
            agent := null;
          }
        case Unknown(_) =>
      }
    }
  }

  ghost function Alone(c: Client?): set<Client> {
    if c == null then {} else {c}
  }

  class Hub {
    var rooms: map<string, Room>
    ghost var history: seq<Entry>
    ghost var clients: set<Client>

    constructor ()
      ensures Valid() && fresh(rooms.Values) && history == [] && clients == {}
    {
      rooms, history, clients := map[], [], {};
    }

    ghost predicate Tracks(session: string)
      reads this, rooms.Values
    {
      && (session in rooms <==> HasRoom(history, session))
      && (session in rooms ==>
            && rooms[session].nasabah == Holder(history, session, Nasabah)
            && rooms[session].agent == Holder(history, session, Agent))
      && (session !in rooms ==> !Held(history, session))
    }

    ghost predicate Valid()
      reads this, rooms.Values, clients
    {
      && (forall s :: s in rooms ==> rooms[s].session == s)
      && (forall s {:trigger Tracks(s)} :: Tracks(s))
      && (forall e :: e in history ==> e.client in clients)
      && (forall c :: c in clients ==> c.Valid())
      && (forall c {:trigger Replaced(history, c)} :: c in clients ==> (c.done <==> Replaced(history, c)))
    }

    /** The last registrant takes the slot; whoever held it before is closed, and nobody else. */
    method Register(client: Client)
      requires Valid() && client.Valid() && (client !in clients ==> !client.done)
      modifies this, rooms.Values, Alone(Target(client.session, client.role))`done
      ensures Valid() && history == old(history) + [Registered(client)] && clients == old(clients) + {client}
      ensures fresh(rooms.Values - old(rooms.Values))
    {
      hide Holder, HasRoom, Replaced, Client.Valid, Held;
      var s := client.session;
      assert Tracks(s);
      if s !in rooms {
        assert !Held(history, s);
        HeldIs(history, s);
        var r := new Room(s, client.queueId);
        rooms := rooms[s := r];
      }
      rooms[s].Seat(client);
      history, clients := history + [Registered(client)], clients + {client};
      forall x ensures Tracks(x) {
        assert old(Tracks(x));
        OneMore(old(history), Registered(client), x);
        HeldIs(old(history), x);
        HeldIs(history, x);
      }
      forall c | c in clients ensures c.done <==> Replaced(history, c) {
        OneMoreReplaced(old(history), Registered(client), c);
      }
    }

    /** Only the client that still holds its slot leaves it; an empty room is removed. */
    method Unregister(client: Client)
      requires Valid() && client.Valid() && (client !in clients ==> !client.done)
      modifies this, rooms.Values
      ensures Valid() && history == old(history) + [Unregistered(client)] && clients == old(clients) + {client}
      ensures rooms.Values <= old(rooms.Values)
    {
      hide Holder, HasRoom, Replaced, Client.Valid;
      var s := client.session;
      assert Tracks(s);
      if s in rooms {
        var room := rooms[s];
        room.Leave(client);
        if room.nasabah == null && room.agent == null {
          rooms := rooms - {s};
        }
      }
      history, clients := history + [Unregistered(client)], clients + {client};
      forall x ensures Tracks(x) {
        assert old(Tracks(x));
        OneMore(old(history), Unregistered(client), x);
      }
      forall c | c in clients ensures c.done <==> Replaced(history, c) {
        OneMoreReplaced(old(history), Unregistered(client), c);
      }
    }

    /** Who a message for one side of a session reaches. */
    ghost function Target(session: string, role: Role): (r: Client?)
      reads this
      ensures r != null ==> InSlot(r, session, role)
    {
      if role.Unknown? then null else Holder(history, session, role)
    }

    ghost function Peer(sender: Client): (r: Client?)
      reads this
      ensures r != null ==> r.session == sender.session && Opposite(sender.role, r.role)
    {
      match sender.role
      case Nasabah => Target(sender.session, Agent)
      case Agent => Target(sender.session, Nasabah)
      case Unknown(_) => null
    }

    method Find(session: string, role: Role) returns (target: Client?)
      requires Valid()
      ensures target == Target(session, role)
      ensures target != null ==> target in clients
    {
      assert Tracks(session);
      if session !in rooms {
        return null;
      }
      match role {
        case Nasabah => return rooms[session].nasabah;
        case Agent => return rooms[session].agent;
        case Unknown(_) => return null;
      }
    }

    method HasRole(session: string, role: Role) returns (connected: bool)
      requires Valid()
      ensures connected <==> Target(session, role) != null
    {
      var target := Find(session, role);
      return target != null;
    }

    /** Queues for one client; nobody else is touched. */
    method Deliver(target: Client, message: Message, ghost from: Option<Client>)
      requires Valid() && target in clients && Legitimate(target, Offer(from, message))
      modifies target`queue, target`offered, target`accepted
      ensures Valid()
      ensures target.queue == if |old(target.queue)| < CAPACITY
              then old(target.queue) + [message] else old(target.queue)
      ensures target.offered == old(target.offered) + [Offer(from, message)]
    {
      target.Send(message, from);
      forall s ensures Tracks(s) {
        assert old(Tracks(s));
      }
    }

    /** To the other side of the sender's room, if somebody is there. A replaced client that has
        not gone away yet still relays. */
    method RelayToPeer(sender: Client, message: Message)
      requires Valid()
      modifies Alone(Peer(sender))`queue, Alone(Peer(sender))`offered, Alone(Peer(sender))`accepted
      ensures Valid()
      ensures var p := Peer(sender);
        p != null ==>
          && p != sender && p.offered == old(p.offered) + [Offer(Some(sender), message)]
          && p.queue == if |old(p.queue)| < CAPACITY then old(p.queue) + [message] else old(p.queue)
    {
      var target: Client? := null;
      match sender.role {
        case Nasabah => target := Find(sender.session, Agent);
        case Agent => target := Find(sender.session, Nasabah);
        case Unknown(_) =>
      }
      if target != null {
        Deliver(target, message, Some(sender));
      }
    }

    /** From the server to one side of a session, or an instruction on behalf of an agent. */
    method SendToSession(session: string, role: Role, message: Message, ghost from: Option<Client>)
      requires Valid()
      requires from.Some? ==> InSlot(from.value, session, Agent) && role == Nasabah
      modifies Alone(Target(session, role))`queue, Alone(Target(session, role))`offered,
               Alone(Target(session, role))`accepted
      ensures Valid()
      ensures var p := Target(session, role);
        p != null ==>
          && p.offered == old(p.offered) + [Offer(from, message)]
          && p.queue == if |old(p.queue)| < CAPACITY then old(p.queue) + [message] else old(p.queue)
    {
      var target := Find(session, role);
      if target != null {
        Deliver(target, message, from);
      }
    }

    /** From the server to both sides. */
    method BroadcastToRoom(session: string, message: Message)
      requires Valid()
      modifies Alone(Target(session, Nasabah)), Alone(Target(session, Agent))
      ensures Valid()
      ensures forall role :: role == Nasabah || role == Agent ==>
                var p := Target(session, role);
                p != null ==>
                  && p.offered == old(p.offered) + [Offer(None, message)]
                  && p.queue == (if |old(p.queue)| < CAPACITY then old(p.queue) + [message] else old(p.queue))
                  && p.done == old(p.done) && p.taken == old(p.taken)
    {
      assert Tracks(session);
      if session !in rooms {
        return;
      }
      var nasabah, agent := rooms[session].nasabah, rooms[session].agent;
      if nasabah != null {
        Deliver(nasabah, message, None);
      }
      if agent != null {
        Deliver(agent, message, None);
      }
    }

    /** What a connection may ask for: its signaling goes to its peer, an agent's instruction to
        the nasabah of its session, and everything else nowhere. */
    method HandleMessage(sender: Client, message: Message)
      requires Valid()
      modifies Alone(Peer(sender))`queue, Alone(Peer(sender))`offered, Alone(Peer(sender))`accepted
      ensures Valid()
      ensures var p := Peer(sender);
        p != null ==>
          && p != sender
          && p.offered == (if Relayed(message.kind) || (message.kind == "instruction" && sender.role == Agent)
                           then old(p.offered) + [Offer(Some(sender), message)] else old(p.offered))
          && p.queue == if p.offered != old(p.offered) && |old(p.queue)| < CAPACITY
                        then old(p.queue) + [message] else old(p.queue)
      ensures forall c :: c in clients && old(c.Disciplined()) ==> c.Disciplined()
    {
      match message.kind {
        case "join" =>
        case "offer" => RelayToPeer(sender, message);
        case "answer" => RelayToPeer(sender, message);
        case "ice_candidate" => RelayToPeer(sender, message);
        case "media_control" => RelayToPeer(sender, message);
        case "instruction" =>
          if sender.role == Agent {
            SendToSession(sender.session, Nasabah, message, Some(sender));
          }
        case _ =>
      }
    }
  }

  /** Who a relay reaches: whoever registered last for the other side of the sender's session and has not
      unregistered since. */
  lemma PeerExactly(hub: Hub, sender: Client, p: Client)
    ensures hub.Peer(sender) == p <==>
            Opposite(sender.role, p.role)
            && exists i :: 0 <= i < |hub.history| && LastRegistrant(hub.history, sender.session, p.role, p, i)
  {
    HolderIsLastRegistrant(hub.history, sender.session, Nasabah, p);
    HolderIsLastRegistrant(hub.history, sender.session, Agent, p);
  }

  /** And whom the server reaches. */
  lemma TargetExactly(hub: Hub, session: string, role: Role, p: Client)
    ensures hub.Target(session, role) == p <==>
            (role == Nasabah || role == Agent)
            && exists i :: 0 <= i < |hub.history| && LastRegistrant(hub.history, session, role, p, i)
  {
    HolderIsLastRegistrant(hub.history, session, role, p);
  }
}

/** One signaling connection: a bounded queue that drops what does not fit, and a close-once
    flag. The ghost logs say where everything that was ever queued came from. */
module SignalingClient {
  import opened Basics

  const CAPACITY := 64

  datatype Role = Nasabah | Agent | Unknown(name: string)

  datatype Message = Message(kind: string, body: string)

  /** A message handed to a client: by the server, or on behalf of another client. */
  datatype Offer = Offer(from: Option<Client>, message: Message)

  /** `a` is what is left of `b` when some elements are dropped. */
  predicate Subsequence<T(==)>(a: seq<T>, b: seq<T>)
    decreases |b|
  {
    a == [] || (b != [] && ((a[|a| - 1] == b[|b| - 1] && Subsequence(a[..|a| - 1], b[..|b| - 1]))
                            || Subsequence(a, b[..|b| - 1])))
  }

  /** Every element of a subsequence has its own, later and later, place in the original. */
  lemma {:induction false} PlacesOf<T>(a: seq<T>, b: seq<T>) returns (place: seq<nat>)
    requires Subsequence(a, b)
    ensures |place| == |a|
    ensures forall i :: 0 <= i < |a| ==> place[i] < |b| && b[place[i]] == a[i]
    ensures forall i, j :: 0 <= i < j < |a| ==> place[i] < place[j]
    decreases |b|
  {
    if a == [] {
      place := [];
    } else if a[|a| - 1] == b[|b| - 1] && Subsequence(a[..|a| - 1], b[..|b| - 1]) {
      var p := PlacesOf(a[..|a| - 1], b[..|b| - 1]);
      place := p + [|b| - 1];
    } else {
      place := PlacesOf(a, b[..|b| - 1]);
    }
  }

  predicate Relayed(kind: string) {
    kind == "offer" || kind == "answer" || kind == "ice_candidate" || kind == "media_control"
  }

  predicate Opposite(a: Role, b: Role) {
    (a == Nasabah && b == Agent) || (a == Agent && b == Nasabah)
  }

  /** What is handed to a client on behalf of another comes from its peer in the same session. */
  ghost predicate Legitimate(target: Client, o: Offer) {
    o.from.Some? ==>
      o.from.value != target && o.from.value.session == target.session && Opposite(o.from.value.role, target.role)
  }

  /** What one connection may make another receive: signaling, and an agent's instruction. */
  ghost predicate Permitted(target: Client, o: Offer) {
    o.from.Some? ==>
      Relayed(o.message.kind) || (o.message.kind == "instruction" && o.from.value.role == Agent
          && target.role == Nasabah)
  }

  class Client {
    const session: string
    const queueId: string
    const role: Role
    var queue: seq<Message>
    var done: bool
    ghost var offered: seq<Offer>
    ghost var accepted: seq<Offer>
    ghost var taken: nat

    constructor (session: string, queueId: string, role: Role)
      ensures Valid() && Disciplined() && queue == [] && !done && offered == []
      ensures this.session == session && this.queueId == queueId && this.role == role
    {
      this.session, this.queueId, this.role := session, queueId, role;
      queue, done := [], false;
      offered, accepted, taken := [], [], 0;
    }

    /** The queue holds, in order, the accepted messages not yet taken; accepted is a
        subsequence of offered; everything offered was legitimate. */
    ghost predicate Valid()
      reads this`queue, this`offered, this`accepted, this`taken
    {
      && |queue| <= CAPACITY && taken <= |accepted| && |queue| == |accepted| - taken
      && (forall i :: 0 <= i < |queue| ==> queue[i] == accepted[taken + i].message)
      && Subsequence(accepted, offered)
      && (forall i :: 0 <= i < |offered| ==> Legitimate(this, offered[i]))
    }

    /** Everything offered came in through the dispatch of messages, or from the server. */
    ghost predicate Disciplined()
      reads this`offered
    {
      forall i :: 0 <= i < |offered| ==> Permitted(this, offered[i])
    }

    /** A send that never blocks: with the buffer full the message is dropped. */
    method Send(message: Message, ghost from: Option<Client>)
      requires Valid() && Legitimate(this, Offer(from, message))
      modifies this`queue, this`offered, this`accepted
      ensures Valid()
      ensures queue == if |old(queue)| < CAPACITY then old(queue) + [message] else old(queue)
      ensures offered == old(offered) + [Offer(from, message)]
      ensures accepted == if |old(queue)| < CAPACITY then old(accepted) + [Offer(from, message)] else old(accepted)
    {
      offered := offered + [Offer(from, message)];
      if |queue| < CAPACITY {
        queue := queue + [message];
        accepted := accepted + [Offer(from, message)];
      }
    }

    /** The write pump takes the oldest message. */
    method Take() returns (message: Option<Message>)
      requires Valid()
      modifies this`queue, this`taken
      ensures Valid()
      ensures old(queue) == (if message.Some? then [message.value] else []) + queue
      ensures message.None? <==> old(queue) == []
    {
      if queue == [] {
        return None;
      }
      message := Some(queue[0]);
      queue, taken := queue[1..], taken + 1;
    }

    method Close()
      modifies this`done
      ensures done
    {
      if !done {
        done := true;
      }
    }
  }

  /** No sender receives its own relay: what a client holds on another's behalf came from the
      other role of its own session, and, if it came in by the dispatch and is an instruction,
      from an agent. */
  lemma QueueComesFromThePeer(c: Client, i: nat)
    requires c.Valid() && i < |c.queue|
    ensures var o := c.accepted[c.taken + i];
      && c.queue[i] == o.message
      && (exists k :: 0 <= k < |c.offered| && c.offered[k] == o)
      && (o.from.Some? ==>
            && o.from.value != c && o.from.value.session == c.session && Opposite(o.from.value.role, c.role)
            && (c.Disciplined() && o.message.kind == "instruction" ==> o.from.value.role == Agent && c.role == Nasabah))
  {
    var place := PlacesOf(c.accepted, c.offered);
    var o := c.accepted[c.taken + i];
    assert c.offered[place[c.taken + i]] == o;
    assert Legitimate(c, o) && (c.Disciplined() ==> Permitted(c, o));
    assert !Relayed("instruction") by {
      assert "instruction"[0] == 'i' && "ice_candidate"[1] == 'c' && "instruction"[1] == 'n';
    }
  }
}

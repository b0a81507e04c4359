/** ExecuteTopUp as the service runs it: one call, its early returns and its deferred undo,
    over mutable stores. One call is one run of the machine in which nobody else moves. */
module TopUpService {
  import opened Basics
  import opened TopUpMachine
  import opened TopUpSafety

  /** How each store call of one request goes. */
  datatype Outcomes = Outcomes(claim: Outcome, token: Outcome, inquiry: Outcome, source: Outcome, execute: Outcome,
                               persist: Outcome, release: Outcome, putInquiry: Outcome, putToken: Outcome)

  function Pick(phase: Phase, o: Outcomes): Outcome {
    match phase
    case Fresh => o.claim
    case Claimed => o.token
    case TokenTaken => o.inquiry
    case InquiryTaken => o.source
    case Resolved => o.execute
    case Committed(_) => o.persist
    case Releasing(_) => o.release
    case RestoringInquiry(_) => o.putInquiry
    case RestoringToken(_) => o.putToken
    case Finished(_) => Done
    case Crashed => Done
  }

  /** The longest path through the service makes eight store calls. */
  const MAX_CALLS: nat := 8

  /** Request `r` alone takes its next `n` steps. */
  function Drive(s: State, r: RequestId, o: Outcomes, n: nat): State
    decreases n
  {
    if n == 0 || r !in s.requests then s
    else Drive(Advance(s, r, Pick(s.requests[r].phase, o)), r, o, n - 1)
  }

  function Solo(s: State, r: RequestId, o: Outcomes): State { Drive(s, r, o, MAX_CALLS) }

  /** Driving one request is a run of the machine whose every event is that request's. */
  lemma {:induction false} DriveIsARun(s: State, r: RequestId, o: Outcomes, n: nat) returns (events: seq<Event>)
    ensures Run(s, events) == Drive(s, r, o, n)
    ensures forall i :: 0 <= i < |events| ==> events[i].Act? && events[i].request == r
    decreases n
  {
    if n == 0 || r !in s.requests {
      events := [];
    } else {
      var e := Act(r, Pick(s.requests[r].phase, o));
      var rest := DriveIsARun(Apply(s, e), r, o, n - 1);
      events := [e] + rest;
      assert events[1..] == rest;
    }
  }

  lemma {:induction false} FinishedStays(s: State, r: RequestId, o: Outcomes, n: nat)
    requires r in s.requests && s.requests[r].phase.Finished?
    ensures Drive(s, r, o, n) == s
  {
    if n > 0 {
      FinishedStays(s, r, o, n - 1);
    }
  }

  // --- The undo ---

  /** One driven step, by program point. */
  lemma DriveStep(s: State, r: RequestId, o: Outcomes, n: nat)
    requires r in s.requests && n > 0
    ensures s.requests[r].phase.Fresh? ==> Drive(s, r, o, n) == Drive(AdvanceClaim(s, r, o.claim), r, o, n - 1)
    ensures s.requests[r].phase.Claimed? ==> Drive(s, r, o, n) == Drive(AdvanceToken(s, r, o.token), r, o, n - 1)
    ensures s.requests[r].phase.TokenTaken? ==> Drive(s, r, o, n) == Drive(AdvanceInquiry(s, r, o.inquiry), r, o, n - 1)
    ensures s.requests[r].phase.InquiryTaken? && s.requests[r].heldInquiry.Some? ==>
              Drive(s, r, o, n) == Drive(AdvanceSource(s, r, o.source), r, o, n - 1)
    ensures s.requests[r].phase.Resolved? && s.requests[r].heldInquiry.Some?
            && s.requests[r].heldInquiry.value.source.Some? ==>
              Drive(s, r, o, n) == Drive(AdvanceExecute(s, r, o.execute), r, o, n - 1)
    ensures s.requests[r].phase.Committed? ==> Drive(s, r, o, n) == Drive(AdvancePersist(s, r, o.persist), r, o, n - 1)
    ensures s.requests[r].phase.Releasing? ==> Drive(s, r, o, n) == Drive(AdvanceRelease(s, r, o.release), r, o, n - 1)
    ensures s.requests[r].phase.RestoringInquiry? ==>
              Drive(s, r, o, n) == Drive(AdvanceRestoreInquiry(s, r, o.putInquiry), r, o, n - 1)
    ensures s.requests[r].phase.RestoringToken? ==>
              Drive(s, r, o, n) == Drive(AdvanceRestoreToken(s, r, o.putToken), r, o, n - 1)
  {}

  /** The deferred undo in one piece: release the key, put back what is held and may go back. */
  function Undone(s: State, r: RequestId, error: Error, o: Outcomes): State
    requires r in s.requests
  {
    var q := s.requests[r];
    var putI := q.heldInquiry.Some? && s.now < q.heldInquiry.value.expiresAt && o.putInquiry != Refused;
    var putT := q.heldToken.Some? && o.putToken != Refused;
    s.(idem := if o.release == Refused then s.idem else s.idem - {SlotOf(q)},
       inquiries := if putI then s.inquiries[q.inquiry := Cached(s.keepsSource, q.heldInquiry.value)] else s.inquiries,
       tokens := if putT then s.tokens[q.token := Token(q.user, PURPOSE)] else s.tokens,
       requests := s.requests[r := q.(phase := Finished(Err(error)), heldToken := None, heldInquiry := None)])
  }

  lemma DriveUndo(s: State, r: RequestId, o: Outcomes, n: nat)
    requires r in s.requests && s.requests[r].phase.Releasing? && n >= 3
    ensures Drive(s, r, o, n) == Undone(s, r, s.requests[r].phase.error, o)
  {
    hide Drive;
    var s1 := AdvanceRelease(s, r, o.release);
    var s2 := AdvanceRestoreInquiry(s1, r, o.putInquiry);
    var s3 := AdvanceRestoreToken(s2, r, o.putToken);
    DriveStep(s, r, o, n);
    DriveStep(s1, r, o, n - 1);
    DriveStep(s2, r, o, n - 2);
    FinishedStays(s3, r, o, n - 3);
    assert s3.requests == Undone(s, r, s.requests[r].phase.error, o).requests;
  }

  /** A request about to call the service whose key is free, whose token is live and its own,
      and whose inquiry is live, its own and not past its expiry. */
  predicate ReadyToConsume(s: State, r: RequestId) {
    && r in s.requests
    && var q := s.requests[r];
    && q.phase.Fresh? && q.heldToken.None? && q.heldInquiry.None?
    && SlotOf(q) !in s.idem
    && q.token in s.tokens && s.tokens[q.token] == Token(q.user, PURPOSE)
    && q.inquiry in s.inquiries && s.inquiries[q.inquiry].user == q.user
    && s.inquiries[q.inquiry] == Cached(s.keepsSource, s.inquiries[q.inquiry])
    && s.now < s.inquiries[q.inquiry].expiresAt
  }

  predicate Consumes(o: Outcomes) { o.claim.Done? && o.token.Done? && o.inquiry.Done? }

  predicate UndoWritesSucceed(o: Outcomes) {
    o.release != Refused && o.putInquiry != Refused && o.putToken != Refused
  }

  /** The state in which everything is consumed and the account is about to be resolved. */
  function Consumed(s: State, r: RequestId): State
    requires ReadyToConsume(s, r)
  {
    var q := s.requests[r];
    s.(idem := s.idem[SlotOf(q) := Processing], tokens := s.tokens - {q.token}, inquiries := s.inquiries - {q.inquiry},
       requests := s.requests[r := q.(phase := InquiryTaken, heldToken := Some(s.tokens[q.token]),
                                      heldInquiry := Some(s.inquiries[q.inquiry]))])
  }

  lemma DriveConsume(s: State, r: RequestId, o: Outcomes)
    requires ReadyToConsume(s, r) && Consumes(o)
    ensures Solo(s, r, o) == Drive(Consumed(s, r), r, o, 5)
  {
    hide Drive;
    var s1 := AdvanceClaim(s, r, Done);
    var s2 := AdvanceToken(s1, r, Done);
    var s3 := AdvanceInquiry(s2, r, Done);
    DriveStep(s, r, o, 8);
    DriveStep(s1, r, o, 7);
    DriveStep(s2, r, o, 6);
    assert s3.requests == Consumed(s, r).requests;
  }

  /** Does the call fail after both items were consumed? */
  predicate FailsLate(s: State, r: RequestId, o: Outcomes)
    requires ReadyToConsume(s, r)
  {
    s.inquiries[s.requests[r].inquiry].source.None? || !o.source.Done? || !o.execute.Done?
  }

  /** Undoing a consumption restores all three stores exactly. */
  lemma UndoRestores(s: State, r: RequestId, t: State, error: Error, o: Outcomes)
    requires ReadyToConsume(s, r) && UndoWritesSucceed(o)
    requires r in t.requests && SameCall(s.requests[r], t.requests[r])
    requires t.now == s.now && t.keepsSource == s.keepsSource
    requires t.idem == Consumed(s, r).idem && t.tokens == Consumed(s, r).tokens
             && t.inquiries == Consumed(s, r).inquiries
    requires t.requests[r].heldToken == Some(s.tokens[s.requests[r].token])
    requires t.requests[r].heldInquiry == Some(s.inquiries[s.requests[r].inquiry])
    ensures var u := Undone(t, r, error, o); u.idem == s.idem && u.tokens == s.tokens && u.inquiries == s.inquiries
  {
    var u := Undone(t, r, error, o);
    assert u.idem == s.idem;
    assert u.tokens == s.tokens;
    assert u.inquiries == s.inquiries;
  }

  /** A top-up that fails after its token and its own unexpired inquiry were consumed leaves
      the key, token and inquiry stores exactly as they were. The ledger is as it was too,
      unless the executor committed and its answer was lost. */
  lemma LateFailureRollsBack(s: State, r: RequestId, o: Outcomes)
    requires ReadyToConsume(s, r) && Consumes(o) && UndoWritesSucceed(o) && FailsLate(s, r, o)
    ensures var t := Solo(s, r, o);
      && t.idem == s.idem && t.tokens == s.tokens && t.inquiries == s.inquiries
      && r in t.requests && t.requests[r].phase.Finished? && t.requests[r].phase.result.Err?
      && (t.ledger != s.ledger ==> o.execute.LostReply?)
  {
    hide Drive;
    DriveConsume(s, r, o);
    var c := Consumed(s, r);
    var s4 := AdvanceSource(c, r, o.source);
    DriveStep(c, r, o, 5);
    if s4.requests[r].phase.Resolved? {
      var s5 := AdvanceExecute(s4, r, o.execute);
      DriveStep(s4, r, o, 4);
      DriveUndo(s5, r, o, 3);
      UndoRestores(s, r, s5, s5.requests[r].phase.error, o);
    } else {
      DriveUndo(s4, r, o, 4);
      UndoRestores(s, r, s4, s4.requests[r].phase.error, o);
    }
  }

  /** When nothing fails, the inquiry and the token are spent, the answer is the inquiry's own
      amounts, and the ledger grows by this debit unless this user and key already had one. */
  lemma SoloCommits(s: State, r: RequestId, o: Outcomes)
    requires ReadyToConsume(s, r) && Consumes(o) && !FailsLate(s, r, o)
    ensures var t := Solo(s, r, o);
      var q := s.requests[r];
      var i := s.inquiries[q.inquiry];
      && q.token !in t.tokens && q.inquiry !in t.inquiries
      && r in t.requests && t.requests[r].phase.Finished? && t.requests[r].phase.result.Ok?
      && !t.requests[r].phase.result.replayed
      && t.requests[r].phase.result.response ==
         Response(if HasDebit(s.ledger, q.user, q.key) then ExistingDebit(s.ledger, q.user, q.key).request else r,
                  i.amount, i.fee, i.amount + i.fee)
      && t.idem.Keys == s.idem.Keys + {SlotOf(q)}
      && t.idem[SlotOf(q)] == (if o.persist.Refused? then Processing else Stored(t.requests[r].phase.result.response))
      && t.ledger == if HasDebit(s.ledger, q.user, q.key) then s.ledger
                     else s.ledger + [Debit(r, q.user, q.key, q.token, q.inquiry, i.source.value,
                                            i.amount, i.fee, i.amount + i.fee, true)]
  {
    hide Drive;
    DriveConsume(s, r, o);
    var s4 := AdvanceSource(Consumed(s, r), r, Done);
    var s5 := AdvanceExecute(s4, r, Done);
    var s6 := AdvancePersist(s5, r, o.persist);
    DriveStep(Consumed(s, r), r, o, 5);
    DriveStep(s4, r, o, 4);
    DriveStep(s5, r, o, 3);
    FinishedStays(s6, r, o, 2);
  }

  /** After a success whose response was stored, the same user and key get that response back,
      and nothing moves. */
  lemma RetryReplays(s: State, r: RequestId, o: Outcomes)
    requires r in s.requests && s.requests[r].phase.Fresh? && o.claim.Done?
    requires SlotOf(s.requests[r]) in s.idem && s.idem[SlotOf(s.requests[r])].Stored?
    ensures var t := Solo(s, r, o);
      && t == s.(requests := t.requests) && r in t.requests
      && t.requests[r].phase == Finished(Ok(s.idem[SlotOf(s.requests[r])].response, true))
  {
    hide Drive;
    var s1 := AdvanceClaim(s, r, Done);
    DriveStep(s, r, o, 8);
    FinishedStays(s1, r, o, 7);
  }

  /** The weak spot, for every inquiry: a commit whose answer is lost gives the inquiry and the
      token back, and a retry under another key debits the same inquiry again. */
  lemma LostCommitDebitsTwice(s: State, r: RequestId, o: Outcomes, r2: RequestId, key2: Key, o2: Outcomes)
    requires ReadyToConsume(s, r) && Consumes(o) && UndoWritesSucceed(o)
    requires o.source.Done? && o.execute.LostReply? && s.inquiries[s.requests[r].inquiry].source.Some?
    requires Consumes(o2) && o2.source.Done? && o2.execute.Done?
    requires var q := s.requests[r];
      && r2 !in s.requests && key2 != q.key && (q.user, key2) !in s.idem
      && !HasDebit(s.ledger, q.user, q.key) && !HasDebit(s.ledger, q.user, key2)
    ensures var q := s.requests[r];
      var t := Apply(Solo(s, r, o), Open(r2, q.user, key2, q.token, q.inquiry));
      var u := Solo(t, r2, o2);
      && |u.ledger| == |s.ledger| + 2
      && u.ledger[|s.ledger|].inquiry == u.ledger[|s.ledger| + 1].inquiry == q.inquiry
      && !u.ledger[|s.ledger|].acknowledged
  {
    hide Drive;
    var q := s.requests[r];
    LateFailureRollsBack(s, r, o);
    LostCommitIsInTheLedger(s, r, o);
    DriveKeepsOthers(s, r, o, MAX_CALLS);
    var s' := Solo(s, r, o);
    var t := Apply(s', Open(r2, q.user, key2, q.token, q.inquiry));
    forall i | 0 <= i < |t.ledger| ensures t.ledger[i].user != q.user || t.ledger[i].key != key2 {
      if i < |s.ledger| {
        assert s.ledger[i] == t.ledger[i];
      }
    }
    SoloCommits(t, r2, o2);
  }

  lemma LostCommitIsInTheLedger(s: State, r: RequestId, o: Outcomes)
    requires ReadyToConsume(s, r) && Consumes(o)
    requires o.source.Done? && o.execute.LostReply? && s.inquiries[s.requests[r].inquiry].source.Some?
    requires !HasDebit(s.ledger, s.requests[r].user, s.requests[r].key)
    ensures Solo(s, r, o).ledger == s.ledger + [NewDebit(r, Consumed(s, r).requests[r], false)]
  {
    hide Drive;
    DriveConsume(s, r, o);
    var s4 := AdvanceSource(Consumed(s, r), r, Done);
    var s5 := AdvanceExecute(s4, r, LostReply);
    DriveStep(Consumed(s, r), r, o, 5);
    DriveStep(s4, r, o, 4);
    DriveUndo(s5, r, o, 3);
  }

  lemma {:induction false} DriveKeepsOthers(s: State, r: RequestId, o: Outcomes, n: nat)
    requires r in s.requests
    ensures var t := Drive(s, r, o, n);
      t.requests.Keys == s.requests.Keys && t.now == s.now && t.keepsSource == s.keepsSource
    decreases n
  {
    if n > 0 {
      var o' := Pick(s.requests[r].phase, o);
      DriveKeepsOthers(Advance(s, r, o'), r, o, n - 1);
    }
  }

  // --- The service ---

  /** The undo needs three steps; spare ones change nothing. */
  lemma Padding(t: State, r: RequestId, o: Outcomes, n: nat)
    requires r in t.requests && t.requests[r].phase.Releasing? && n >= 3
    ensures Drive(t, r, o, n) == Drive(t, r, o, 3)
  {
    DriveUndo(t, r, o, n);
    DriveUndo(t, r, o, 3);
  }

  /** The stores behind the service, as it sees them. Each method is one store call; the ghost
      parameters name the machine state and the request it is a step of. */
  class Service {
    const keepsSource: bool
    var now: int
    var idem: map<(UserId, Key), Slot>
    var tokens: map<TokenHash, Token>
    var inquiries: map<InquiryId, Inquiry>
    var ledger: seq<Debit>

    constructor (keepsSource: bool, now: int)
      ensures this.keepsSource == keepsSource && this.now == now && Matches(Initial(keepsSource, now))
    {
      this.keepsSource, this.now := keepsSource, now;
      idem, tokens, inquiries, ledger := map[], map[], map[], [];
    }

    ghost predicate Matches(s: State)
      reads this
    {
      && s.keepsSource == keepsSource && s.now == now
      && s.idem == idem && s.tokens == tokens && s.inquiries == inquiries && s.ledger == ledger
    }

    /** SETNX on the idempotency key: nothing means the claim is this request's. */
    method Claim(user: UserId, key: Key, o: Outcome, ghost s: State, ghost r: RequestId)
        returns (answer: Option<Result>)
      requires Matches(s) && r in s.requests && SlotOf(s.requests[r]) == (user, key)
      modifies this`idem
      ensures Matches(AdvanceClaim(s, r, o))
      ensures AdvanceClaim(s, r, o).requests[r] ==
              s.requests[r].(phase := if answer.Some? then Finished(answer.value) else Claimed)
      ensures answer.None? <==> o.Done? && (user, key) !in old(idem)
      ensures answer == Some(Err(Conflict)) <==>
              o.Done? && (user, key) in old(idem) && old(idem)[(user, key)] == Processing
      ensures (user, key) in old(idem) ==> idem == old(idem)
    {
      if !o.Done? {
        if o.LostReply? && (user, key) !in idem {
          idem := idem[(user, key) := Processing];
        }
        return Some(Err(ClaimFailed));
      }
      if (user, key) in idem {
        match idem[(user, key)]
        case Processing => return Some(Err(Conflict));
        case Stored(response) => return Some(Ok(response, true));
      }
      idem := idem[(user, key) := Processing];
      return None;
    }

    /** GETDEL of the verification token: it is gone from the store whoever it belonged to. */
    method ConsumeToken(user: UserId, token: TokenHash, o: Outcome, ghost s: State, ghost r: RequestId)
      returns (failure: Option<Error>)
      requires Matches(s) && r in s.requests && s.requests[r].user == user && s.requests[r].token == token
      modifies this`tokens
      ensures Matches(AdvanceToken(s, r, o))
      ensures var q, q' := s.requests[r], AdvanceToken(s, r, o).requests[r];
        if failure.Some? then q' == q.(phase := Releasing(failure.value))
        else q' == q.(phase := TokenTaken, heldToken := Some(Token(user, PURPOSE)))
    {
      var found := if token in tokens then Some(tokens[token]) else None;
      if o != Refused {
        tokens := tokens - {token};
      }
      if !o.Done? {
        return Some(TokenFailed);
      }
      if found.None? || found.value.user != user || found.value.purpose != PURPOSE {
        return Some(TokenInvalid);
      }
      return None;
    }

    /** GETDEL of the inquiry. */
    method ConsumeInquiry(user: UserId, inquiry: InquiryId, o: Outcome, ghost s: State, ghost r: RequestId)
      returns (failure: Option<Error>, found: Option<Inquiry>)
      requires Matches(s) && r in s.requests && s.requests[r].user == user && s.requests[r].inquiry == inquiry
      modifies this`inquiries
      ensures Matches(AdvanceInquiry(s, r, o))
      ensures var q, q' := s.requests[r], AdvanceInquiry(s, r, o).requests[r];
        if failure.Some? then q' == q.(phase := Releasing(failure.value))
        else found.Some? && q' == q.(phase := InquiryTaken, heldInquiry := found)
    {
      found := if inquiry in inquiries then Some(inquiries[inquiry]) else None;
      if o != Refused {
        inquiries := inquiries - {inquiry};
      }
      if !o.Done? {
        return Some(InquiryFailed), None;
      }
      if found.None? || found.value.user != user {
        return Some(InquiryExpired), None;
      }
      return None, found;
    }

    /** The account named in the metadata, if there is one and it is the caller's own. */
    method ResolveSource(inquiry: Inquiry, o: Outcome, ghost s: State, ghost r: RequestId)
        returns (failure: Option<Error>)
      requires Matches(s) && r in s.requests && s.requests[r].heldInquiry == Some(inquiry)
      ensures Matches(AdvanceSource(s, r, o))
      ensures failure.None? ==> inquiry.source.Some?
      ensures AdvanceSource(s, r, o).requests[r] ==
              s.requests[r].(phase := if failure.Some? then Releasing(failure.value) else Resolved)
    {
      if inquiry.source.None? {
        return Some(Validation);
      }
      return if o.Done? then None else Some(SourceFailed);
    }

    /** The serializable transaction: one new row, or the row the unique index already has. */
    method Execute(user: UserId, key: Key, row: Debit, o: Outcome, ghost s: State)
      returns (failure: Option<Error>, committed: RequestId)
      requires Matches(s) && row.request in s.requests
      requires var q := s.requests[row.request];
        && q.user == user && q.key == key && q.heldInquiry.Some? && q.heldInquiry.value.source.Some?
        && row == NewDebit(row.request, q, o.Done?)
      modifies this`ledger
      ensures Matches(AdvanceExecute(s, row.request, o))
      ensures var q, q' := s.requests[row.request], AdvanceExecute(s, row.request, o).requests[row.request];
        if failure.Some? then q' == q.(phase := Releasing(failure.value))
        else q' == q.(phase := Committed(Response(committed, row.amount, row.fee, row.total)))
    {
      committed := row.request;
      if o == Refused {
        return Some(ExecutorFailed), committed;
      }
      if HasDebit(ledger, user, key) {
        committed := ExistingDebit(ledger, user, key).request;
      } else {
        ledger := ledger + [row];
      }
      return if o.Done? then None else Some(ExecutorFailed), committed;
    }

    method Persist(user: UserId, key: Key, response: Response, o: Outcome, ghost s: State, ghost r: RequestId)
      requires Matches(s) && r in s.requests && SlotOf(s.requests[r]) == (user, key)
      requires s.requests[r].phase == Committed(response)
      modifies this`idem
      ensures Matches(AdvancePersist(s, r, o))
    {
      if o != Refused {
        idem := idem[(user, key) := Stored(response)];
      }
    }

    method Release(user: UserId, key: Key, o: Outcome, ghost s: State, ghost r: RequestId)
      requires Matches(s) && r in s.requests && SlotOf(s.requests[r]) == (user, key) && s.requests[r].phase.Releasing?
      modifies this`idem
      ensures Matches(AdvanceRelease(s, r, o))
    {
      if o != Refused {
        idem := idem - {(user, key)};
      }
    }

    method PutInquiry(id: InquiryId, inquiry: Inquiry, o: Outcome, ghost s: State, ghost r: RequestId)
      requires Matches(s) && r in s.requests && s.requests[r].phase.RestoringInquiry?
      requires s.requests[r].inquiry == id && s.requests[r].heldInquiry == Some(inquiry) && s.now < inquiry.expiresAt
      modifies this`inquiries
      ensures Matches(AdvanceRestoreInquiry(s, r, o))
    {
      if o != Refused {
        inquiries := inquiries[id := Cached(keepsSource, inquiry)];
      }
    }

    method PutToken(token: TokenHash, user: UserId, o: Outcome, ghost s: State, ghost r: RequestId)
      requires Matches(s) && r in s.requests && s.requests[r].phase.RestoringToken?
      requires s.requests[r].token == token && s.requests[r].user == user && s.requests[r].heldToken.Some?
      modifies this`tokens
      ensures Matches(AdvanceRestoreToken(s, r, o))
    {
      if o != Refused {
        tokens := tokens[token := Token(user, PURPOSE)];
      }
    }

    /** The deferred undo: it runs on every return that leaves the key to be released. */
    method Undo(user: UserId, key: Key, token: TokenHash, inquiry: InquiryId, restoreToken: bool,
                restoreInquiry: Option<Inquiry>, o: Outcomes, ghost error: Error, ghost s: State, ghost r: RequestId)
      requires Matches(s) && r in s.requests && SlotOf(s.requests[r]) == (user, key)
      requires s.requests[r].token == token && s.requests[r].inquiry == inquiry
               && s.requests[r].phase == Releasing(error)
      requires s.requests[r].heldToken.Some? == restoreToken && s.requests[r].heldInquiry == restoreInquiry
      modifies this`idem, this`inquiries, this`tokens
      ensures Matches(Drive(s, r, o, 3)) && r in Drive(s, r, o, 3).requests
      ensures Drive(s, r, o, 3).requests[r].phase == Finished(Err(error))
    {
      hide Drive;
      Release(user, key, o.release, s, r);
      ghost var s1 := AdvanceRelease(s, r, o.release);
      DriveStep(s, r, o, 3);
      if restoreInquiry.Some? && now < restoreInquiry.value.expiresAt {
        PutInquiry(inquiry, restoreInquiry.value, o.putInquiry, s1, r);
      }
      ghost var s2 := AdvanceRestoreInquiry(s1, r, o.putInquiry);
      DriveStep(s1, r, o, 2);
      if restoreToken {
        PutToken(token, user, o.putToken, s2, r);
      }
      DriveStep(s2, r, o, 1);
      FinishedStays(AdvanceRestoreToken(s2, r, o.putToken), r, o, 0);
    }

    /** Everything between the claim and the deferred undo. Returns how far it got: the answer,
        and, if it failed, what is to be put back. */
    method Attempt(user: UserId, key: Key, token: TokenHash, inquiry: InquiryId, transaction: RequestId, o: Outcomes,
                   ghost s: State)
      returns (result: Result, restoreInquiry: Option<Inquiry>, restoreToken: bool, ghost t: State, ghost n: nat)
      requires Matches(s) && transaction in s.requests
      requires s.requests[transaction] == Request(user, key, token, inquiry, Claimed, None, None)
      modifies this`tokens, this`inquiries, this`ledger
      ensures Matches(t) && transaction in t.requests
      ensures t.requests[transaction].heldInquiry == restoreInquiry
              && t.requests[transaction].heldToken.Some? == restoreToken
      ensures SameCall(s.requests[transaction], t.requests[transaction])
      ensures t.requests[transaction].phase ==
              match result case Err(e) => Releasing(e) case Ok(response, _) => Committed(response)
      ensures result.Ok? ==> !result.replayed
      ensures n >= 3 && Drive(s, transaction, o, 7) == Drive(t, transaction, o, n)
    {
      hide Drive, AdvanceToken, AdvanceInquiry, AdvanceSource, AdvanceExecute, Matches;
      restoreInquiry, restoreToken := None, false;
      var tokenFailure := ConsumeToken(user, token, o.token, s, transaction);
      t, n := AdvanceToken(s, transaction, o.token), 6;
      DriveStep(s, transaction, o, 7);
      if tokenFailure.Some? {
        return Err(tokenFailure.value), restoreInquiry, restoreToken, t, n;
      }
      restoreToken := true;
      var inquiryFailure, found := ConsumeInquiry(user, inquiry, o.inquiry, t, transaction);
      DriveStep(t, transaction, o, 6);
      t, n := AdvanceInquiry(t, transaction, o.inquiry), 5;
      if inquiryFailure.Some? {
        return Err(inquiryFailure.value), restoreInquiry, restoreToken, t, n;
      }
      restoreInquiry := found;
      var sourceFailure := ResolveSource(found.value, o.source, t, transaction);
      DriveStep(t, transaction, o, 5);
      t, n := AdvanceSource(t, transaction, o.source), 4;
      if sourceFailure.Some? {
        return Err(sourceFailure.value), restoreInquiry, restoreToken, t, n;
      }
      var amount, fee := found.value.amount, found.value.fee;
      var row := Debit(transaction, user, key, token, inquiry, found.value.source.value, amount, fee, amount + fee,
                       o.execute.Done?);
      var executeFailure, committed := Execute(user, key, row, o.execute, t);
      DriveStep(t, transaction, o, 4);
      t, n := AdvanceExecute(t, transaction, o.execute), 3;
      if executeFailure.Some? {
        return Err(executeFailure.value), restoreInquiry, restoreToken, t, n;
      }
      return Ok(Response(committed, amount, fee, amount + fee), false), restoreInquiry, restoreToken, t, n;
    }

    /** The whole call. The stores end where the machine's run of this one request ends, and
        the answer is the one the machine gives. */
    method ExecuteTopUp(user: UserId, key: Key, token: TokenHash, inquiry: InquiryId, transaction: RequestId,
                        o: Outcomes, ghost s: State)
      returns (result: Result)
      requires Matches(s) && transaction in s.requests
      requires s.requests[transaction] == NewRequest(user, key, token, inquiry)
      modifies this`idem, this`tokens, this`inquiries, this`ledger
      ensures Matches(Solo(s, transaction, o))
      ensures transaction in Solo(s, transaction, o).requests
      ensures Solo(s, transaction, o).requests[transaction].phase == Finished(result)
      ensures o.claim.Done? && (user, key) in old(idem) && old(idem)[(user, key)] == Processing ==>
                result == Err(Conflict) && idem == old(idem) && tokens == old(tokens) && inquiries == old(inquiries)
                && ledger == old(ledger)
    {
      hide Drive, AdvanceClaim, Matches;
      var answered := Claim(user, key, o.claim, s, transaction);
      ghost var c := AdvanceClaim(s, transaction, o.claim);
      DriveStep(s, transaction, o, 8);
      if answered.Some? {
        FinishedStays(c, transaction, o, 7);
        return answered.value;
      }
      var restoreInquiry, restoreToken;
      ghost var t, n;
      result, restoreInquiry, restoreToken, t, n := Attempt(user, key, token, inquiry, transaction, o, c);
      if result.Err? {
        Undo(user, key, token, inquiry, restoreToken, restoreInquiry, o, result.error, t, transaction);
        Padding(t, transaction, o, n);
      } else {
        Persist(user, key, result.response, o.persist, t, transaction);
        DriveStep(t, transaction, o, n);
        FinishedStays(AdvancePersist(t, transaction, o.persist), transaction, o, n - 1);
      }
    }
  }
}

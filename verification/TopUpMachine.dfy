/** The e-wallet top-up protocol as a machine of atomic store calls.

    Any number of requests run interleaved. Each walks through claim, consume token,
    consume inquiry, resolve the account, execute, and then persist or undo; one event
    is one call to one store, and the environment decides how that call goes. */
module TopUpMachine {
  import opened Basics

  type UserId = string
  type Key = string
  type TokenHash = string
  type InquiryId = string
  type AccountId = string
  type RequestId = nat

  const PURPOSE := "EWALLET_TOPUP"

  datatype Token = Token(user: UserId, purpose: string)

  /** `source` is the account id carried in the inquiry's metadata map. */
  datatype Inquiry = Inquiry(user: UserId, amount: int, fee: int, expiresAt: int, source: Option<AccountId>)

  datatype Response = Response(transaction: RequestId, amount: int, fee: int, total: int)

  datatype Slot = Processing | Stored(response: Response)

  datatype Error = ClaimFailed | Conflict | TokenFailed | TokenInvalid | InquiryFailed | InquiryExpired
                 | Validation | SourceFailed | ExecutorFailed

  datatype Result = Ok(response: Response, replayed: bool) | Err(error: Error)

  datatype Phase =
    | Fresh
    | Claimed
    | TokenTaken
    | InquiryTaken
    | Resolved
    | Committed(response: Response)
    | Releasing(error: Error)
    | RestoringInquiry(error: Error)
    | RestoringToken(error: Error)
    | Finished(result: Result)
    | Crashed

  /** One call of the service. `token` and `inquiry` are what the body names; `heldToken`
      and `heldInquiry` are what was consumed for it and neither given back nor lost. */
  datatype Request = Request(user: UserId, key: Key, token: TokenHash, inquiry: InquiryId,
                             phase: Phase, heldToken: Option<Token>, heldInquiry: Option<Inquiry>)

  /** A committed row of the transactions table. `acknowledged` records whether the
      executor's success reached the service. */
  datatype Debit = Debit(request: RequestId, user: UserId, key: Key, token: TokenHash, inquiry: InquiryId,
                         source: AccountId, amount: int, fee: int, total: int, acknowledged: bool)

  /** `issued` remembers every inquiry as CreateInquiry computed it and `minted` every
      verification token ever stored; the code keeps neither. `keepsSource` says whether the
      inquiry cache stores the metadata map. */
  datatype State = State(
    keepsSource: bool,
    now: int,
    idem: map<(UserId, Key), Slot>,
    tokens: map<TokenHash, Token>,
    inquiries: map<InquiryId, Inquiry>,
    ledger: seq<Debit>,
    requests: map<RequestId, Request>,
    issued: map<InquiryId, Inquiry>,
    minted: set<TokenHash>)

  // --- What the stores do ---

  /** What comes back from an inquiry that went through the cache. */
  function Cached(keepsSource: bool, inquiry: Inquiry): Inquiry {
    if keepsSource then inquiry else inquiry.(source := None)
  }

  /** The row the unique index on (user_id, idempotency_key) would collide with. */
  predicate HasDebit(ledger: seq<Debit>, user: UserId, key: Key) {
    exists i :: 0 <= i < |ledger| && ledger[i].user == user && ledger[i].key == key
  }

  function ExistingDebit(ledger: seq<Debit>, user: UserId, key: Key): (d: Debit)
    requires HasDebit(ledger, user, key)
    ensures d in ledger && d.user == user && d.key == key
  {
    if ledger[0].user == user && ledger[0].key == key then ledger[0]
    else
      assert HasDebit(ledger[1..], user, key) by {
        var i :| 0 <= i < |ledger| && ledger[i].user == user && ledger[i].key == key;
        assert ledger[1..][i - 1] == ledger[i];
      }
      ExistingDebit(ledger[1..], user, key)
  }

  function SlotOf(q: Request): (UserId, Key) { (q.user, q.key) }

  // --- One store call of one request ---

  function AdvanceClaim(s: State, r: RequestId, o: Outcome): (t: State)
    requires r in s.requests
    ensures t.ledger == s.ledger && t.requests.Keys == s.requests.Keys && t.now == s.now
            && t.keepsSource == s.keepsSource
  {
    var q := s.requests[r];
    var slot := SlotOf(q);
    match o
    case Refused => s.(requests := s.requests[r := q.(phase := Finished(Err(ClaimFailed)))])
    case LostReply =>
      s.(requests := s.requests[r := q.(phase := Finished(Err(ClaimFailed)))],
         idem := if slot in s.idem then s.idem else s.idem[slot := Processing])
    case Done =>
      if slot !in s.idem then
        s.(requests := s.requests[r := q.(phase := Claimed)], idem := s.idem[slot := Processing])
      else
        var result := match s.idem[slot]
          case Processing => Err(Conflict)
          case Stored(response) => Ok(response, true);
        s.(requests := s.requests[r := q.(phase := Finished(result))])
  }

  function AdvanceToken(s: State, r: RequestId, o: Outcome): (t: State)
    requires r in s.requests
    ensures t.ledger == s.ledger && t.requests.Keys == s.requests.Keys && t.now == s.now
            && t.keepsSource == s.keepsSource
  {
    var q := s.requests[r];
    match o
    case Refused => s.(requests := s.requests[r := q.(phase := Releasing(TokenFailed))])
    case LostReply =>
      s.(requests := s.requests[r := q.(phase := Releasing(TokenFailed))], tokens := s.tokens - {q.token})
    case Done =>
      if q.token in s.tokens && s.tokens[q.token] == Token(q.user, PURPOSE) then
        s.(requests := s.requests[r := q.(phase := TokenTaken, heldToken := Some(s.tokens[q.token]))],
           tokens := s.tokens - {q.token})
      else
        s.(requests := s.requests[r := q.(phase := Releasing(TokenInvalid))], tokens := s.tokens - {q.token})
  }

  function AdvanceInquiry(s: State, r: RequestId, o: Outcome): (t: State)
    requires r in s.requests
    ensures t.ledger == s.ledger && t.requests.Keys == s.requests.Keys && t.now == s.now
            && t.keepsSource == s.keepsSource
  {
    var q := s.requests[r];
    match o
    case Refused => s.(requests := s.requests[r := q.(phase := Releasing(InquiryFailed))])
    case LostReply =>
      s.(requests := s.requests[r := q.(phase := Releasing(InquiryFailed))], inquiries := s.inquiries - {q.inquiry})
    case Done =>
      if q.inquiry in s.inquiries && s.inquiries[q.inquiry].user == q.user then
        s.(requests := s.requests[r := q.(phase := InquiryTaken, heldInquiry := Some(s.inquiries[q.inquiry]))],
           inquiries := s.inquiries - {q.inquiry})
      else
        s.(requests := s.requests[r := q.(phase := Releasing(InquiryExpired))],
           inquiries := s.inquiries - {q.inquiry})
  }

  /** `Done`: the source account is the caller's own. Both other outcomes end in the undo. */
  function AdvanceSource(s: State, r: RequestId, o: Outcome): (t: State)
    requires r in s.requests && s.requests[r].heldInquiry.Some?
    ensures t.ledger == s.ledger && t.requests.Keys == s.requests.Keys && t.now == s.now
            && t.keepsSource == s.keepsSource
  {
    var q := s.requests[r];
    var phase :=
      if q.heldInquiry.value.source.None? then Releasing(Validation)
      else if o != Done then Releasing(SourceFailed)
      else Resolved;
    s.(requests := s.requests[r := q.(phase := phase)])
  }

  function NewDebit(r: RequestId, q: Request, acknowledged: bool): Debit
    requires q.heldInquiry.Some? && q.heldInquiry.value.source.Some?
  {
    var i := q.heldInquiry.value;
    Debit(r, q.user, q.key, q.token, q.inquiry, i.source.value, i.amount, i.fee, i.amount + i.fee, acknowledged)
  }

  /** The executor inserts one row, or finds the row of the same user and key and answers
      that transaction without moving money. */
  function AdvanceExecute(s: State, r: RequestId, o: Outcome): (t: State)
    requires r in s.requests && s.requests[r].heldInquiry.Some? && s.requests[r].heldInquiry.value.source.Some?
    ensures s.ledger <= t.ledger && t.requests.Keys == s.requests.Keys && t.now == s.now
            && t.keepsSource == s.keepsSource
  {
    var q := s.requests[r];
    var i := q.heldInquiry.value;
    var known := HasDebit(s.ledger, q.user, q.key);
    match o
    case Refused => s.(requests := s.requests[r := q.(phase := Releasing(ExecutorFailed))])
    case LostReply =>
      s.(requests := s.requests[r := q.(phase := Releasing(ExecutorFailed))],
         ledger := if known then s.ledger else s.ledger + [NewDebit(r, q, false)])
    case Done =>
      var transaction := if known then ExistingDebit(s.ledger, q.user, q.key).request else r;
      s.(requests := s.requests[r := q.(phase := Committed(Response(transaction, i.amount, i.fee, i.amount + i.fee)))],
         ledger := if known then s.ledger else s.ledger + [NewDebit(r, q, true)])
  }

  function AdvancePersist(s: State, r: RequestId, o: Outcome): (t: State)
    requires r in s.requests && s.requests[r].phase.Committed?
    ensures t.ledger == s.ledger && t.requests.Keys == s.requests.Keys && t.now == s.now
            && t.keepsSource == s.keepsSource
  {
    var q := s.requests[r];
    s.(requests := s.requests[r := q.(phase := Finished(Ok(q.phase.response, false)))],
       idem := if o == Refused then s.idem else s.idem[SlotOf(q) := Stored(q.phase.response)])
  }

  function AdvanceRelease(s: State, r: RequestId, o: Outcome): (t: State)
    requires r in s.requests && s.requests[r].phase.Releasing?
    ensures t.ledger == s.ledger && t.requests.Keys == s.requests.Keys && t.now == s.now
            && t.keepsSource == s.keepsSource
  {
    var q := s.requests[r];
    s.(requests := s.requests[r := q.(phase := RestoringInquiry(q.phase.error))],
       idem := if o == Refused then s.idem else s.idem - {SlotOf(q)})
  }

  function AdvanceRestoreInquiry(s: State, r: RequestId, o: Outcome): (t: State)
    requires r in s.requests && s.requests[r].phase.RestoringInquiry?
    ensures t.ledger == s.ledger && t.requests.Keys == s.requests.Keys && t.now == s.now
            && t.keepsSource == s.keepsSource
  {
    var q := s.requests[r];
    var store := q.heldInquiry.Some? && s.now < q.heldInquiry.value.expiresAt && o != Refused;
    s.(requests := s.requests[r := q.(phase := RestoringToken(q.phase.error), heldInquiry := None)],
       inquiries := if store then s.inquiries[q.inquiry := Cached(s.keepsSource, q.heldInquiry.value)] else s.inquiries)
  }

  function AdvanceRestoreToken(s: State, r: RequestId, o: Outcome): (t: State)
    requires r in s.requests && s.requests[r].phase.RestoringToken?
    ensures t.ledger == s.ledger && t.requests.Keys == s.requests.Keys && t.now == s.now
            && t.keepsSource == s.keepsSource
  {
    var q := s.requests[r];
    var store := q.heldToken.Some? && o != Refused;
    s.(requests := s.requests[r := q.(phase := Finished(Err(q.phase.error)), heldToken := None)],
       tokens := if store then s.tokens[q.token := Token(q.user, PURPOSE)] else s.tokens)
  }

  /** The next store call of request `r`; nothing when it has none left. */
  function Advance(s: State, r: RequestId, o: Outcome): State {
    if r !in s.requests then s
    else
      var q := s.requests[r];
      match q.phase
      case Fresh => AdvanceClaim(s, r, o)
      case Claimed => AdvanceToken(s, r, o)
      case TokenTaken => AdvanceInquiry(s, r, o)
      case InquiryTaken => if q.heldInquiry.Some? then AdvanceSource(s, r, o) else s
      case Resolved =>
        if q.heldInquiry.Some? && q.heldInquiry.value.source.Some? then AdvanceExecute(s, r, o) else s
      case Committed(_) => AdvancePersist(s, r, o)
      case Releasing(_) => AdvanceRelease(s, r, o)
      case RestoringInquiry(_) => AdvanceRestoreInquiry(s, r, o)
      case RestoringToken(_) => AdvanceRestoreToken(s, r, o)
      case Finished(_) => s
      case Crashed => s
  }

  // --- Everything that can happen ---

  /** `Crash` is the process dying in the middle of a request: no undo runs. The three
      `Lapse` events are time-to-live expiry or eviction, possible at any moment. */
  datatype Event =
    | Act(request: RequestId, outcome: Outcome)
    | Open(request: RequestId, user: UserId, key: Key, token: TokenHash, inquiry: InquiryId)
    | Crash(request: RequestId)
    | Mint(token: TokenHash, value: Token)
    | CreateInquiry(inquiry: InquiryId, offer: Inquiry)
    | LapseSlot(slot: (UserId, Key))
    | LapseToken(token: TokenHash)
    | LapseInquiry(inquiry: InquiryId)
    | Tick(now: int)

  function NewRequest(user: UserId, key: Key, token: TokenHash, inquiry: InquiryId): Request {
    Request(user, key, token, inquiry, Fresh, None, None)
  }

  /** The events that are not a step of a running request. */
  function Environment(s: State, e: Event): (t: State)
    requires !e.Act?
    ensures t.ledger == s.ledger && t.keepsSource == s.keepsSource
  {
    match e
    case Open(r, user, key, token, inquiry) =>
      if r in s.requests then s else s.(requests := s.requests[r := NewRequest(user, key, token, inquiry)])
    case Crash(r) =>
      if r in s.requests && !s.requests[r].phase.Finished?
      then s.(requests := s.requests[r := s.requests[r].(phase := Crashed)]) else s
    case Mint(h, v) =>
      if h in s.minted then s else s.(tokens := s.tokens[h := v], minted := s.minted + {h})
    case CreateInquiry(id, offer) =>
      if id in s.issued then s
      else s.(inquiries := s.inquiries[id := Cached(s.keepsSource, offer)], issued := s.issued[id := offer])
    case LapseSlot(slot) => s.(idem := s.idem - {slot})
    case LapseToken(h) => s.(tokens := s.tokens - {h})
    case LapseInquiry(id) => s.(inquiries := s.inquiries - {id})
    case Tick(t) => s.(now := if t > s.now then t else s.now)
  }

  function Apply(s: State, e: Event): State {
    if e.Act? then Advance(s, e.request, e.outcome) else Environment(s, e)
  }

  /** The ledger is append-only over every run. */
  function Run(s: State, events: seq<Event>): (t: State)
    ensures s.ledger <= t.ledger && t.keepsSource == s.keepsSource
    decreases |events|
  {
    if events == [] then s else Run(Apply(s, events[0]), events[1..])
  }

  function Initial(keepsSource: bool, now: int): State {
    State(keepsSource, now, map[], map[], map[], [], map[], map[], {})
  }
}

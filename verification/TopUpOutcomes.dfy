/** What one top-up answers and leaves behind, read off the stores it finds: the eight store calls and
    the undo are summed up by five conditions. And who else can be at work on a key meanwhile. */
module TopUpOutcomes {
  import opened Basics
  import opened TopUpMachine
  import opened TopUpService

  predicate IsNew(s: State, r: RequestId) {
    r in s.requests && s.requests[r].phase.Fresh? && s.requests[r].heldToken.None? && s.requests[r].heldInquiry.None?
  }

  /** The key was free and its claim is answered. */
  predicate Opens(s: State, q: Request, o: Outcomes) { o.claim.Done? && SlotOf(q) !in s.idem }

  /** The token is there, the caller's, and for this purpose. */
  predicate OwnToken(s: State, q: Request) { q.token in s.tokens && s.tokens[q.token] == Token(q.user, PURPOSE) }

  predicate OwnInquiry(s: State, q: Request) { q.inquiry in s.inquiries && s.inquiries[q.inquiry].user == q.user }

  predicate TakesToken(s: State, q: Request, o: Outcomes) { Opens(s, q, o) && o.token.Done? && OwnToken(s, q) }

  predicate TakesInquiry(s: State, q: Request, o: Outcomes) {
    TakesToken(s, q, o) && o.inquiry.Done? && OwnInquiry(s, q)
  }

  /** The inquiry names a source account and it is the caller's. */
  predicate Resolves(s: State, q: Request, o: Outcomes) {
    TakesInquiry(s, q, o) && s.inquiries[q.inquiry].source.Some? && o.source.Done?
  }

  predicate Succeeds(s: State, q: Request, o: Outcomes) { Resolves(s, q, o) && o.execute.Done? }

  // --- Where a call stops ---

  /** The key after a failure: free again if the release takes. */
  function Freed(s: State, q: Request, o: Outcomes): map<(UserId, Key), Slot> {
    if o.release.Refused? then s.idem[SlotOf(q) := Processing] else s.idem
  }

  /** The inquiries after one that was taken was to be put back. */
  function PutBack(s: State, q: Request, o: Outcomes): map<InquiryId, Inquiry>
    requires q.inquiry in s.inquiries
  {
    if s.now < s.inquiries[q.inquiry].expiresAt && !o.putInquiry.Refused?
    then s.inquiries[q.inquiry := Cached(s.keepsSource, s.inquiries[q.inquiry])]
    else s.inquiries - {q.inquiry}
  }

  /** And the tokens. */
  function TokenBack(s: State, q: Request, o: Outcomes): map<TokenHash, Token> {
    if o.putToken.Refused? then s.tokens - {q.token} else s.tokens
  }

  predicate Fails(s: State, r: RequestId, o: Outcomes, error: Error, tokens: map<TokenHash, Token>,
                  inquiries: map<InquiryId, Inquiry>, ledger: seq<Debit>)
    requires r in s.requests
  {
    var t := Solo(s, r, o);
    && r in t.requests && t.requests[r].phase == Finished(Err(error)) && t.idem == Freed(s, s.requests[r], o)
    && t.tokens == tokens && t.inquiries == inquiries && t.ledger == ledger
  }

  lemma StopsAtClaim(s: State, r: RequestId, o: Outcomes)
    requires IsNew(s, r) && !Opens(s, s.requests[r], o)
    ensures Solo(s, r, o) == AdvanceClaim(s, r, o.claim)
  {
    hide Drive;
    DriveStep(s, r, o, 8);
    FinishedStays(AdvanceClaim(s, r, o.claim), r, o, 7);
  }

  function AfterClaim(s: State, r: RequestId): (t: State)
    requires IsNew(s, r)
    ensures r in t.requests
  {
    var q := s.requests[r];
    s.(idem := s.idem[SlotOf(q) := Processing], requests := s.requests[r := q.(phase := Claimed)])
  }

  lemma GoesOnFromClaim(s: State, r: RequestId, o: Outcomes)
    requires IsNew(s, r) && Opens(s, s.requests[r], o)
    ensures Solo(s, r, o) == Drive(AdvanceToken(AfterClaim(s, r), r, o.token), r, o, 6)
  {
    hide Drive;
    DriveStep(s, r, o, 8);
    DriveStep(AfterClaim(s, r), r, o, 7);
  }

  /** What the undo leaves of the stores the call found. */
  lemma UndoLeaves(s: State, r: RequestId, o: Outcomes, t: State, n: nat)
    requires IsNew(s, r) && SlotOf(s.requests[r]) !in s.idem && n >= 3
    requires Solo(s, r, o) == Drive(t, r, o, n)
    requires r in t.requests && t.requests[r].phase.Releasing? && t.now == s.now && t.keepsSource == s.keepsSource
    requires SlotOf(t.requests[r]) == SlotOf(s.requests[r]) && t.idem == s.idem[SlotOf(s.requests[r]) := Processing]
    ensures var u := Undone(t, r, t.requests[r].phase.error, o);
      Fails(s, r, o, t.requests[r].phase.error, u.tokens, u.inquiries, t.ledger)
  {
    hide Drive;
    DriveUndo(t, r, o, n);
    assert s.idem[SlotOf(s.requests[r]) := Processing] - {SlotOf(s.requests[r])} == s.idem;
  }

  lemma StopsAtToken(s: State, r: RequestId, o: Outcomes)
    requires IsNew(s, r) && Opens(s, s.requests[r], o) && !TakesToken(s, s.requests[r], o)
    ensures Fails(s, r, o, if o.token.Done? then TokenInvalid else TokenFailed,
                  if o.token.Refused? then s.tokens else s.tokens - {s.requests[r].token}, s.inquiries, s.ledger)
  {
    hide Drive, Solo, Fails;
    GoesOnFromClaim(s, r, o);
    UndoLeaves(s, r, o, AdvanceToken(AfterClaim(s, r), r, o.token), 6);
  }

  /** The call has its token. */
  function AfterToken(s: State, r: RequestId): (t: State)
    requires IsNew(s, r) && s.requests[r].token in s.tokens
    ensures r in t.requests
  {
    var q := s.requests[r];
    s.(idem := s.idem[SlotOf(q) := Processing], tokens := s.tokens - {q.token},
       requests := s.requests[r := q.(phase := TokenTaken, heldToken := Some(s.tokens[q.token]))])
  }

  lemma GoesOnFromToken(s: State, r: RequestId, o: Outcomes)
    requires IsNew(s, r) && TakesToken(s, s.requests[r], o)
    ensures Solo(s, r, o) == Drive(AdvanceInquiry(AfterToken(s, r), r, o.inquiry), r, o, 5)
  {
    hide Drive, Solo;
    GoesOnFromClaim(s, r, o);
    var q := s.requests[r];
    var t := AdvanceToken(AfterClaim(s, r), r, Done);
    assert t.requests == AfterToken(s, r).requests;
    DriveStep(AfterToken(s, r), r, o, 6);
  }

  lemma StopsAtInquiry(s: State, r: RequestId, o: Outcomes)
    requires IsNew(s, r) && TakesToken(s, s.requests[r], o) && !TakesInquiry(s, s.requests[r], o)
    ensures Fails(s, r, o, if o.inquiry.Done? then InquiryExpired else InquiryFailed, TokenBack(s, s.requests[r], o),
                  if o.inquiry.Refused? then s.inquiries else s.inquiries - {s.requests[r].inquiry}, s.ledger)
  {
    hide Drive, Solo, Fails;
    GoesOnFromToken(s, r, o);
    var q := s.requests[r];
    assert (s.tokens - {q.token})[q.token := s.tokens[q.token]] == s.tokens;
    UndoLeaves(s, r, o, AdvanceInquiry(AfterToken(s, r), r, o.inquiry), 5);
  }

  /** The call has both. */
  function AfterInquiry(s: State, r: RequestId): (t: State)
    requires IsNew(s, r) && s.requests[r].token in s.tokens && s.requests[r].inquiry in s.inquiries
    ensures r in t.requests
  {
    var q := s.requests[r];
    s.(idem := s.idem[SlotOf(q) := Processing], tokens := s.tokens - {q.token}, inquiries := s.inquiries - {q.inquiry},
       requests := s.requests[r := q.(phase := InquiryTaken, heldToken := Some(s.tokens[q.token]),
                                      heldInquiry := Some(s.inquiries[q.inquiry]))])
  }

  lemma GoesOnFromInquiry(s: State, r: RequestId, o: Outcomes)
    requires IsNew(s, r) && TakesInquiry(s, s.requests[r], o)
    ensures Solo(s, r, o) == Drive(AdvanceSource(AfterInquiry(s, r), r, o.source), r, o, 4)
  {
    hide Drive, Solo;
    GoesOnFromToken(s, r, o);
    var t := AdvanceInquiry(AfterToken(s, r), r, Done);
    assert t.requests == AfterInquiry(s, r).requests;
    DriveStep(AfterInquiry(s, r), r, o, 5);
  }

  lemma UndoPutsBack(s: State, r: RequestId, o: Outcomes, t: State, n: nat)
    requires IsNew(s, r) && TakesInquiry(s, s.requests[r], o) && n >= 3
    requires Solo(s, r, o) == Drive(t, r, o, n)
    requires r in t.requests && t.requests[r].phase.Releasing?
    requires t.requests[r] == AfterInquiry(s, r).requests[r].(phase := t.requests[r].phase)
    requires t == AfterInquiry(s, r).(requests := t.requests, ledger := t.ledger)
    ensures Fails(s, r, o, t.requests[r].phase.error, TokenBack(s, s.requests[r], o), PutBack(s, s.requests[r], o),
                  t.ledger)
  {
    hide Drive, Solo, Fails;
    var q := s.requests[r];
    UndoLeaves(s, r, o, t, n);
    assert (s.tokens - {q.token})[q.token := s.tokens[q.token]] == s.tokens;
    var held := Cached(s.keepsSource, s.inquiries[q.inquiry]);
    assert (s.inquiries - {q.inquiry})[q.inquiry := held] == s.inquiries[q.inquiry := held];
  }

  lemma StopsAtSource(s: State, r: RequestId, o: Outcomes)
    requires IsNew(s, r) && TakesInquiry(s, s.requests[r], o) && !Resolves(s, s.requests[r], o)
    ensures Fails(s, r, o, if s.inquiries[s.requests[r].inquiry].source.None? then Validation else SourceFailed,
                  TokenBack(s, s.requests[r], o), PutBack(s, s.requests[r], o), s.ledger)
  {
    hide Drive, Solo, Fails, TokenBack, PutBack;
    GoesOnFromInquiry(s, r, o);
    UndoPutsBack(s, r, o, AdvanceSource(AfterInquiry(s, r), r, o.source), 4);
  }

  lemma GoesOnFromSource(s: State, r: RequestId, o: Outcomes)
    requires IsNew(s, r) && Resolves(s, s.requests[r], o)
    ensures var t := AdvanceSource(AfterInquiry(s, r), r, Done);
      && r in t.requests && t.requests[r] == AfterInquiry(s, r).requests[r].(phase := Resolved)
      && t == AfterInquiry(s, r).(requests := t.requests)
      && Solo(s, r, o) == Drive(AdvanceExecute(t, r, o.execute), r, o, 3)
  {
    hide Drive, Solo;
    GoesOnFromInquiry(s, r, o);
    DriveStep(AdvanceSource(AfterInquiry(s, r), r, Done), r, o, 4);
  }

  /** The ledger after the executor has taken effect: one more debit, unless the key has one. */
  function Debited(s: State, r: RequestId, o: Outcomes): seq<Debit>
    requires IsNew(s, r) && Resolves(s, s.requests[r], o)
  {
    var q := s.requests[r];
    var i := s.inquiries[q.inquiry];
    if o.execute.Refused? || HasDebit(s.ledger, q.user, q.key) then s.ledger
    else s.ledger + [Debit(r, q.user, q.key, q.token, q.inquiry, i.source.value, i.amount, i.fee, i.amount + i.fee,
                           o.execute.Done?)]
  }

  /** The amounts of the inquiry, under the name of the key's debit. */
  function Answered(s: State, r: RequestId): Response
    requires IsNew(s, r) && s.requests[r].inquiry in s.inquiries
  {
    var q := s.requests[r];
    var i := s.inquiries[q.inquiry];
    Response(if HasDebit(s.ledger, q.user, q.key) then ExistingDebit(s.ledger, q.user, q.key).request else r,
             i.amount, i.fee, i.amount + i.fee)
  }

  lemma StopsAtExecute(s: State, r: RequestId, o: Outcomes)
    requires IsNew(s, r) && Resolves(s, s.requests[r], o) && !Succeeds(s, s.requests[r], o)
    ensures Fails(s, r, o, ExecutorFailed, TokenBack(s, s.requests[r], o), PutBack(s, s.requests[r], o),
                  Debited(s, r, o))
  {
    hide Drive, Solo, Fails, TokenBack, PutBack, HasDebit;
    GoesOnFromSource(s, r, o);
    var t := AdvanceSource(AfterInquiry(s, r), r, Done);
    UndoPutsBack(s, r, o, AdvanceExecute(t, r, o.execute), 3);
  }

  lemma GoesThrough(s: State, r: RequestId, o: Outcomes)
    requires IsNew(s, r) && Succeeds(s, s.requests[r], o)
    ensures var q := s.requests[r];
      var t := Solo(s, r, o);
      && r in t.requests && t.requests[r].phase == Finished(Ok(Answered(s, r), false))
      && t.idem == s.idem[SlotOf(q) := if o.persist.Refused? then Processing else Stored(Answered(s, r))]
      && t.tokens == s.tokens - {q.token} && t.inquiries == s.inquiries - {q.inquiry} && t.ledger == Debited(s, r, o)
  {
    hide Drive, Solo, HasDebit;
    GoesOnFromSource(s, r, o);
    var t := AdvanceSource(AfterInquiry(s, r), r, Done);
    var u := AdvanceExecute(t, r, Done);
    DriveStep(u, r, o, 3);
    FinishedStays(AdvancePersist(u, r, o.persist), r, o, 2);
  }

  /** Every call ends in one of these ways. */
  lemma Stops(s: State, r: RequestId, o: Outcomes)
    requires IsNew(s, r)
    ensures var q := s.requests[r];
      if !Opens(s, q, o) then Solo(s, r, o) == AdvanceClaim(s, r, o.claim)
      else if !TakesToken(s, q, o) then
        Fails(s, r, o, if o.token.Done? then TokenInvalid else TokenFailed,
              if o.token.Refused? then s.tokens else s.tokens - {q.token}, s.inquiries, s.ledger)
      else if !TakesInquiry(s, q, o) then
        Fails(s, r, o, if o.inquiry.Done? then InquiryExpired else InquiryFailed, TokenBack(s, q, o),
              if o.inquiry.Refused? then s.inquiries else s.inquiries - {q.inquiry}, s.ledger)
      else if !Resolves(s, q, o) then
        Fails(s, r, o, if s.inquiries[q.inquiry].source.None? then Validation else SourceFailed, TokenBack(s, q, o),
              PutBack(s, q, o), s.ledger)
      else if !Succeeds(s, q, o) then
        Fails(s, r, o, ExecutorFailed, TokenBack(s, q, o), PutBack(s, q, o), Debited(s, r, o))
      else
        var t := Solo(s, r, o);
        && r in t.requests && t.requests[r].phase == Finished(Ok(Answered(s, r), false))
        && t.idem == s.idem[SlotOf(q) := if o.persist.Refused? then Processing else Stored(Answered(s, r))]
        && t.tokens == s.tokens - {q.token} && t.inquiries == s.inquiries - {q.inquiry} && t.ledger == Debited(s, r, o)
  {
    hide Solo, Fails, TokenBack, PutBack, Debited, Answered;
    var q := s.requests[r];
    if !Opens(s, q, o) {
      StopsAtClaim(s, r, o);
    } else if !TakesToken(s, q, o) {
      StopsAtToken(s, r, o);
    } else if !TakesInquiry(s, q, o) {
      StopsAtInquiry(s, r, o);
    } else if !Resolves(s, q, o) {
      StopsAtSource(s, r, o);
    } else if !Succeeds(s, q, o) {
      StopsAtExecute(s, r, o);
    } else {
      GoesThrough(s, r, o);
    }
  }

  // --- What it answers and leaves ---

  /** The answer of every call, by what it finds: a key at work is a conflict, a key with an answer
      replays it, and each failure has its own error. */
  lemma AnswersExactly(s: State, r: RequestId, o: Outcomes)
    requires IsNew(s, r)
    ensures var q := s.requests[r];
      var t := Solo(s, r, o);
      && r in t.requests && t.requests[r].phase.Finished?
      && var answer := t.requests[r].phase.result;
      && (answer == Err(ClaimFailed) <==> !o.claim.Done?)
      && (answer == Err(Conflict) <==> o.claim.Done? && SlotOf(q) in s.idem && s.idem[SlotOf(q)] == Processing)
      && (answer.Ok? && answer.replayed <==> o.claim.Done? && SlotOf(q) in s.idem && s.idem[SlotOf(q)].Stored?)
      && (answer.Ok? && answer.replayed ==> s.idem[SlotOf(q)] == Stored(answer.response))
      && (answer == Err(TokenFailed) <==> Opens(s, q, o) && !o.token.Done?)
      && (answer == Err(TokenInvalid) <==> Opens(s, q, o) && o.token.Done? && !OwnToken(s, q))
      && (answer == Err(InquiryFailed) <==> TakesToken(s, q, o) && !o.inquiry.Done?)
      && (answer == Err(InquiryExpired) <==> TakesToken(s, q, o) && o.inquiry.Done? && !OwnInquiry(s, q))
      && (answer == Err(Validation) <==> TakesInquiry(s, q, o) && s.inquiries[q.inquiry].source.None?)
      && (answer == Err(SourceFailed) <==>
          TakesInquiry(s, q, o) && s.inquiries[q.inquiry].source.Some? && !o.source.Done?)
      && (answer == Err(ExecutorFailed) <==> Resolves(s, q, o) && !o.execute.Done?)
      && (answer.Ok? && !answer.replayed <==> Succeeds(s, q, o))
      && (answer.Ok? && !answer.replayed ==>
            var i := s.inquiries[q.inquiry];
            && answer.response.amount == i.amount && answer.response.fee == i.fee
            && answer.response.total == i.amount + i.fee
            && (!HasDebit(s.ledger, q.user, q.key) ==> answer.response.transaction == r)
            && (HasDebit(s.ledger, q.user, q.key) ==>
                  answer.response.transaction == ExistingDebit(s.ledger, q.user, q.key).request))
  {
    hide Solo;
    Stops(s, r, o);
  }

  /** Only a call that found its key free writes it: a failure frees it again, if the release takes, and
      a success stores its answer. A claim whose reply is lost blocks the key. */
  lemma KeyExactly(s: State, r: RequestId, o: Outcomes)
    requires IsNew(s, r)
    ensures var q := s.requests[r];
      var t := Solo(s, r, o);
      && (forall k :: k != SlotOf(q) ==> (k in t.idem <==> k in s.idem) && (k in s.idem ==> t.idem[k] == s.idem[k]))
      && (SlotOf(q) in s.idem ==> t.idem == s.idem)
      && (SlotOf(q) !in s.idem ==>
            && (SlotOf(q) !in t.idem <==>
                o.claim.Refused? || (o.claim.Done? && !Succeeds(s, q, o) && !o.release.Refused?))
            && (SlotOf(q) in t.idem && t.idem[SlotOf(q)].Stored? <==> Succeeds(s, q, o) && !o.persist.Refused?)
            && (SlotOf(q) in t.idem && t.idem[SlotOf(q)].Stored? ==>
                  r in t.requests && t.requests[r].phase == Finished(Ok(t.idem[SlotOf(q)].response, false))))
  {
    hide Solo;
    Stops(s, r, o);
  }

  /** A token is gone if the call got the key and the token store was reached, unless the token was the
      caller's, the call failed after it, and the token could be put back. No other is touched. */
  lemma TokenExactly(s: State, r: RequestId, o: Outcomes)
    requires IsNew(s, r)
    ensures var q := s.requests[r];
      var t := Solo(s, r, o);
      && (forall h :: h != q.token ==> (h in t.tokens <==> h in s.tokens))
      && (forall h :: h in t.tokens ==> h in s.tokens && t.tokens[h] == s.tokens[h])
      && (q.token in s.tokens ==>
            (q.token !in t.tokens <==>
             && Opens(s, q, o) && !o.token.Refused?
             && !(TakesToken(s, q, o) && !Succeeds(s, q, o) && !o.putToken.Refused?)))
  {
    hide Solo;
    Stops(s, r, o);
  }

  /** The same for an inquiry, which moreover goes back only before its expiry. */
  lemma InquiryExactly(s: State, r: RequestId, o: Outcomes)
    requires IsNew(s, r)
    ensures var q := s.requests[r];
      var t := Solo(s, r, o);
      && (forall id :: id != q.inquiry ==>
            (id in t.inquiries <==> id in s.inquiries) && (id in s.inquiries ==> t.inquiries[id] == s.inquiries[id]))
      && (q.inquiry in t.inquiries ==> q.inquiry in s.inquiries)
      && (q.inquiry in s.inquiries ==>
            (q.inquiry !in t.inquiries <==>
             && TakesToken(s, q, o) && !o.inquiry.Refused?
             && !(TakesInquiry(s, q, o) && !Succeeds(s, q, o) && s.now < s.inquiries[q.inquiry].expiresAt
                  && !o.putInquiry.Refused?)))
  {
    hide Solo;
    Stops(s, r, o);
  }

  /** Money moves if and only if everything up to the executor went well, the executor took effect, and
      the key had no debit; then it is one debit, as the inquiry says. */
  lemma LedgerExactly(s: State, r: RequestId, o: Outcomes)
    requires IsNew(s, r)
    ensures var q := s.requests[r];
      var t := Solo(s, r, o);
      && (t.ledger != s.ledger <==>
          Resolves(s, q, o) && !o.execute.Refused? && !HasDebit(s.ledger, q.user, q.key))
      && (t.ledger != s.ledger ==>
            var i := s.inquiries[q.inquiry];
            t.ledger == s.ledger + [Debit(r, q.user, q.key, q.token, q.inquiry, i.source.value, i.amount, i.fee,
                                          i.amount + i.fee, o.execute.Done?)])
  {
    hide Solo;
    Stops(s, r, o);
  }

  // --- Who is at work on a key ---

  /** The request owns its claim: it has got the key and has neither stored an answer nor given it up. */
  predicate AtWork(q: Request) {
    q.phase.Claimed? || q.phase.TokenTaken? || q.phase.InquiryTaken? || q.phase.Resolved? || q.phase.Committed?
    || q.phase.Releasing?
  }

  predicate Holds(s: State, r: RequestId)
    requires r in s.requests
  {
    AtWork(s.requests[r]) ==> SlotOf(s.requests[r]) in s.idem && s.idem[SlotOf(s.requests[r])] == Processing
  }

  predicate Alone(s: State, r: RequestId, x: RequestId)
    requires r in s.requests && x in s.requests
  {
    AtWork(s.requests[r]) && AtWork(s.requests[x]) && SlotOf(s.requests[r]) == SlotOf(s.requests[x]) ==> r == x
  }

  /** No two requests are at work on one key, and the key of each says that one is. */
  ghost predicate Exclusive(s: State) {
    && (forall r {:trigger Holds(s, r)} :: r in s.requests ==> Holds(s, r))
    && (forall r, x {:trigger Alone(s, r, x)} :: r in s.requests && x in s.requests ==> Alone(s, r, x))
  }

  /** The step lets the key of a request at work lapse. */
  ghost predicate Forgets(s: State, e: Event) {
    e.LapseSlot? && exists r :: r in s.requests && AtWork(s.requests[r]) && SlotOf(s.requests[r]) == e.slot
  }

  /** What a step of `r` does to it and to the keys: its own key only, and that only while it is at work or
      comes to be, and then the key was free. */
  predicate Owns(s: State, t: State, r: RequestId)
    requires r in s.requests
  {
    && r in t.requests && SlotOf(t.requests[r]) == SlotOf(s.requests[r]) && t.requests == s.requests[r := t.requests[r]]
    && (t.idem == s.idem
        || ((SlotOf(s.requests[r]) !in s.idem || AtWork(s.requests[r]))
            && (t.idem == s.idem - {SlotOf(s.requests[r])}
                || (SlotOf(s.requests[r]) in t.idem
                    && t.idem == s.idem[SlotOf(s.requests[r]) := t.idem[SlotOf(s.requests[r])]]))))
    && (!AtWork(s.requests[r]) && AtWork(t.requests[r]) ==> SlotOf(s.requests[r]) !in s.idem)
    && Holds(t, r)
  }

  lemma ClaimOwns(s: State, r: RequestId, o: Outcome)
    requires r in s.requests && s.requests[r].phase.Fresh?
    ensures Owns(s, AdvanceClaim(s, r, o), r)
  {}

  lemma TokenOwns(s: State, r: RequestId, o: Outcome)
    requires r in s.requests && s.requests[r].phase.Claimed? && Holds(s, r)
    ensures Owns(s, AdvanceToken(s, r, o), r)
  {}

  lemma InquiryOwns(s: State, r: RequestId, o: Outcome)
    requires r in s.requests && s.requests[r].phase.TokenTaken? && Holds(s, r)
    ensures Owns(s, AdvanceInquiry(s, r, o), r)
  {}

  lemma SourceOwns(s: State, r: RequestId, o: Outcome)
    requires r in s.requests && s.requests[r].phase.InquiryTaken? && Holds(s, r) && s.requests[r].heldInquiry.Some?
    ensures Owns(s, AdvanceSource(s, r, o), r)
  {}

  lemma ExecuteOwns(s: State, r: RequestId, o: Outcome)
    requires r in s.requests && s.requests[r].phase.Resolved? && Holds(s, r)
    requires s.requests[r].heldInquiry.Some? && s.requests[r].heldInquiry.value.source.Some?
    ensures Owns(s, AdvanceExecute(s, r, o), r)
  {
    hide HasDebit;
  }

  lemma LastOwns(s: State, r: RequestId, o: Outcome)
    requires r in s.requests && Holds(s, r)
    ensures s.requests[r].phase.Committed? ==> Owns(s, AdvancePersist(s, r, o), r)
    ensures s.requests[r].phase.Releasing? ==> Owns(s, AdvanceRelease(s, r, o), r)
    ensures s.requests[r].phase.RestoringInquiry? ==> Owns(s, AdvanceRestoreInquiry(s, r, o), r)
    ensures s.requests[r].phase.RestoringToken? ==> Owns(s, AdvanceRestoreToken(s, r, o), r)
  {}

  lemma AdvanceOwns(s: State, r: RequestId, o: Outcome)
    requires r in s.requests && Holds(s, r)
    ensures Owns(s, Advance(s, r, o), r)
  {
    hide AdvanceClaim, AdvanceToken, AdvanceInquiry, AdvanceSource, AdvanceExecute, AdvancePersist, AdvanceRelease,
         AdvanceRestoreInquiry, AdvanceRestoreToken, Owns;
    match s.requests[r].phase
    case Fresh => ClaimOwns(s, r, o);
    case Claimed => TokenOwns(s, r, o);
    case TokenTaken => InquiryOwns(s, r, o);
    case InquiryTaken => if s.requests[r].heldInquiry.Some? { SourceOwns(s, r, o); } else { OwnsSelf(s, r); }
    case Resolved =>
      if s.requests[r].heldInquiry.Some? && s.requests[r].heldInquiry.value.source.Some? {
        ExecuteOwns(s, r, o);
      } else {
        OwnsSelf(s, r);
      }
    case Committed(_) => LastOwns(s, r, o);
    case Releasing(_) => LastOwns(s, r, o);
    case RestoringInquiry(_) => LastOwns(s, r, o);
    case RestoringToken(_) => LastOwns(s, r, o);
    case _ => OwnsSelf(s, r);
  }

  lemma OwnsSelf(s: State, r: RequestId)
    requires r in s.requests && Holds(s, r)
    ensures Owns(s, s, r)
  {}

  lemma ActKeepsExclusive(s: State, t: State, r: RequestId)
    requires Exclusive(s) && r in s.requests && Owns(s, t, r)
    ensures Exclusive(t)
  {
    forall x | x in t.requests ensures Holds(t, x) && Alone(t, r, x) && Alone(t, x, r) {
      if x != r {
        assert Holds(s, x) && Alone(s, r, x);
      }
    }
    forall x, y | x in t.requests && y in t.requests ensures Alone(t, x, y) {
      if x != r && y != r {
        assert Alone(s, x, y);
      }
    }
  }

  lemma LapseForgets(s: State, k: (UserId, Key))
    requires Exclusive(s)
    ensures Exclusive(s.(idem := s.idem - {k})) <==> !Forgets(s, LapseSlot(k))
  {
    var t := s.(idem := s.idem - {k});
    forall x, y | x in t.requests && y in t.requests ensures Alone(t, x, y) {
      assert Alone(s, x, y);
    }
    forall x | x in t.requests ensures Holds(t, x) <==> !(AtWork(s.requests[x]) && SlotOf(s.requests[x]) == k) {
      assert Holds(s, x);
    }
    if Forgets(s, LapseSlot(k)) {
      var x :| x in s.requests && AtWork(s.requests[x]) && SlotOf(s.requests[x]) == k;
      assert !Holds(t, x);
    }
  }

  /** Nobody comes to be at work. */
  lemma QuietKeepsExclusive(s: State, t: State)
    requires Exclusive(s) && t.idem == s.idem
    requires forall x :: x in t.requests && AtWork(t.requests[x]) ==> x in s.requests && t.requests[x] == s.requests[x]
    ensures Exclusive(t)
  {
    forall x | x in t.requests ensures Holds(t, x) {
      assert x in s.requests ==> Holds(s, x);
    }
    forall x, y | x in t.requests && y in t.requests ensures Alone(t, x, y) {
      assert x in s.requests && y in s.requests ==> Alone(s, x, y);
    }
  }

  /** In every state a new request gets to work if and only if its claim is answered and found the key
      free. */
  lemma ClaimedExactly(s: State, r: RequestId, o: Outcome)
    requires r in s.requests && s.requests[r].phase.Fresh?
    ensures var t := Apply(s, Act(r, o));
      r in t.requests && (AtWork(t.requests[r]) <==> o.Done? && SlotOf(s.requests[r]) !in s.idem)
  {}

  /** A step keeps requests from sharing a key if and only if it does not let the key of a request at
      work lapse. */
  lemma ExclusiveStep(s: State, e: Event)
    requires Exclusive(s)
    ensures Exclusive(Apply(s, e)) <==> !Forgets(s, e)
  {
    hide Advance, Exclusive, Owns;
    match e
    case Act(r, o) =>
      if r in s.requests {
        HoldsOf(s, r);
        AdvanceOwns(s, r, o);
        ActKeepsExclusive(s, Advance(s, r, o), r);
      } else {
        AdvanceNobody(s, r, o);
      }
    case LapseSlot(k) => LapseForgets(s, k);
    case _ => QuietKeepsExclusive(s, Apply(s, e));
  }

  lemma HoldsOf(s: State, r: RequestId)
    requires Exclusive(s) && r in s.requests
    ensures Holds(s, r)
  {}

  lemma AdvanceNobody(s: State, r: RequestId, o: Outcome)
    requires r !in s.requests
    ensures Advance(s, r, o) == s
  {}

  ghost predicate AlwaysExclusive(s: State, events: seq<Event>)
    decreases |events|
  {
    Exclusive(s) && (events == [] || AlwaysExclusive(Apply(s, events[0]), events[1..]))
  }

  ghost predicate NeverForgets(s: State, events: seq<Event>)
    decreases |events|
  {
    events == [] || (!Forgets(s, events[0]) && NeverForgets(Apply(s, events[0]), events[1..]))
  }

  /** Throughout a run no two requests are at work on one key if and only if no key of a request at work
      lapses. */
  lemma {:induction false} ExclusiveExactly(s: State, events: seq<Event>)
    requires Exclusive(s)
    ensures AlwaysExclusive(s, events) <==> NeverForgets(s, events)
    decreases |events|
  {
    hide Exclusive, Forgets, Apply;
    if events != [] {
      ExclusiveStep(s, events[0]);
      if !Forgets(s, events[0]) {
        ExclusiveExactly(Apply(s, events[0]), events[1..]);
      }
    }
  }

  lemma StartsExclusive(keepsSource: bool, now: int)
    ensures Exclusive(Initial(keepsSource, now))
  {}

  /** And a request that comes while another is at work on its key gets a conflict, whatever else is
      going on, and changes nothing. */
  lemma SecondIsRefused(s: State, r: RequestId, x: RequestId, o: Outcomes)
    requires Exclusive(s) && IsNew(s, r) && o.claim.Done?
    requires x in s.requests && AtWork(s.requests[x]) && SlotOf(s.requests[x]) == SlotOf(s.requests[r])
    ensures var t := Solo(s, r, o);
      t == s.(requests := s.requests[r := s.requests[r].(phase := Finished(Err(Conflict)))])
  {
    assert Holds(s, x);
    StopsAtClaim(s, r, o);
  }
}

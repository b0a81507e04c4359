/** What every run of the top-up machine keeps, and where its one weak spot is. */
module TopUpSafety {
  import opened Basics
  import opened TopUpMachine

  // --- The invariant ---

  /** What a request holds at each program point. */
  predicate PhaseHolds(q: Request) {
    match q.phase
    case Fresh => q.heldToken.None? && q.heldInquiry.None?
    case Claimed => q.heldToken.None? && q.heldInquiry.None?
    case TokenTaken => q.heldToken.Some? && q.heldInquiry.None?
    case InquiryTaken => q.heldToken.Some? && q.heldInquiry.Some?
    case Resolved => q.heldToken.Some? && q.heldInquiry.Some? && q.heldInquiry.value.source.Some?
    case Committed(_) => q.heldToken.Some? && q.heldInquiry.Some?
    case Releasing(_) => true
    case RestoringInquiry(_) => true
    case RestoringToken(_) => q.heldInquiry.None?
    case Finished(Ok(_, replayed)) =>
      if replayed then q.heldToken.None? && q.heldInquiry.None? else q.heldToken.Some? && q.heldInquiry.Some?
    case Finished(Err(_)) => q.heldToken.None? && q.heldInquiry.None?
    case Crashed => true
  }

  /** An item held by a request is in no store, and still says what was issued. */
  predicate RequestOk(s: State, q: Request) {
    && PhaseHolds(q)
    && (q.heldToken.Some? ==>
          q.token in s.minted && q.token !in s.tokens && q.heldToken.value == Token(q.user, PURPOSE))
    && (q.heldInquiry.Some? ==>
          && q.inquiry in s.issued && q.inquiry !in s.inquiries
          && q.heldInquiry.value == Cached(s.keepsSource, s.issued[q.inquiry])
          && q.heldInquiry.value.user == q.user)
  }

  predicate Apart(q1: Request, q2: Request) {
    && !(q1.heldToken.Some? && q2.heldToken.Some? && q1.token == q2.token)
    && !(q1.heldInquiry.Some? && q2.heldInquiry.Some? && q1.inquiry == q2.inquiry)
  }

  predicate InquiryOk(s: State, id: InquiryId)
    requires id in s.inquiries
  {
    id in s.issued && s.inquiries[id] == Cached(s.keepsSource, s.issued[id])
  }

  /** The stores and the requests together: every item is in at most one place. */
  ghost predicate StoresOk(s: State) {
    && (forall r {:trigger RequestOk(s, s.requests[r])} :: r in s.requests ==> RequestOk(s, s.requests[r]))
    && (forall r1, r2 {:trigger Apart(s.requests[r1], s.requests[r2])} ::
          r1 in s.requests && r2 in s.requests && r1 != r2 ==> Apart(s.requests[r1], s.requests[r2]))
    && (forall id {:trigger InquiryOk(s, id)} :: id in s.inquiries ==> InquiryOk(s, id))
    && s.tokens.Keys <= s.minted
  }

  /** A request that may still reach the executor. */
  predicate BeforeExecution(p: Phase) {
    p.Fresh? || p.Claimed? || p.TokenTaken? || p.InquiryTaken? || p.Resolved?
  }

  predicate Undoing(p: Phase) {
    p.Releasing? || p.RestoringInquiry? || p.RestoringToken?
  }

  /** A committed row against the request that made it and the inquiry it was made from. An
      acknowledged row's request keeps both of its items for ever. */
  predicate DebitOk(s: State, d: Debit) {
    && d.request in s.requests
    && d.inquiry in s.issued
    && var q := s.requests[d.request];
    var offer := s.issued[d.inquiry];
    && d.user == q.user && d.key == q.key && d.token == q.token && d.inquiry == q.inquiry
    && !BeforeExecution(q.phase)
    && s.keepsSource
    && d.user == offer.user && d.amount == offer.amount && d.fee == offer.fee
    && d.total == offer.amount + offer.fee && Some(d.source) == offer.source
    && (d.acknowledged ==> q.heldToken.Some? && q.heldInquiry.Some? && !Undoing(q.phase))
  }

  predicate PairOk(first: Debit, second: Debit) {
    && first.request != second.request
    && (first.user, first.key) != (second.user, second.key)
    && (first.acknowledged ==> first.inquiry != second.inquiry && first.token != second.token)
  }

  ghost predicate LedgerOk(s: State) {
    && (forall i {:trigger DebitOk(s, s.ledger[i])} :: 0 <= i < |s.ledger| ==> DebitOk(s, s.ledger[i]))
    && (forall i, j {:trigger PairOk(s.ledger[i], s.ledger[j])} ::
          0 <= i < j < |s.ledger| ==> PairOk(s.ledger[i], s.ledger[j]))
  }

  ghost predicate Inv(s: State) {
    StoresOk(s) && LedgerOk(s)
  }

  // --- Preservation, one program point at a time ---

  predicate SameCall(q: Request, q': Request) {
    q'.user == q.user && q'.key == q.key && q'.token == q.token && q'.inquiry == q.inquiry
  }

  /** `t` is `s` after one step of request `r` alone: items leave the stores freely, but one
      enters only from `r`'s hands and is held by `r` only if it was in the store or held. */
  ghost predicate StepOf(s: State, t: State, r: RequestId) {
    && r in s.requests && t.requests.Keys == s.requests.Keys
    && (forall x :: x in s.requests && x != r ==> t.requests[x] == s.requests[x])
    && t.keepsSource == s.keepsSource && t.issued == s.issued && t.minted == s.minted
    && var q, q' := s.requests[r], t.requests[r];
    && SameCall(q, q')
    && (forall h :: h in t.tokens ==> h in s.tokens || (h == q.token && q.heldToken.Some? && q'.heldToken.None?))
    && (forall id :: id in t.inquiries ==>
          || (id in s.inquiries && t.inquiries[id] == s.inquiries[id])
          || (id == q.inquiry && q.heldInquiry.Some? && q'.heldInquiry.None?
              && t.inquiries[id] == Cached(s.keepsSource, q.heldInquiry.value)))
    && (q'.heldToken.Some? ==> q.heldToken.Some? || q.token in s.tokens)
    && (q'.heldInquiry.Some? ==> q.heldInquiry.Some? || q.inquiry in s.inquiries)
  }

  lemma StepKeepsStores(s: State, t: State, r: RequestId)
    requires StoresOk(s) && StepOf(s, t, r) && RequestOk(t, t.requests[r])
    ensures StoresOk(t)
  {
    var q := s.requests[r];
    assert RequestOk(s, q);
    forall x | x in t.requests ensures RequestOk(t, t.requests[x]) {
      if x != r {
        assert RequestOk(s, s.requests[x]);
        assert Apart(s.requests[x], q);
      }
    }
    forall x, y | x in t.requests && y in t.requests && x != y ensures Apart(t.requests[x], t.requests[y]) {
      assert RequestOk(s, s.requests[x]) && RequestOk(s, s.requests[y]);
      assert Apart(s.requests[x], s.requests[y]);
    }
    forall id | id in t.inquiries ensures InquiryOk(t, id) {
      if id in s.inquiries {
        assert InquiryOk(s, id);
      }
    }
  }

  /** A step past which no acknowledged debit of `r` can have lost its items. */
  predicate KeepsDebits(q: Request, q': Request) {
    || BeforeExecution(q.phase)
    || (!BeforeExecution(q'.phase)
        && (Undoing(q.phase)
            || (!Undoing(q'.phase) && q'.heldToken == q.heldToken && q'.heldInquiry == q.heldInquiry)))
  }

  lemma StepKeepsLedger(s: State, t: State, r: RequestId)
    requires LedgerOk(s) && StepOf(s, t, r) && KeepsDebits(s.requests[r], t.requests[r])
    ensures forall i :: 0 <= i < |s.ledger| ==> DebitOk(t, s.ledger[i])
    ensures t.ledger == s.ledger ==> LedgerOk(t)
  {
    forall i | 0 <= i < |s.ledger| ensures DebitOk(t, s.ledger[i]) {
      assert DebitOk(s, s.ledger[i]);
    }
  }

  lemma StepKeeps(s: State, t: State, r: RequestId)
    requires Inv(s) && StepOf(s, t, r) && RequestOk(t, t.requests[r])
    requires KeepsDebits(s.requests[r], t.requests[r]) && t.ledger == s.ledger
    ensures Inv(t)
  {
    StepKeepsStores(s, t, r);
    StepKeepsLedger(s, t, r);
  }

  /** A step that leaves the ledger alone. */
  ghost predicate QuietStep(s: State, t: State, r: RequestId) {
    StepOf(s, t, r) && RequestOk(t, t.requests[r]) && KeepsDebits(s.requests[r], t.requests[r]) && t.ledger == s.ledger
  }

  lemma TokenStep(s: State, r: RequestId, o: Outcome)
    requires r in s.requests && RequestOk(s, s.requests[r]) && s.requests[r].phase.Claimed?
    requires s.tokens.Keys <= s.minted
    ensures QuietStep(s, AdvanceToken(s, r, o), r)
  {}

  lemma InquiryStep(s: State, r: RequestId, o: Outcome)
    requires r in s.requests && RequestOk(s, s.requests[r]) && s.requests[r].phase.TokenTaken?
    requires s.requests[r].inquiry in s.inquiries ==> InquiryOk(s, s.requests[r].inquiry)
    ensures QuietStep(s, AdvanceInquiry(s, r, o), r)
  {}

  lemma SourceStep(s: State, r: RequestId, o: Outcome)
    requires r in s.requests && RequestOk(s, s.requests[r]) && s.requests[r].phase.InquiryTaken?
    ensures QuietStep(s, AdvanceSource(s, r, o), r)
  {}

  lemma PersistStep(s: State, r: RequestId, o: Outcome)
    requires r in s.requests && RequestOk(s, s.requests[r]) && s.requests[r].phase.Committed?
    ensures QuietStep(s, AdvancePersist(s, r, o), r)
  {}

  lemma ReleaseStep(s: State, r: RequestId, o: Outcome)
    requires r in s.requests && RequestOk(s, s.requests[r]) && s.requests[r].phase.Releasing?
    ensures QuietStep(s, AdvanceRelease(s, r, o), r)
  {}

  lemma RestoreInquiryStep(s: State, r: RequestId, o: Outcome)
    requires r in s.requests && RequestOk(s, s.requests[r]) && s.requests[r].phase.RestoringInquiry?
    ensures QuietStep(s, AdvanceRestoreInquiry(s, r, o), r)
  {}

  lemma RestoreTokenStep(s: State, r: RequestId, o: Outcome)
    requires r in s.requests && RequestOk(s, s.requests[r]) && s.requests[r].phase.RestoringToken?
    ensures QuietStep(s, AdvanceRestoreToken(s, r, o), r)
  {}

  /** No acknowledged row can already own this request's inquiry or token, because this
      request holds them. */
  lemma NewDebitIsApart(s: State, r: RequestId, ack: bool)
    requires Inv(s) && r in s.requests && s.requests[r].phase.Resolved? && PhaseHolds(s.requests[r])
    requires !HasDebit(s.ledger, s.requests[r].user, s.requests[r].key)
    ensures forall i :: 0 <= i < |s.ledger| ==> PairOk(s.ledger[i], NewDebit(r, s.requests[r], ack))
  {
    var q := s.requests[r];
    forall i | 0 <= i < |s.ledger| ensures PairOk(s.ledger[i], NewDebit(r, q, ack)) {
      var d := s.ledger[i];
      assert DebitOk(s, d);
      assert d.request != r;
      assert Apart(s.requests[d.request], q);
    }
  }

  lemma ExecuteKeeps(s: State, r: RequestId, o: Outcome)
    requires Inv(s) && r in s.requests && s.requests[r].phase.Resolved? && RequestOk(s, s.requests[r])
    ensures Inv(AdvanceExecute(s, r, o))
  {
    var t := AdvanceExecute(s, r, o);
    StepKeepsStores(s, t, r);
    StepKeepsLedger(s, t, r);
    if t.ledger != s.ledger {
      var ack :| t.ledger == s.ledger + [NewDebit(r, s.requests[r], ack)]
                 && !HasDebit(s.ledger, s.requests[r].user, s.requests[r].key);
      NewDebitIsApart(s, r, ack);
    }
  }

  lemma QuietAdvance(s: State, r: RequestId, o: Outcome)
    requires r in s.requests && RequestOk(s, s.requests[r]) && s.tokens.Keys <= s.minted
    requires s.requests[r].inquiry in s.inquiries ==> InquiryOk(s, s.requests[r].inquiry)
    requires !s.requests[r].phase.Resolved? && !s.requests[r].phase.Finished? && !s.requests[r].phase.Crashed?
    ensures QuietStep(s, Advance(s, r, o), r)
  {
    match s.requests[r].phase
    case Fresh => 
    case Claimed => TokenStep(s, r, o);
    case TokenTaken => InquiryStep(s, r, o);
    case InquiryTaken => SourceStep(s, r, o);
    case Committed(_) => PersistStep(s, r, o);
    case Releasing(_) => ReleaseStep(s, r, o);
    case RestoringInquiry(_) => RestoreInquiryStep(s, r, o);
    case RestoringToken(_) => RestoreTokenStep(s, r, o);
  }

  lemma AdvanceKeeps(s: State, r: RequestId, o: Outcome)
    requires Inv(s)
    ensures Inv(Advance(s, r, o))
  {
    if r in s.requests {
      var q := s.requests[r];
      assert RequestOk(s, q);
      assert q.inquiry in s.inquiries ==> InquiryOk(s, q.inquiry);
      if q.phase.Resolved? {
        ExecuteKeeps(s, r, o);
      } else if !q.phase.Finished? && !q.phase.Crashed? {
        QuietAdvance(s, r, o);
        StepKeeps(s, Advance(s, r, o), r);
      }
    }
  }

  lemma LedgerCarriesOver(s: State, t: State)
    requires LedgerOk(s) && t.ledger == s.ledger && t.keepsSource == s.keepsSource
    requires forall id :: id in s.issued ==> id in t.issued && t.issued[id] == s.issued[id]
    requires forall r :: r in s.requests ==>
      && r in t.requests && SameCall(s.requests[r], t.requests[r])
      && t.requests[r].heldToken == s.requests[r].heldToken && t.requests[r].heldInquiry == s.requests[r].heldInquiry
      && (t.requests[r].phase == s.requests[r].phase || t.requests[r].phase.Crashed?)
    ensures LedgerOk(t)
  {
    forall i | 0 <= i < |t.ledger| ensures DebitOk(t, t.ledger[i]) {
      assert DebitOk(s, s.ledger[i]);
    }
    forall i, j | 0 <= i < j < |t.ledger| ensures PairOk(t.ledger[i], t.ledger[j]) {
      assert PairOk(s.ledger[i], s.ledger[j]);
    }
  }

  lemma MintKeeps(s: State, e: Event)
    requires Inv(s) && e.Mint?
    ensures Inv(Environment(s, e))
  {
    var t := Environment(s, e);
    forall r | r in t.requests ensures RequestOk(t, t.requests[r]) {
      assert RequestOk(s, s.requests[r]);
    }
    forall id | id in t.inquiries ensures InquiryOk(t, id) {
      assert InquiryOk(s, id);
    }
    assert StoresOk(t) by {
      hide RequestOk, InquiryOk, Environment;
    }
    LedgerCarriesOver(s, t);
  }

  lemma CreateInquiryKeeps(s: State, e: Event)
    requires Inv(s) && e.CreateInquiry?
    ensures Inv(Environment(s, e))
  {
    var t := Environment(s, e);
    forall r | r in t.requests ensures RequestOk(t, t.requests[r]) {
      assert RequestOk(s, s.requests[r]);
    }
    forall id | id in t.inquiries ensures InquiryOk(t, id) {
      assert id in s.inquiries ==> InquiryOk(s, id);
    }
    assert StoresOk(t) by {
      hide RequestOk, InquiryOk, Environment;
    }
    LedgerCarriesOver(s, t);
  }

  lemma OpenKeeps(s: State, e: Event)
    requires Inv(s) && e.Open?
    ensures Inv(Environment(s, e))
  {
    var t := Environment(s, e);
    if e.request !in s.requests {
      forall r | r in t.requests ensures RequestOk(t, t.requests[r]) {
        assert r in s.requests ==> RequestOk(s, s.requests[r]);
      }
      forall r1, r2 | r1 in t.requests && r2 in t.requests && r1 != r2
        ensures Apart(t.requests[r1], t.requests[r2])
      {
        assert r1 in s.requests && r2 in s.requests ==> Apart(s.requests[r1], s.requests[r2]);
      }
      forall id | id in t.inquiries ensures InquiryOk(t, id) {
        assert InquiryOk(s, id);
      }
      LedgerCarriesOver(s, t);
    }
  }

  lemma {:induction false} CrashKeeps(s: State, e: Event)
    requires Inv(s) && e.Crash?
    ensures Inv(Environment(s, e))
  {
    var r := e.request;
    if r in s.requests && !s.requests[r].phase.Finished? {
      assert RequestOk(s, s.requests[r]);
      var t := Environment(s, e);
      assert StepOf(s, t, r) && RequestOk(t, t.requests[r]);
      StepKeepsStores(s, t, r);
      LedgerCarriesOver(s, t);
    }
  }

  /** Time-to-live expiry only ever removes. */
  lemma LapseKeeps(s: State, e: Event)
    requires Inv(s) && (e.LapseSlot? || e.LapseToken? || e.LapseInquiry? || e.Tick?)
    ensures Inv(Environment(s, e))
  {
    var t := Environment(s, e);
    forall r | r in t.requests ensures RequestOk(t, t.requests[r]) {
      assert RequestOk(s, s.requests[r]);
    }
    forall id | id in t.inquiries ensures InquiryOk(t, id) {
      assert InquiryOk(s, id);
    }
    LedgerCarriesOver(s, t);
  }

  lemma EnvironmentKeeps(s: State, e: Event)
    requires Inv(s) && !e.Act?
    ensures Inv(Environment(s, e))
  {
    if e.Open? {
      OpenKeeps(s, e);
    } else if e.Crash? {
      CrashKeeps(s, e);
    } else if e.Mint? {
      MintKeeps(s, e);
    } else if e.CreateInquiry? {
      CreateInquiryKeeps(s, e);
    } else {
      LapseKeeps(s, e);
    }
  }

  lemma StepKeepsInv(s: State, e: Event)
    requires Inv(s)
    ensures Inv(Apply(s, e))
  {
    hide Inv, Advance, Environment;
    if e.Act? {
      AdvanceKeeps(s, e.request, e.outcome);
    } else {
      EnvironmentKeeps(s, e);
    }
  }

  lemma {:induction false} RunKeepsInv(s: State, events: seq<Event>)
    requires Inv(s)
    ensures Inv(Run(s, events))
    decreases |events|
  {
    if events != [] {
      StepKeepsInv(s, events[0]);
      RunKeepsInv(Apply(s, events[0]), events[1..]);
    }
  }

  lemma ReachableInv(keepsSource: bool, now: int, events: seq<Event>)
    ensures Inv(Run(Initial(keepsSource, now), events))
  {
    RunKeepsInv(Initial(keepsSource, now), events);
  }

  // --- What every run guarantees ---

  /** However the requests interleave, whatever fails and whatever lapses: one user and key
      back one debit, and two debits share an inquiry or a verification token only if the
      executor committed the earlier one and its answer was lost. */
  lemma DebitsNeverShare(keepsSource: bool, now: int, events: seq<Event>, i: nat, j: nat)
    requires i < j < |Run(Initial(keepsSource, now), events).ledger|
    ensures var ledger := Run(Initial(keepsSource, now), events).ledger;
      && (ledger[i].user != ledger[j].user || ledger[i].key != ledger[j].key)
      && (ledger[i].inquiry == ledger[j].inquiry ==> !ledger[i].acknowledged)
      && (ledger[i].token == ledger[j].token ==> !ledger[i].acknowledged)
  {
    ReachableInv(keepsSource, now, events);
    var ledger := Run(Initial(keepsSource, now), events).ledger;
    assert PairOk(ledger[i], ledger[j]);
  }

  /** Every debit is the caller's own inquiry, for exactly the amount and fee frozen when the
      inquiry was created, from the account frozen with it. */
  lemma DebitsAreFrozenInquiries(keepsSource: bool, now: int, events: seq<Event>, i: nat)
    requires i < |Run(Initial(keepsSource, now), events).ledger|
    ensures var s := Run(Initial(keepsSource, now), events);
      var d := s.ledger[i];
      && d.inquiry in s.issued
      && var offer := s.issued[d.inquiry];
      && d.user == offer.user && d.amount == offer.amount && d.fee == offer.fee
      && d.total == offer.amount + offer.fee && offer.source == Some(d.source)
  {
    ReachableInv(keepsSource, now, events);
    var s := Run(Initial(keepsSource, now), events);
    assert DebitOk(s, s.ledger[i]);
  }

  /** An inquiry is never in the store while a request holds it, and never held twice; the
      same for a verification token. */
  lemma OnePlaceAtATime(keepsSource: bool, now: int, events: seq<Event>, r1: RequestId, r2: RequestId)
    requires var s := Run(Initial(keepsSource, now), events); r1 in s.requests && r2 in s.requests
    ensures var s := Run(Initial(keepsSource, now), events);
      var q1, q2 := s.requests[r1], s.requests[r2];
      && (q1.heldInquiry.Some? ==> q1.inquiry !in s.inquiries)
      && (q1.heldToken.Some? ==> q1.token !in s.tokens)
      && (q1.heldInquiry.Some? && q2.heldInquiry.Some? && q1.inquiry == q2.inquiry ==> r1 == r2)
      && (q1.heldToken.Some? && q2.heldToken.Some? && q1.token == q2.token ==> r1 == r2)
  {
    ReachableInv(keepsSource, now, events);
    var s := Run(Initial(keepsSource, now), events);
    assert RequestOk(s, s.requests[r1]);
    if r1 != r2 {
      assert Apart(s.requests[r1], s.requests[r2]);
    }
  }

  lemma ADebitNeedsTheMetadata(s: State)
    requires LedgerOk(s)
    ensures s.ledger != [] ==> s.keepsSource
  {
    if s.ledger != [] {
      assert DebitOk(s, s.ledger[0]);
    }
  }

  /** The shipped inquiry cache does not store the metadata map, and the source account
      travels nowhere else: with it, no run ever debits anybody. */
  lemma WithoutMetadataNothingCommits(now: int, events: seq<Event>)
    ensures Run(Initial(false, now), events).ledger == []
  {
    ReachableInv(false, now, events);
    ADebitNeedsTheMetadata(Run(Initial(false, now), events));
  }
}

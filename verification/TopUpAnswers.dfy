/** What the steps of a top-up give back, and what its answer says about the debit it names. */
module TopUpAnswers {
  import opened Basics
  import opened TopUpMachine
  import opened TopUpSafety
  import opened TopUpService

  // --- The undo, among other requests ---

  /** However requests interleave, an undo puts back exactly what its request took, as it was
      issued, where nobody has put anything since, and touches nothing else; the release of the
      key frees it whoever claimed it last. */
  lemma UndoGivesBackWhatWasTaken(keepsSource: bool, now: int, events: seq<Event>, r: RequestId, o: Outcome)
    requires r in Run(Initial(keepsSource, now), events).requests
    ensures var s := Run(Initial(keepsSource, now), events);
      var q, t := s.requests[r], Advance(s, r, o);
      && (q.heldInquiry.Some? ==> q.inquiry in s.issued)
      && (q.phase.Releasing? ==>
            t == s.(requests := t.requests, idem := if o == Refused then s.idem else s.idem - {SlotOf(q)}))
      && (q.phase.RestoringInquiry? ==>
            if q.heldInquiry.None? || o == Refused || s.issued[q.inquiry].expiresAt <= s.now
            then t == s.(requests := t.requests)
            else
              && q.inquiry !in s.inquiries && s.issued[q.inquiry].user == q.user
              && t == s.(requests := t.requests,
                         inquiries := s.inquiries[q.inquiry := Cached(keepsSource, s.issued[q.inquiry])]))
      && (q.phase.RestoringToken? ==>
            if q.heldToken.None? || o == Refused then t == s.(requests := t.requests)
            else
              && q.token !in s.tokens && q.heldToken == Some(Token(q.user, PURPOSE))
              && t == s.(requests := t.requests, tokens := s.tokens[q.token := Token(q.user, PURPOSE)]))
  {
    hide Run, AdvanceRelease, AdvanceRestoreInquiry, AdvanceRestoreToken;
    ReachableInv(keepsSource, now, events);
    var s := Run(Initial(keepsSource, now), events);
    assert RequestOk(s, s.requests[r]);
    UndoSteps(s, r, o);
    hide AdvanceClaim, AdvanceToken, AdvanceInquiry, AdvanceSource, AdvanceExecute, AdvancePersist;
  }

  lemma UndoSteps(s: State, r: RequestId, o: Outcome)
    requires r in s.requests && RequestOk(s, s.requests[r])
    ensures var q := s.requests[r];
      && (q.phase.Releasing? ==>
            var t := AdvanceRelease(s, r, o);
            t == s.(requests := t.requests, idem := if o == Refused then s.idem else s.idem - {SlotOf(q)}))
      && (q.phase.RestoringInquiry? ==>
            var t := AdvanceRestoreInquiry(s, r, o);
            if q.heldInquiry.None? || o == Refused || s.issued[q.inquiry].expiresAt <= s.now
            then t == s.(requests := t.requests)
            else t == s.(requests := t.requests,
                         inquiries := s.inquiries[q.inquiry := Cached(s.keepsSource, s.issued[q.inquiry])]))
      && (q.phase.RestoringToken? ==>
            var t := AdvanceRestoreToken(s, r, o);
            if q.heldToken.None? || o == Refused then t == s.(requests := t.requests)
            else t == s.(requests := t.requests, tokens := s.tokens[q.token := Token(q.user, PURPOSE)]))
  {}

  // --- One debit for one inquiry and one token, exactly ---

  predicate Share(d: Debit, e: Debit) { d.inquiry == e.inquiry || d.token == e.token }

  ghost predicate NoneShare(ledger: seq<Debit>) {
    forall i, j {:trigger Share(ledger[i], ledger[j])} :: 0 <= i < j < |ledger| ==> !Share(ledger[i], ledger[j])
  }

  /** A commit for an inquiry or a token of an earlier debit whose success was lost. */
  ghost predicate Doubles(s: State, e: Event) {
    && Commits(s, e)
    && var q := s.requests[e.request];
       exists i {:trigger s.ledger[i]} :: 0 <= i < |s.ledger| && !s.ledger[i].acknowledged
         && (s.ledger[i].inquiry == q.inquiry || s.ledger[i].token == q.token)
  }

  /** The step adds a row to the ledger. */
  predicate Commits(s: State, e: Event) {
    && e.Act? && e.outcome != Refused && e.request in s.requests && s.requests[e.request].phase.Resolved?
    && !HasDebit(s.ledger, s.requests[e.request].user, s.requests[e.request].key)
  }

  lemma CommitsExactly(s: State, e: Event)
    requires Inv(s)
    ensures !Commits(s, e) ==> Apply(s, e).ledger == s.ledger
    ensures Commits(s, e) ==>
              PhaseHolds(s.requests[e.request])
              && Apply(s, e).ledger == s.ledger + [NewDebit(e.request, s.requests[e.request], e.outcome == Done)]
  {
    hide AdvanceClaim, AdvanceToken, AdvanceInquiry, AdvanceSource, AdvancePersist, AdvanceRelease,
      AdvanceRestoreInquiry, AdvanceRestoreToken, Environment;
    if e.Act? && e.request in s.requests {
      assert RequestOk(s, s.requests[e.request]);
    }
  }

  lemma OnceStep(s: State, e: Event)
    requires Inv(s) && NoneShare(s.ledger)
    ensures NoneShare(Apply(s, e).ledger) <==> !Doubles(s, e)
  {
    hide Apply;
    CommitsExactly(s, e);
    if Commits(s, e) {
      var q, n, t := s.requests[e.request], |s.ledger|, Apply(s, e);
      NewDebitIsApart(s, e.request, e.outcome == Done);
      assert forall i :: 0 <= i < n ==> t.ledger[i] == s.ledger[i];
      if Doubles(s, e) {
        var i :| && 0 <= i < n && !s.ledger[i].acknowledged
                 && (s.ledger[i].inquiry == q.inquiry || s.ledger[i].token == q.token);
        assert Share(t.ledger[i], t.ledger[n]);
      } else {
        forall i, j | 0 <= i < j < |t.ledger| ensures !Share(t.ledger[i], t.ledger[j]) {
          if j < n {
            assert !Share(s.ledger[i], s.ledger[j]);
          } else {
            assert PairOk(s.ledger[i], NewDebit(e.request, q, e.outcome == Done));
          }
        }
      }
    }
  }

  ghost predicate NeverDoubles(s: State, events: seq<Event>)
    decreases |events|
  {
    events == [] || (!Doubles(s, events[0]) && NeverDoubles(Apply(s, events[0]), events[1..]))
  }

  lemma {:induction false} SharedForGood(s: State, events: seq<Event>)
    requires !NoneShare(s.ledger)
    ensures !NoneShare(Run(s, events).ledger)
    decreases |events|
  {
    hide Apply;
    if events != [] {
      LedgerGrows(s, events[0]);
      var t := Apply(s, events[0]);
      var i, j :| 0 <= i < j < |s.ledger| && Share(s.ledger[i], s.ledger[j]);
      assert Share(t.ledger[i], t.ledger[j]);
      SharedForGood(t, events[1..]);
    }
  }

  lemma LedgerGrows(s: State, e: Event)
    ensures s.ledger <= Apply(s, e).ledger
  {}

  /** However requests interleave, every inquiry and every token backs at most one debit if and
      only if nothing is committed for an inquiry or a token of a debit whose success was lost. */
  lemma {:induction false} DebitedOnceExactly(s: State, events: seq<Event>)
    requires Inv(s) && NoneShare(s.ledger)
    ensures NoneShare(Run(s, events).ledger) <==> NeverDoubles(s, events)
    decreases |events|
  {
    hide Inv, NoneShare, Doubles, Apply;
    if events != [] {
      OnceStep(s, events[0]);
      StepKeepsInv(s, events[0]);
      if Doubles(s, events[0]) {
        SharedForGood(Apply(s, events[0]), events[1..]);
      } else {
        DebitedOnceExactly(Apply(s, events[0]), events[1..]);
      }
    }
  }

  predicate Acknowledged(ledger: seq<Debit>) {
    forall i {:trigger ledger[i]} :: 0 <= i < |ledger| ==> ledger[i].acknowledged
  }

  ghost predicate RepliesArrive(s: State, events: seq<Event>)
    decreases |events|
  {
    events == [] ||
    ((Commits(s, events[0]) ==> events[0].outcome == Done) && RepliesArrive(Apply(s, events[0]), events[1..]))
  }

  /** In particular, when no commit's reply is lost, every inquiry and every token backs at most one
      debit, whatever else fails and however requests interleave and are retried. */
  lemma {:induction false} RepliesArriveOnce(s: State, events: seq<Event>)
    requires Inv(s) && NoneShare(s.ledger) && Acknowledged(s.ledger) && RepliesArrive(s, events)
    ensures NoneShare(Run(s, events).ledger)
    decreases |events|
  {
    if events != [] {
      hide Inv, NoneShare, Apply;
      CommitsExactly(s, events[0]);
      assert !Doubles(s, events[0]);
      OnceStep(s, events[0]);
      StepKeepsInv(s, events[0]);
      RepliesArriveOnce(Apply(s, events[0]), events[1..]);
    }
  }

  // --- The answer and the debit it names ---

  predicate Describes(a: Response, d: Debit) {
    a.transaction == d.request && a.amount == d.amount && a.fee == d.fee && a.total == d.total
  }

  predicate SamePrice(offer: Inquiry, d: Debit) { offer.amount == d.amount && offer.fee == d.fee }

  /** However requests interleave, an execution that answers names the one debit of its user and
      key, and describes that debit if and only if the key had no debit before, or had one of the
      same amount and fee as the inquiry now spent. */
  lemma AnswersDescribeExactly(keepsSource: bool, now: int, events: seq<Event>, r: RequestId)
    requires var s := Run(Initial(keepsSource, now), events); r in s.requests && s.requests[r].phase.Resolved?
    ensures var s := Run(Initial(keepsSource, now), events);
      var q, t := s.requests[r], Advance(s, r, Done);
      && q.inquiry in s.issued && r in t.requests && t.requests[r].phase.Committed? && HasDebit(t.ledger, q.user, q.key)
      && var a, d := t.requests[r].phase.response, ExistingDebit(t.ledger, q.user, q.key);
      && a.transaction == d.request
      && (Describes(a, d) <==> (HasDebit(s.ledger, q.user, q.key) ==>
                                 SamePrice(s.issued[q.inquiry], ExistingDebit(s.ledger, q.user, q.key))))
  {
    hide Run, Initial;
    ReachableInv(keepsSource, now, events);
    var s := Run(Initial(keepsSource, now), events);
    var q, t := s.requests[r], Advance(s, r, Done);
    assert RequestOk(s, q);
    if HasDebit(s.ledger, q.user, q.key) {
      assert DebitOk(s, ExistingDebit(s.ledger, q.user, q.key));
      var d := ExistingDebit(s.ledger, q.user, q.key);
      var i :| 0 <= i < |s.ledger| && s.ledger[i] == d;
      assert DebitOk(s, s.ledger[i]);
    } else {
      assert t.ledger[|s.ledger|].user == q.user && t.ledger[|s.ledger|].key == q.key;
    }
  }

  /** A commit whose answer is lost, and a retry under the same key with another inquiry: the
      retry spends its inquiry, debits nothing, and answers that inquiry's total under the first
      debit's name. */
  lemma RetryNamesAnotherDebit(s: State, r: RequestId, o: Outcomes, r2: RequestId, other: InquiryId, o2: Outcomes)
    requires ReadyToConsume(s, r) && Consumes(o) && UndoWritesSucceed(o)
    requires o.source.Done? && o.execute.LostReply? && s.inquiries[s.requests[r].inquiry].source.Some?
    requires Consumes(o2) && o2.source.Done? && o2.execute.Done? && r2 !in s.requests
    requires other in s.inquiries && other != s.requests[r].inquiry
    requires var q, i := s.requests[r], s.inquiries[other];
      && !HasDebit(s.ledger, q.user, q.key)
      && i.user == q.user && i.source.Some? && s.now < i.expiresAt && i == Cached(s.keepsSource, i)
    ensures var q, i := s.requests[r], s.inquiries[other];
      var t := Apply(Solo(s, r, o), Open(r2, q.user, q.key, q.token, other));
      var u := Solo(t, r2, o2);
      && r2 in u.requests && u.requests[r2].phase == Finished(Ok(Response(r, i.amount, i.fee, i.amount + i.fee), false))
      && other !in u.inquiries && u.ledger == Solo(s, r, o).ledger
      && u.ledger == s.ledger + [NewDebit(r, Consumed(s, r).requests[r], false)]
  {
    hide Drive;
    var q := s.requests[r];
    LateFailureRollsBack(s, r, o);
    LostCommitIsInTheLedger(s, r, o);
    DriveKeepsOthers(s, r, o, MAX_CALLS);
    var t := Apply(Solo(s, r, o), Open(r2, q.user, q.key, q.token, other));
    var n := |s.ledger|;
    assert t.ledger[n].user == q.user && t.ledger[n].key == q.key;
    var d := ExistingDebit(t.ledger, q.user, q.key);
    var k :| 0 <= k < |t.ledger| && t.ledger[k] == d;
    assert k < n ==> s.ledger[k] == d;
    SoloCommits(t, r2, o2);
  }

  /** What the two lemmas about lost replies start from is reached from an empty store. */
  lemma StartsReady(now: int, r: RequestId, user: UserId, key: Key, h: TokenHash,
                    id: InquiryId, offer: Inquiry, other: InquiryId, second: Inquiry)
    requires id != other && offer.user == user && second.user == user
    requires now < offer.expiresAt && now < second.expiresAt && offer.source.Some? && second.source.Some?
    ensures var s := Run(Initial(true, now), [Mint(h, Token(user, PURPOSE)), CreateInquiry(id, offer),
                                              CreateInquiry(other, second), Open(r, user, key, h, id)]);
      && ReadyToConsume(s, r) && id in s.inquiries && s.inquiries[id] == offer && s.ledger == [] && s.idem == map[]
      && other in s.inquiries && s.inquiries[other] == Cached(true, second) == second
  {
    RunFour(Initial(true, now), Mint(h, Token(user, PURPOSE)), CreateInquiry(id, offer), CreateInquiry(other, second),
            Open(r, user, key, h, id));
    hide Run;
  }

  lemma RunFour(s: State, a: Event, b: Event, c: Event, d: Event)
    ensures Run(s, [a, b, c, d]) == Apply(Apply(Apply(Apply(s, a), b), c), d)
  {
    hide Apply;
    assert [a, b, c, d][1..] == [b, c, d] && [b, c, d][1..] == [c, d] && [c, d][1..] == [d] && [d][1..] == [];
    assert Run(Apply(Apply(Apply(s, a), b), c), [d]) == Apply(Apply(Apply(Apply(s, a), b), c), d);
    assert Run(Apply(Apply(s, a), b), [c, d]) == Run(Apply(Apply(Apply(s, a), b), c), [d]);
    assert Run(Apply(s, a), [b, c, d]) == Run(Apply(Apply(s, a), b), [c, d]);
  }
}

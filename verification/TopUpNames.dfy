/** Every success a top-up answers, fresh or replayed, names a debit of its user and key. */
module TopUpNames {
  import opened Basics
  import opened TopUpMachine
  import opened TopUpSafety

  predicate Names(ledger: seq<Debit>, slot: (UserId, Key), a: Response) {
    exists i {:trigger ledger[i]} :: 0 <= i < |ledger| && (ledger[i].user, ledger[i].key) == slot
      && ledger[i].request == a.transaction
  }

  predicate AnswerNamed(ledger: seq<Debit>, q: Request) {
    && (q.phase.Committed? ==> Names(ledger, SlotOf(q), q.phase.response))
    && (q.phase.Finished? && q.phase.result.Ok? ==> Names(ledger, SlotOf(q), q.phase.result.response))
  }

  predicate SlotNamed(s: State, slot: (UserId, Key))
    requires slot in s.idem
  {
    s.idem[slot].Stored? ==> Names(s.ledger, slot, s.idem[slot].response)
  }

  predicate AllNamed(s: State) {
    && (forall r {:trigger s.requests[r]} :: r in s.requests ==> AnswerNamed(s.ledger, s.requests[r]))
    && (forall slot {:trigger SlotNamed(s, slot)} :: slot in s.idem ==> SlotNamed(s, slot))
  }

  lemma NamesGrow(l: seq<Debit>, m: seq<Debit>, slot: (UserId, Key), a: Response)
    requires l <= m && Names(l, slot, a)
    ensures Names(m, slot, a)
  {
    var i :| 0 <= i < |l| && (l[i].user, l[i].key) == slot && l[i].request == a.transaction;
    assert m[i] == l[i];
  }

  lemma ExecutionNamed(s: State, r: RequestId)
    requires r in s.requests && s.requests[r].heldInquiry.Some? && s.requests[r].heldInquiry.value.source.Some?
    ensures AnswerNamed(AdvanceExecute(s, r, Done).ledger, AdvanceExecute(s, r, Done).requests[r])
  {
    var q, t := s.requests[r], AdvanceExecute(s, r, Done);
    if HasDebit(s.ledger, q.user, q.key) {
      var d := ExistingDebit(s.ledger, q.user, q.key);
      var i :| 0 <= i < |s.ledger| && s.ledger[i] == d;
      assert t.ledger[i] == d;
    } else {
      assert t.ledger[|s.ledger|].request == r;
    }
  }

  /** Only the acting request changes, and only its own slot. */
  predicate OwnSlot(s: State, t: State, r: RequestId)
    requires r in s.requests
  {
    && t.requests.Keys == s.requests.Keys && SlotOf(t.requests[r]) == SlotOf(s.requests[r]) && s.ledger <= t.ledger
    && (forall x {:trigger t.requests[x]} :: x in s.requests && x != r ==> t.requests[x] == s.requests[x])
    && (forall slot {:trigger slot in t.idem} :: slot in t.idem ==>
          (slot in s.idem && t.idem[slot] == s.idem[slot])
          || t.idem[slot] == Processing
          || (slot == SlotOf(s.requests[r]) && s.requests[r].phase.Committed?
             && t.idem[slot] == Stored(s.requests[r].phase.response)))
  }

  predicate NamedStep(s: State, t: State, r: RequestId)
    requires r in s.requests
  {
    OwnSlot(s, t, r) && AnswerNamed(t.ledger, t.requests[r])
  }

  lemma ClaimNamed(s: State, r: RequestId, o: Outcome)
    requires r in s.requests && s.requests[r].phase.Fresh?
    requires SlotOf(s.requests[r]) in s.idem ==> SlotNamed(s, SlotOf(s.requests[r]))
    ensures NamedStep(s, AdvanceClaim(s, r, o), r)
  {
    hide Names;
  }

  lemma TokenNamed(s: State, r: RequestId, o: Outcome)
    requires r in s.requests && s.requests[r].phase.Claimed?
    ensures NamedStep(s, AdvanceToken(s, r, o), r)
  {
    hide Names;
  }

  lemma InquiryNamed(s: State, r: RequestId, o: Outcome)
    requires r in s.requests && s.requests[r].phase.TokenTaken?
    ensures NamedStep(s, AdvanceInquiry(s, r, o), r)
  {
    hide Names;
  }

  lemma SourceNamed(s: State, r: RequestId, o: Outcome)
    requires r in s.requests && s.requests[r].phase.InquiryTaken? && s.requests[r].heldInquiry.Some?
    ensures NamedStep(s, AdvanceSource(s, r, o), r)
  {
    hide Names;
  }

  lemma ExecuteNamed(s: State, r: RequestId, o: Outcome)
    requires r in s.requests && s.requests[r].heldInquiry.Some? && s.requests[r].heldInquiry.value.source.Some?
    ensures NamedStep(s, AdvanceExecute(s, r, o), r)
  {
    if o == Done {
      ExecutionNamed(s, r);
    }
    hide Names;
  }

  lemma PersistNamed(s: State, r: RequestId, o: Outcome)
    requires r in s.requests && s.requests[r].phase.Committed? && AnswerNamed(s.ledger, s.requests[r])
    ensures NamedStep(s, AdvancePersist(s, r, o), r)
  {
    hide Names;
  }

  lemma UndoNamed(s: State, r: RequestId, o: Outcome)
    requires r in s.requests
    ensures s.requests[r].phase.Releasing? ==> NamedStep(s, AdvanceRelease(s, r, o), r)
    ensures s.requests[r].phase.RestoringInquiry? ==> NamedStep(s, AdvanceRestoreInquiry(s, r, o), r)
    ensures s.requests[r].phase.RestoringToken? ==> NamedStep(s, AdvanceRestoreToken(s, r, o), r)
  {
    hide Names;
  }

  lemma AdvanceNamed(s: State, r: RequestId, o: Outcome)
    requires r in s.requests && AllNamed(s)
    ensures NamedStep(s, Advance(s, r, o), r)
  {
    hide NamedStep, Names, AdvanceClaim, AdvanceToken, AdvanceInquiry, AdvanceSource, AdvanceExecute, AdvancePersist,
      AdvanceRelease, AdvanceRestoreInquiry, AdvanceRestoreToken;
    var q := s.requests[r];
    assert AnswerNamed(s.ledger, q);
    assert SlotOf(q) in s.idem ==> SlotNamed(s, SlotOf(q));
    match q.phase
    case Fresh => ClaimNamed(s, r, o);
    case Claimed => TokenNamed(s, r, o);
    case TokenTaken => InquiryNamed(s, r, o);
    case InquiryTaken => if q.heldInquiry.Some? { SourceNamed(s, r, o); } else { StutterNamed(s, r); }
    case Resolved =>
      if q.heldInquiry.Some? && q.heldInquiry.value.source.Some? { ExecuteNamed(s, r, o); } else { StutterNamed(s, r); }
    case Committed(_) => PersistNamed(s, r, o);
    case Finished(_) => StutterNamed(s, r);
    case Crashed => StutterNamed(s, r);
    case _ => UndoNamed(s, r, o);
  }

  lemma StutterNamed(s: State, r: RequestId)
    requires r in s.requests && AnswerNamed(s.ledger, s.requests[r])
    ensures NamedStep(s, s, r)
  {}

  lemma ActNamed(s: State, r: RequestId, o: Outcome)
    requires r in s.requests && AllNamed(s)
    ensures AllNamed(Advance(s, r, o))
  {
    hide Advance, Names;
    var t := Advance(s, r, o);
    AdvanceNamed(s, r, o);
    forall x | x in t.requests ensures AnswerNamed(t.ledger, t.requests[x]) {
      if x != r {
        AnswerStays(s.ledger, t.ledger, s.requests[x]);
      }
    }
    AnswerStays(s.ledger, t.ledger, s.requests[r]);
    forall slot | slot in t.idem ensures SlotNamed(t, slot) {
      if slot in s.idem && t.idem[slot] == s.idem[slot] && s.idem[slot].Stored? {
        assert SlotNamed(s, slot);
        NamesGrow(s.ledger, t.ledger, slot, s.idem[slot].response);
      }
    }
  }

  lemma AnswerStays(l: seq<Debit>, m: seq<Debit>, q: Request)
    requires l <= m && AnswerNamed(l, q)
    ensures AnswerNamed(m, q)
  {
    hide Names;
    if q.phase.Committed? {
      NamesGrow(l, m, SlotOf(q), q.phase.response);
    } else if q.phase.Finished? && q.phase.result.Ok? {
      NamesGrow(l, m, SlotOf(q), q.phase.result.response);
    }
  }

  lemma StepNamed(s: State, e: Event)
    requires AllNamed(s)
    ensures AllNamed(Apply(s, e))
  {
    hide Advance, Names;
    if e.Act? {
      if e.request in s.requests { ActNamed(s, e.request, e.outcome); } else { Absent(s, e.request, e.outcome); }
    } else {
      var t := Environment(s, e);
      forall slot | slot in t.idem ensures SlotNamed(t, slot) {
        assert SlotNamed(s, slot);
      }
    }
  }

  lemma Absent(s: State, r: RequestId, o: Outcome)
    requires r !in s.requests
    ensures Advance(s, r, o) == s
  {}

  lemma {:induction false} RunNamed(s: State, events: seq<Event>)
    requires AllNamed(s)
    ensures AllNamed(Run(s, events))
    decreases |events|
  {
    hide AllNamed, Apply;
    if events != [] {
      StepNamed(s, events[0]);
      RunNamed(Apply(s, events[0]), events[1..]);
    }
  }

  /** However requests interleave, fail and are retried, every success answered, fresh or replayed from
      the key store, names a debit in the ledger of that user and key, and the only one. */
  lemma EveryAnswerNamesItsDebit(keepsSource: bool, now: int, events: seq<Event>, r: RequestId)
    requires var s := Run(Initial(keepsSource, now), events);
      r in s.requests && s.requests[r].phase.Finished? && s.requests[r].phase.result.Ok?
    ensures var s := Run(Initial(keepsSource, now), events);
      var q := s.requests[r];
      && Names(s.ledger, (q.user, q.key), q.phase.result.response)
      && forall i, j :: 0 <= i < j < |s.ledger| ==>
         (s.ledger[i].user, s.ledger[i].key) != (s.ledger[j].user, s.ledger[j].key)
  {
    RunNamed(Initial(keepsSource, now), events);
    ReachableInv(keepsSource, now, events);
    var s := Run(Initial(keepsSource, now), events);
    assert AnswerNamed(s.ledger, s.requests[r]);
    forall i, j | 0 <= i < j < |s.ledger| 
      ensures (s.ledger[i].user, s.ledger[i].key) != (s.ledger[j].user, s.ledger[j].key)
    {
      assert PairOk(s.ledger[i], s.ledger[j]);
    }
  }
}

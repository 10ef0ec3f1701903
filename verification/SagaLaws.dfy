/** Every step of the saga's world keeps its invariant; what follows for every run. */
module SagaLaws {
  import opened Int64
  import opened LedgerDomain
  import opened Ledger
  import opened LedgerLaws
  import opened LedgerTheorems
  import opened TransferDomain
  import opened Saga

  // ---------------------------------------------------------------- what the ledger never takes back

  /** Holds stay, and a hold that was captured or released stays that way. */
  ghost predicate HoldsGrow(s: State, t: State) {
    forall h :: h in s.holds ==> && h in t.holds && t.holds[h].(status := s.holds[h].status) == s.holds[h]
                                 && (s.holds[h].status != HoldActive ==> t.holds[h].status == s.holds[h].status)
  }

  /** What no ledger step takes back. */
  ghost predicate Kept(s: State, t: State) {
    Extends(s, t) && HoldsGrow(s, t)
  }

  lemma KeptTransitive(s: State, t: State, u: State)
    requires Kept(s, t) && Kept(t, u)
    ensures Kept(s, u)
  {
    ExtendsTransitive(s, t, u);
  }

  ghost predicate NoNewTransfers(s: State, t: State) {
    forall id :: TransferRef(id) in t.entryRefs ==> TransferRef(id) in s.entryRefs
  }

  lemma CreateGrows(s: State, x: string, c: string, newId: Uuid)
    requires WellFormed(s)
    ensures HoldsGrow(s, CreateAccount(s, x, c, newId).0) && NoNewTransfers(s, CreateAccount(s, x, c, newId).0)
  {
    CreateAccountWrites(s, x, c, newId);
  }

  lemma PlaceGrows(s: State, ref: AccountRef, amount: int64, c: string, r: Reference, e: int, newId: Uuid)
    requires WellFormed(s)
    ensures HoldsGrow(s, PlaceHold(s, ref, amount, c, r, e, newId).0)
    ensures NoNewTransfers(s, PlaceHold(s, ref, amount, c, r, e, newId).0)
  {
    PlaceHoldWrites(s, ref, amount, c, r, e, newId);
  }

  lemma ReleaseGrows(s: State, h: Uuid)
    requires WellFormed(s)
    ensures HoldsGrow(s, Release(s, h).0) && NoNewTransfers(s, Release(s, h).0)
  {
    ReleaseWrites(s, h);
  }

  lemma CommitGrows(s: State, r: Reference, h: Option<Uuid>, legs: seq<Posting>, p: Plan, t: State)
    requires PlanHold(s, r, h, p) && t.entryRefs == s.entryRefs[r := |s.journal|]
    requires t.holds == if h.Some? then s.holds[h.value := p.captured.value] else s.holds
    ensures HoldsGrow(s, t) && (r.kind != "transfer" ==> NoNewTransfers(s, t))
  {
  }

  lemma PostGrows(s: State, r: Reference, h: Option<Uuid>, specs: seq<PostingSpec>)
    requires WellFormed(s)
    ensures HoldsGrow(s, Post(s, r, h, specs).0)
    ensures r.kind != "transfer" ==> NoNewTransfers(s, Post(s, r, h, specs).0)
  {
    PostShape(s, r, h, specs);
    var t := Post(s, r, h, specs).0;
    if t != s {
      var legs := ResolveLegs(s, specs, |specs|).value;
      CommitGrows(s, r, h, legs, PlanPost(s, r, h, legs).value, t);
    }
  }

  lemma ForeignGrows(s: State, op: Op)
    requires WellFormed(s) && (op.OpPost? ==> op.reference.kind != "transfer")
    ensures HoldsGrow(s, Step(s, op)) && NoNewTransfers(s, Step(s, op))
  {
    match op
    case OpCreateAccount(x, c, f) => CreateGrows(s, x, c, f);
    case OpPlaceHold(ref, amount, c, r, e, f) => PlaceGrows(s, ref, amount, c, r, e, f);
    case OpRelease(h) => ReleaseGrows(s, h);
    case OpPost(r, h, specs) => PostGrows(s, r, h, specs);
    case OpSetStatus(a, st) =>
  }

  lemma HoldForStable(t: Transfer, h: Uuid, s: State, s': State)
    requires HoldFor(t, h, s) && Extends(s, s') && HoldsGrow(s, s')
    ensures HoldFor(t, h, s')
  {
  }

  lemma EntryForStable(t: Transfer, s: State, s': State)
    requires EntryFor(t, s) && Extends(s, s')
    ensures EntryFor(t, s')
  {
    ResolveStable(s, s', BuildPostings(t), |BuildPostings(t)|);
  }

  lemma RowStable(t: Transfer, s: State, s': State)
    requires RowOk(t, s) && Extends(s, s') && HoldsGrow(s, s')
    requires TransferRef(t.id) in s'.entryRefs ==> TransferRef(t.id) in s.entryRefs
    ensures RowOk(t, s')
  {
    if t.holdId.Some? {
      HoldForStable(t, t.holdId.value, s, s');
    }
    if TransferRef(t.id) in s.entryRefs {
      EntryForStable(t, s, s');
    }
  }

  lemma RequestStable(store: Store, q: Request, s: State, s': State)
    requires RequestOk(store, s, q) && HoldsGrow(s, s')
    ensures RequestOk(store, s', q)
  {
  }

  lemma ReplyStable(store: Store, r: Reply, s: State, s': State)
    requires ReplyOk(store, s, r) && Extends(s, s') && HoldsGrow(s, s')
    ensures ReplyOk(store, s', r)
  {
  }

  /** Anything the ledger does that adds no entry for a transfer leaves the saga's facts true. */
  lemma LedgerMove(w: World, s': State)
    requires TableInv(w) && Extends(w.ledger, s') && HoldsGrow(w.ledger, s') && NoNewTransfers(w.ledger, s')
    ensures TableInv(w.(ledger := s'))
  {
    var s := w.ledger;
    forall id | id in w.store ensures RecordOk(w.store, s', id) {
      assert RecordOk(w.store, s, id);
      RowStable(w.store[id].row, s, s');
    }
    forall q | q in w.requests ensures RequestOk(w.store, s', q) {
      RequestStable(w.store, q, s, s');
    }
    forall r | r in w.replies ensures ReplyOk(w.store, s', r) {
      ReplyStable(w.store, r, s, s');
    }
  }

  lemma AddReply(w: World, r: Reply)
    requires TableInv(w) && ReplyOk(w.store, w.ledger, r)
    ensures TableInv(w.(replies := w.replies + {r}))
  {
  }

  // ---------------------------------------------------------------- executing requests

  lemma PlaceHoldAnswer(s: State, ref: AccountRef, amount: int64, c: string, r: Reference, e: int, newId: Uuid)
    requires WellFormed(s) && HoldsOk(s)
    ensures var (t, answer) := PlaceHold(s, ref, amount, c, r, e, newId);
            answer.Ok? ==> && answer.value in t.holds && t.holds[answer.value].reference == r
                           && t.holds[answer.value].amount == amount
                           && Resolve(s, ref) == Ok(t.holds[answer.value].account)
  {
  }

  lemma ExecHold(w: World, id: string, ref: AccountRef, amount: int64, currency: string, e: int, newId: Uuid)
    requires TableInv(w) && WellFormed(w.ledger) && HoldsOk(w.ledger)
    requires RequestOk(w.store, w.ledger, HoldReq(id, ref, amount, currency))
    ensures TableInv(Execute(w, HoldReq(id, ref, amount, currency), e, newId))
  {
    var (s', answer) := PlaceHold(w.ledger, ref, amount, currency, TransferRef(id), e, newId);
    HoldExtends(w.ledger, ref, amount, currency, TransferRef(id), e, newId);
    PlaceGrows(w.ledger, ref, amount, currency, TransferRef(id), e, newId);
    LedgerMove(w, s');
    if answer.Ok? {
      PlaceHoldAnswer(w.ledger, ref, amount, currency, TransferRef(id), e, newId);
      assert RecordOk(w.store, w.ledger, id);
      ResolveKept(w.ledger, s', ref);
      assert HoldFor(w.store[id].row, answer.value, s');
      AddReply(w.(ledger := s'), HoldPlaced(id, answer.value));
    } else {
      assert w.replies + {} == w.replies;
    }
  }

  lemma ResolveKept(s: State, t: State, ref: AccountRef)
    requires Extends(s, t) && Resolve(s, ref).Ok?
    ensures Resolve(t, ref) == Resolve(s, ref)
  {
  }

  lemma ExecRelease(w: World, h: Uuid)
    requires TableInv(w) && WellFormed(w.ledger) && h in w.ledger.holds
    ensures TableInv(Execute(w, ReleaseReq(h), 0, 0))
  {
    var (s', answer) := Release(w.ledger, h);
    ReleaseKnown(w.ledger, h);
    ReleaseExtends(w.ledger, h);
    ReleaseGrows(w.ledger, h);
    LedgerMove(w, s');
    if answer.Ok? {
      AddReply(w.(ledger := s'), HoldFreed(h));
    } else {
      assert w.replies + {} == w.replies;
    }
  }

  lemma ReleaseKnown(s: State, h: Uuid)
    requires WellFormed(s) && h in s.holds
    ensures Release(s, h).1 != Err(NotFound)
    ensures Release(s, h).1.Ok? ==> h in Release(s, h).0.holds && Release(s, h).0.holds[h].status == HoldReleased
  {
  }

  /** The entry appears together with the capture of the hold its row names, and only then: a
      released hold refuses it, whenever the request arrives. */
  lemma PostedRow(t: Transfer, s: State, s': State, specs: seq<PostingSpec>, legs: seq<Posting>, p: Plan)
    requires RowOk(t, s) && t.holdId.Some? && specs == BuildPostings(t)
    requires ResolveLegs(s, specs, |specs|) == Ok(legs)
    requires Committed(s, TransferRef(t.id), t.holdId, legs, p, s')
    requires Extends(s, s') && HoldsGrow(s, s')
    ensures RowOk(t, s')
  {
    HoldForStable(t, t.holdId.value, s, s');
    ResolveStable(s, s', specs, |specs|);
  }

  lemma ExecPost(w: World, id: string, holdId: Option<Uuid>, specs: seq<PostingSpec>)
    requires TableInv(w) && WellFormed(w.ledger)
    requires RequestOk(w.store, w.ledger, PostReq(id, holdId, specs))
    ensures TableInv(Execute(w, PostReq(id, holdId, specs), 0, 0))
  {
    var s := w.ledger;
    var (s', answer) := Post(s, TransferRef(id), holdId, specs);
    PostShape(s, TransferRef(id), holdId, specs);
    PostExtends(s, TransferRef(id), holdId, specs);
    PostGrows(s, TransferRef(id), holdId, specs);
    assert RecordOk(w.store, s, id);
    if s' == s {
      LedgerMove(w, s');
    } else {
      var legs := ResolveLegs(s, specs, |specs|).value;
      PostedRow(w.store[id].row, s, s', specs, legs, PlanPost(s, TransferRef(id), holdId, legs).value);
      PostedWorld(w, s', id);
    }
    if answer.Ok? {
      PostLeaves(s, TransferRef(id), holdId, specs);
      AddReply(w.(ledger := s'), PostDone(id));
    } else {
      assert w.replies + {} == w.replies;
    }
  }

  lemma PostedWorld(w: World, s': State, id: string)
    requires TableInv(w) && id in w.store && RowOk(w.store[id].row, s')
    requires Extends(w.ledger, s') && HoldsGrow(w.ledger, s')
    requires forall k :: TransferRef(k) in s'.entryRefs ==> TransferRef(k) in w.ledger.entryRefs || k == id
    ensures TableInv(w.(ledger := s'))
  {
    var s := w.ledger;
    forall k | k in w.store ensures RecordOk(w.store, s', k) {
      assert RecordOk(w.store, s, k);
      if k != id {
        RowStable(w.store[k].row, s, s');
      }
    }
    forall q | q in w.requests ensures RequestOk(w.store, s', q) {
      RequestStable(w.store, q, s, s');
    }
    forall r | r in w.replies ensures ReplyOk(w.store, s', r) {
      ReplyStable(w.store, r, s, s');
    }
  }

  // ---------------------------------------------------------------- transitions

  /** The written row is good whatever changed on it, edge by edge. */
  lemma Edges(t: Transfer, u: Transfer, e: Trigger, s: State)
    requires RowOk(t, s) && HoldsOk(s)
    requires Next(t.phase, e) == Some(u.phase)
    requires u.(phase := t.phase, to := t.to, counterAmount := t.counterAmount, counterCurrency := t.counterCurrency,
                rateMicros := t.rateMicros, ratePair := t.ratePair, reason := t.reason, holdId := t.holdId) == t
    requires e != EvValidated ==> SameFixed(t, u)
    requires e == EvValidated ==> CounterOk(u)
    requires if e == EvPostingStarted then u.holdId.Some? && HoldFor(u, u.holdId.value, s)
             else u.holdId == t.holdId
    requires e == EvPosted ==> TransferRef(t.id) in s.entryRefs
    requires e == EvReleased && t.holdId.Some? ==> s.holds[t.holdId.value].status == HoldReleased
    ensures GoodMove(t, u, e, s)
  {
    TableDescends(t.phase, e);
    if TransferRef(t.id) in s.entryRefs {
      assert BuildPostings(t) == BuildPostings(u);
    }
  }

  /** A driver's transition from a snapshot t with changed columns t'. */
  ghost predicate MoveOk(store: Store, s: State, t: Transfer, t': Transfer, e: Trigger) {
    && t.id in store && Became(t, store[t.id].row) && Next(t.phase, e).Some?
    && t'.(to := t.to, counterAmount := t.counterAmount, counterCurrency := t.counterCurrency,
           rateMicros := t.rateMicros, ratePair := t.ratePair, reason := t.reason, holdId := t.holdId) == t
    && (if e == EvValidated then CounterOk(t') else SameFixed(t, t'))
    && (if e == EvPostingStarted then t'.holdId.Some? && HoldFor(t', t'.holdId.value, s) else t'.holdId == t.holdId)
    && (e == EvPosted ==> TransferRef(t.id) in s.entryRefs)
    && (e == EvReleased && t.holdId.Some? ==> t.holdId.value in s.holds
                                              && s.holds[t.holdId.value].status == HoldReleased)
  }

  lemma DriverMove(w: World, d: nat, t: Transfer, t': Transfer, e: Trigger)
    requires TableInv(w) && HoldsOk(w.ledger) && MoveOk(w.store, w.ledger, t, t', e)
    ensures GoodStep(w, Move(w, d, t', e))
  {
    var rec := w.store[t.id];
    assert RecordOk(w.store, w.ledger, t.id);
    if rec.row.phase == t.phase {
      Edges(rec.row, Transition(rec, t', Next(t.phase, e).value).row, e, w.ledger);
    }
    MoveInv(w, d, t', e);
  }

  lemma Holder(w: World, d: nat)
    requires TableInv(w) && !At(w, d).Idle?
    ensures DriverOk(w.store, At(w, d))
  {
  }

  // ---------------------------------------------------------------- every action

  lemma NewRowOk(id: string, kind: Kind, customer: string, from: string, to: string, number: string,
                 amount: int64, currency: string)
    requires id != "" && ValidateSpec(kind, from, to, number, amount, currency).None?
    ensures SpecOk(NewTransfer(id, kind, customer, from, to, number, amount, currency))
  {
  }

  /** A new row under a new id concerns nobody else. */
  lemma CreatedRecord(store: Store, s: State, id: string, rec: Record, k: string)
    requires id !in store && k in store && RecordOk(store, s, k)
    ensures k in store[id := rec] && RecordOk(store[id := rec], s, k)
  {
  }

  lemma CreatedDriver(store: Store, id: string, rec: Record, d: Driver)
    requires id !in store && DriverOk(store, d)
    ensures DriverOk(store[id := rec], d)
  {
  }

  lemma CreatedLink(store: Store, s: State, id: string, rec: Record)
    requires id !in store
    ensures forall q :: RequestOk(store, s, q) ==> RequestOk(store[id := rec], s, q)
    ensures forall r :: ReplyOk(store, s, r) ==> ReplyOk(store[id := rec], s, r)
  {
  }

  lemma CreatedRow(store: Store, s: State, t: Transfer)
    requires t.phase == Created && t.holdId.None? && SpecOk(t) && TransferRef(t.id) !in s.entryRefs
    ensures var rec := Record(t, [Hop(Created, Created)], []); RecordOk(store[t.id := rec], s, t.id)
  {
  }

  lemma CreateInv(w: World, id: string, t: Transfer)
    requires TableInv(w) && id !in w.store && t.id == id && t.phase == Created && t.holdId.None? && SpecOk(t)
    ensures GoodStep(w, w.(store := w.store[id := Record(t, [Hop(Created, Created)], [])]))
  {
    var rec := Record(t, [Hop(Created, Created)], []);
    var store := w.store[id := rec];
    CreatedRow(w.store, w.ledger, t);
    forall k | k in store ensures RecordOk(store, w.ledger, k) {
      if k != id {
        CreatedRecord(w.store, w.ledger, id, rec, k);
      }
    }
    forall d | d in w.drivers ensures DriverOk(store, w.drivers[d]) {
      CreatedDriver(w.store, id, rec, w.drivers[d]);
    }
    CreatedLink(w.store, w.ledger, id, rec);
    assert forall q :: q in w.requests ==> RequestOk(w.store, w.ledger, q);
    assert forall r :: r in w.replies ==> ReplyOk(w.store, w.ledger, r);
  }

  lemma AttemptsDoNotMatter(t: Transfer, n: nat, s: State)
    requires RowOk(t, s)
    ensures RowOk(t.(attempts := n), s)
  {
    assert BuildPostings(t.(attempts := n)) == BuildPostings(t);
  }

  lemma CountAttemptOk(store: Store, s: State, id: string)
    requires id in store && RecordOk(store, s, id)
    ensures Became(store[id].row, CountAttempt(store[id]).row)
    ensures RecordOk(store[id := CountAttempt(store[id])], s, id)
  {
    AttemptsDoNotMatter(store[id].row, store[id].row.attempts + 1, s);
  }

  lemma ClaimInv(w: World, id: string)
    requires TableInv(w) && id in w.store
    ensures GoodStep(w, Claimed(w, id))
  {
    CountAttemptOk(w.store, w.ledger, id);
    ReplaceRecord(w, id, CountAttempt(w.store[id]));
  }

  lemma LoadInv(w: World, d: nat, id: string, s: Driver)
    requires TableInv(w) && id in w.store && (s == Loaded(w.store[id].row) || s == Recovering(w.store[id].row))
    ensures TableInv(Park(w, d, s))
  {
    assert RecordOk(w.store, w.ledger, id);
    ParkInv(w, d, s);
  }

  lemma SendHoldInv(w: World, d: nat)
    requires TableInv(w) && Enabled(w, SendHold(d))
    ensures var t := At(w, d).t;
            TableInv(Send(w, d, AwaitHold(t), HoldReq(t.id, SourceRef(t), t.amount, t.currency)))
  {
    Holder(w, d);
    var t := At(w, d).t;
    SendInv(w, d, AwaitHold(t), HoldReq(t.id, SourceRef(t), t.amount, t.currency));
  }

  /** A post is sent only with the hold and the legs of its row, which no later write changes. */
  lemma SendPostInv(w: World, d: nat)
    requires TableInv(w) && Enabled(w, SendPost(d))
    ensures var t := At(w, d).t;
            TableInv(Send(w, d, AwaitPost(t), PostReq(t.id, t.holdId, BuildPostings(t))))
  {
    Holder(w, d);
    var t := At(w, d).t;
    assert RecordOk(w.store, w.ledger, t.id);
    SamePostings(t, w.store[t.id].row);
    SendInv(w, d, AwaitPost(t), PostReq(t.id, t.holdId, BuildPostings(t)));
  }

  lemma SendReleaseInv(w: World, d: nat)
    requires TableInv(w) && Enabled(w, SendRelease(d))
    ensures TableInv(Send(w, d, AwaitRelease(At(w, d).t), ReleaseReq(At(w, d).t.holdId.value)))
  {
    Holder(w, d);
    var t := At(w, d).t;
    assert RecordOk(w.store, w.ledger, t.id);
    SendInv(w, d, AwaitRelease(t), ReleaseReq(t.holdId.value));
  }

  lemma RejectInv(w: World, d: nat, reason: string)
    requires TableInv(w) && HoldsOk(w.ledger) && At(w, d).Loaded? && At(w, d).t.phase == Validating
    ensures GoodStep(w, Move(w, d, At(w, d).t.(reason := Some(reason)), EvValidationFailed))
  {
    Holder(w, d);
    var t := At(w, d).t;
    DriverMove(w, d, t, t.(reason := Some(reason)), EvValidationFailed);
  }

  lemma AcceptInv(w: World, d: nat, v: Verdict)
    requires TableInv(w) && HoldsOk(w.ledger) && At(w, d).Loaded? && At(w, d).t.phase == Validating
    requires v.Accept? && CounterOk(Accepted(At(w, d).t, v))
    ensures GoodStep(w, Move(w, d, Accepted(At(w, d).t, v), EvValidated))
  {
    Holder(w, d);
    DriverMove(w, d, At(w, d).t, Accepted(At(w, d).t, v), EvValidated);
  }

  lemma SettleInv(w: World, d: nat, v: Verdict)
    requires TableInv(w) && HoldsOk(w.ledger) && At(w, d).Loaded? && At(w, d).t.phase == Validating
    requires v.Accept? ==> CounterOk(Accepted(At(w, d).t, v))
    ensures GoodStep(w, Settle(w, d, At(w, d).t, v))
  {
    match v
    case Postpone => ParkInv(w, d, Idle);
    case Abort => ParkInv(w, d, Idle);
    case Reject(reason) => RejectInv(w, d, reason);
    case Accept(_, _, _, _, _) => AcceptInv(w, d, v);
  }

  lemma ValidateInv(w: World, d: nat, answers: Answers)
    requires TableInv(w) && HoldsOk(w.ledger) && At(w, d).Loaded? && At(w, d).t.phase == Validating
    ensures GoodStep(w, Settle(w, d, At(w, d).t, Judge(At(w, d).t, answers)))
  {
    if Judge(At(w, d).t, answers).Accept? {
      AcceptOk(At(w, d).t, answers);
    }
    SettleInv(w, d, Judge(At(w, d).t, answers));
  }

  lemma HoldOkInv(w: World, d: nat, h: Uuid)
    requires TableInv(w) && HoldsOk(w.ledger) && At(w, d).AwaitHold? && HoldPlaced(At(w, d).t.id, h) in w.replies
    ensures GoodStep(w, Move(w, d, At(w, d).t.(holdId := Some(h)), EvPostingStarted))
  {
    Holder(w, d);
    var t := At(w, d).t;
    assert ReplyOk(w.store, w.ledger, HoldPlaced(t.id, h));
    HoldMoveOk(w.store, w.ledger, t, h);
    DriverMove(w, d, t, t.(holdId := Some(h)), EvPostingStarted);
  }

  lemma HoldMoveOk(store: Store, s: State, t: Transfer, h: Uuid)
    requires t.id in store && Became(t, store[t.id].row) && t.phase == Held && HoldFor(store[t.id].row, h, s)
    ensures MoveOk(store, s, t, t.(holdId := Some(h)), EvPostingStarted)
  {
    HoldForSame(store[t.id].row, t.(holdId := Some(h)), h, s);
  }

  lemma HoldForSame(t: Transfer, u: Transfer, h: Uuid, s: State)
    requires HoldFor(t, h, s) && SameCore(t, u)
    ensures HoldFor(u, h, s)
  {
  }

  lemma ReleaseOkInv(w: World, d: nat)
    requires TableInv(w) && HoldsOk(w.ledger) && At(w, d).AwaitRelease? && At(w, d).t.holdId.Some?
    requires HoldFreed(At(w, d).t.holdId.value) in w.replies || HoldUnknown(At(w, d).t.holdId.value) in w.replies
    ensures GoodStep(w, Move(w, d, At(w, d).t, EvReleased))
  {
    Holder(w, d);
    var t := At(w, d).t;
    assert HoldUnknown(t.holdId.value) in w.replies ==> ReplyOk(w.store, w.ledger, HoldUnknown(t.holdId.value));
    assert ReplyOk(w.store, w.ledger, HoldFreed(t.holdId.value));
    DriverMove(w, d, t, t, EvReleased);
  }

  lemma StartInv(w: World, d: nat)
    requires TableInv(w) && HoldsOk(w.ledger) && At(w, d).Loaded? && At(w, d).t.phase == Created
    ensures GoodStep(w, Move(w, d, At(w, d).t, EvStart))
  {
    Holder(w, d);
    var t := At(w, d).t;
    DriverMove(w, d, t, t, EvStart);
  }

  lemma HoldRefusedInv(w: World, d: nat, reason: string)
    requires TableInv(w) && HoldsOk(w.ledger) && At(w, d).AwaitHold?
    ensures GoodStep(w, Move(w, d, At(w, d).t.(reason := Some(reason)), EvHoldFailed))
  {
    Holder(w, d);
    var t := At(w, d).t;
    DriverMove(w, d, t, t.(reason := Some(reason)), EvHoldFailed);
  }

  /** A HELD snapshot never carries a hold id, so this branch of the code is not taken. */
  lemma AdvanceHeldNever(w: World, d: nat)
    requires TableInv(w)
    ensures !Enabled(w, AdvanceHeld(d))
  {
    if !At(w, d).Idle? {
      Holder(w, d);
    }
  }

  lemma PostOkInv(w: World, d: nat)
    requires TableInv(w) && HoldsOk(w.ledger) && At(w, d).AwaitPost? && PostDone(At(w, d).t.id) in w.replies
    ensures GoodStep(w, Move(w, d, At(w, d).t, EvPosted))
  {
    Holder(w, d);
    var t := At(w, d).t;
    assert ReplyOk(w.store, w.ledger, PostDone(t.id));
    DriverMove(w, d, t, t, EvPosted);
  }

  lemma PostRefusedInv(w: World, d: nat, reason: string)
    requires TableInv(w) && HoldsOk(w.ledger) && At(w, d).AwaitPost?
    ensures GoodStep(w, Move(w, d, At(w, d).t.(reason := Some(reason)), EvPostFailed))
  {
    Holder(w, d);
    var t := At(w, d).t;
    DriverMove(w, d, t, t.(reason := Some(reason)), EvPostFailed);
  }

  lemma ReleaseNothingInv(w: World, d: nat)
    requires TableInv(w) && HoldsOk(w.ledger) && At(w, d).Loaded? && At(w, d).t.phase == Releasing && At(w, d).t.holdId.None?
    ensures GoodStep(w, Move(w, d, At(w, d).t, EvReleased))
  {
    Holder(w, d);
    var t := At(w, d).t;
    DriverMove(w, d, t, t, EvReleased);
  }

  lemma ProbeFoundInv(w: World, d: nat)
    requires TableInv(w) && HoldsOk(w.ledger) && At(w, d).AwaitProbe? && EntryFound(At(w, d).t.id) in w.replies
    ensures GoodStep(w, Move(w, d, At(w, d).t, EvPosted))
  {
    Holder(w, d);
    var t := At(w, d).t;
    assert ReplyOk(w.store, w.ledger, EntryFound(t.id));
    DriverMove(w, d, t, t, EvPosted);
  }

  lemma ExhaustInv(w: World, d: nat, t: Transfer)
    requires TableInv(w) && HoldsOk(w.ledger) && !At(w, d).Idle? && t == At(w, d).t
    requires t.phase == Held || t.phase == Phase.Posting
    ensures GoodStep(w, Move(w, d, t.(reason := Some("recovery_exhausted")), EvRecoveryExhausted))
  {
    Holder(w, d);
    DriverMove(w, d, t, t.(reason := Some("recovery_exhausted")), EvRecoveryExhausted);
  }

  lemma ProbingInv(w: World, d: nat)
    requires TableInv(w) && !At(w, d).Idle? && At(w, d).t.phase == Phase.Posting
    ensures TableInv(Send(w, d, AwaitProbe(At(w, d).t), ProbeReq(At(w, d).t.id)))
  {
    Holder(w, d);
    SendInv(w, d, AwaitProbe(At(w, d).t), ProbeReq(At(w, d).t.id));
  }

  lemma ExecInv(w: World, q: Request, e: int, newId: Uuid)
    requires TableInv(w) && WellFormed(w.ledger) && HoldsOk(w.ledger) && q in w.requests
    ensures TableInv(Execute(w, q, e, newId))
  {
    assert RequestOk(w.store, w.ledger, q);
    match q
    case HoldReq(id, ref, amount, currency) => ExecHold(w, id, ref, amount, currency, e, newId);
    case PostReq(id, holdId, specs) => ExecPost(w, id, holdId, specs);
    case ReleaseReq(h) => ExecRelease(w, h);
    case ProbeReq(id) =>
      if TransferRef(id) in w.ledger.entryRefs {
        AddReply(w, EntryFound(id));
      } else {
        assert w.replies + {} == w.replies;
      }
  }

  /** A driver writes its row. */
  predicate WritesEarly(a: Action) {
    a.Start? || a.Validate? || a.HoldOk? || a.HoldRefused? || a.AdvanceHeld?
  }

  predicate WritesLate(a: Action) {
    a.PostOk? || a.PostRefused? || a.ReleaseOk? || a.ReleaseNothing?
  }

  /** A driver puts a request on the wire. */
  predicate Sends(a: Action) {
    a.SendHold? || a.SendPost? || a.SendRelease? || a.SendProbe?
  }

  lemma WriteEarlyTable(w: World, a: Action)
    requires TableInv(w) && WellFormed(w.ledger) && HoldsOk(w.ledger) && Enabled(w, a) && WritesEarly(a)
    ensures GoodStep(w, Do(w, a))
  {
    match a
    case Start(d) => StartInv(w, d);
    case Validate(d, answers) => ValidateInv(w, d, answers);
    case HoldOk(d, h) => HoldOkInv(w, d, h);
    case HoldRefused(d, reason) => HoldRefusedInv(w, d, reason);
    case AdvanceHeld(d) => AdvanceHeldNever(w, d);
  }

  lemma WriteLateTable(w: World, a: Action)
    requires TableInv(w) && WellFormed(w.ledger) && HoldsOk(w.ledger) && Enabled(w, a) && WritesLate(a)
    ensures GoodStep(w, Do(w, a))
  {
    match a
    case PostOk(d) => PostOkInv(w, d);
    case PostRefused(d, reason) => PostRefusedInv(w, d, reason);
    case ReleaseOk(d) => ReleaseOkInv(w, d);
    case ReleaseNothing(d) => ReleaseNothingInv(w, d);
  }

  lemma ProbeFoundTable(w: World, a: Action)
    requires TableInv(w) && WellFormed(w.ledger) && HoldsOk(w.ledger) && Enabled(w, a) && a.ProbeFound?
    ensures GoodStep(w, Do(w, a))
  {
    ProbeFoundInv(w, a.d);
  }

  lemma ExhaustTable(w: World, a: Action)
    requires TableInv(w) && WellFormed(w.ledger) && HoldsOk(w.ledger) && Enabled(w, a) && a.Exhaust?
    ensures GoodStep(w, Do(w, a))
  {
    Holder(w, a.d);
    ExhaustInv(w, a.d, At(w, a.d).t);
  }

  lemma SendTable(w: World, a: Action)
    requires TableInv(w) && WellFormed(w.ledger) && Enabled(w, a) && Sends(a)
    ensures TableInv(Do(w, a))
  {
    match a
    case SendHold(d) => SendHoldInv(w, d);
    case SendPost(d) => SendPostInv(w, d);
    case SendRelease(d) => SendReleaseInv(w, d);
    case SendProbe(d) => ProbingInv(w, d);
  }

  lemma ReadTable(w: World, a: Action)
    requires TableInv(w) && WellFormed(w.ledger) && Enabled(w, a)
    requires a.Load? || a.Leave? || a.RecoverLoad?
    ensures TableInv(Do(w, a))
  {
    match a
    case Load(d, id) => LoadInv(w, d, id, Loaded(w.store[id].row));
    case Leave(d) => ParkInv(w, d, Idle);
    case RecoverLoad(d, id) => LoadInv(w, d, id, Recovering(w.store[id].row));
  }

  lemma ProbeOpenTable(w: World, a: Action)
    requires TableInv(w) && WellFormed(w.ledger) && Enabled(w, a) && a.ProbeOpen?
    ensures TableInv(Do(w, a))
  {
    Holder(w, a.d);
    ParkInv(w, a.d, Unresolved(At(w, a.d).t));
  }

  lemma CreateTable(w: World, a: Action)
    requires TableInv(w) && WellFormed(w.ledger) && Enabled(w, a) && a.Create?
    ensures GoodStep(w, Do(w, a))
  {
    NewRowOk(a.id, a.kind, a.customer, a.from, a.to, a.toNumber, a.amount, a.currency);
    CreateInv(w, a.id, NewTransfer(a.id, a.kind, a.customer, a.from, a.to, a.toNumber, a.amount, a.currency));
  }

  lemma LinkTable(w: World, a: Action)
    requires TableInv(w) && WellFormed(w.ledger) && HoldsOk(w.ledger) && Enabled(w, a) && (a.Exec? || a.Foreign?)
    ensures TableInv(Do(w, a))
  {
    if a.Exec? {
      ExecInv(w, a.req, a.expiresAt, a.newId);
    } else {
      ForeignInv(w, a.op);
    }
  }

  lemma ClaimTable(w: World, a: Action)
    requires TableInv(w) && WellFormed(w.ledger) && Enabled(w, a) && a.Claim?
    ensures GoodStep(w, Do(w, a))
  {
    ClaimInv(w, a.id);
  }

  lemma AdvancedSelf(store: Store)
    ensures Advanced(store, store)
  {
  }

  lemma SendKeepsStore(w: World, a: Action)
    requires WellFormed(w.ledger) && Enabled(w, a) && Sends(a)
    ensures Do(w, a).store == w.store
  {
  }

  lemma ReadKeepsStore(w: World, a: Action)
    requires WellFormed(w.ledger) && Enabled(w, a) && (a.Load? || a.Leave? || a.RecoverLoad? || a.ProbeOpen?)
    ensures Do(w, a).store == w.store
  {
  }

  lemma LinkKeepsStore(w: World, a: Action)
    requires WellFormed(w.ledger) && Enabled(w, a) && (a.Exec? || a.Foreign?)
    ensures Do(w, a).store == w.store
  {
  }

  lemma DoTable(w: World, a: Action)
    requires TableInv(w) && WellFormed(w.ledger) && HoldsOk(w.ledger) && Enabled(w, a)
    ensures GoodStep(w, Do(w, a))
  {
    AdvancedSelf(w.store);
    if WritesEarly(a) {
      WriteEarlyTable(w, a);
    } else if WritesLate(a) {
      WriteLateTable(w, a);
    } else if a.ProbeFound? {
      ProbeFoundTable(w, a);
    } else if a.Exhaust? {
      ExhaustTable(w, a);
    } else if Sends(a) {
      SendTable(w, a);
      SendKeepsStore(w, a);
    } else if a.Exec? || a.Foreign? {
      LinkTable(w, a);
      LinkKeepsStore(w, a);
    } else if a.Create? {
      CreateTable(w, a);
    } else if a.Claim? {
      ClaimTable(w, a);
    } else if a.ProbeOpen? {
      ProbeOpenTable(w, a);
      ReadKeepsStore(w, a);
    } else {
      ReadTable(w, a);
      ReadKeepsStore(w, a);
    }
  }

  lemma ForeignInv(w: World, op: Op)
    requires TableInv(w) && WellFormed(w.ledger) && Enabled(w, Foreign(op))
    ensures TableInv(w.(ledger := Step(w.ledger, op)))
  {
    StepExtends(w.ledger, op);
    ForeignGrows(w.ledger, op);
    LedgerMove(w, Step(w.ledger, op));
  }

  lemma ExecLedger(w: World, q: Request, e: int, newId: Uuid)
    requires Inv(w.ledger)
    ensures Inv(Execute(w, q, e, newId).ledger)
    ensures Kept(w.ledger, Execute(w, q, e, newId).ledger)
  {
    match q
    case HoldReq(id, ref, amount, currency) =>
      PlaceHoldInv(w.ledger, ref, amount, currency, TransferRef(id), e, newId);
      HoldExtends(w.ledger, ref, amount, currency, TransferRef(id), e, newId);
      PlaceGrows(w.ledger, ref, amount, currency, TransferRef(id), e, newId);
    case PostReq(id, holdId, specs) =>
      PostInv(w.ledger, TransferRef(id), holdId, specs);
      PostExtends(w.ledger, TransferRef(id), holdId, specs);
      PostGrows(w.ledger, TransferRef(id), holdId, specs);
    case ReleaseReq(h) =>
      ReleaseInv(w.ledger, h);
      ReleaseExtends(w.ledger, h);
      ReleaseGrows(w.ledger, h);
    case ProbeReq(id) =>
  }

  lemma EarlyKeepsLedger(w: World, a: Action)
    requires WellFormed(w.ledger) && Enabled(w, a) && WritesEarly(a)
    ensures Do(w, a).ledger == w.ledger
  {
  }

  lemma LateKeepsLedger(w: World, a: Action)
    requires WellFormed(w.ledger) && Enabled(w, a) && (WritesLate(a) || a.ProbeFound? || a.Exhaust?)
    ensures Do(w, a).ledger == w.ledger
  {
  }

  lemma SendKeepsLedger(w: World, a: Action)
    requires WellFormed(w.ledger) && Enabled(w, a) && Sends(a)
    ensures Do(w, a).ledger == w.ledger
  {
  }

  lemma ReadKeepsLedger(w: World, a: Action)
    requires WellFormed(w.ledger) && Enabled(w, a)
    requires a.Create? || a.Claim? || a.Load? || a.Leave? || a.RecoverLoad? || a.ProbeOpen?
    ensures Do(w, a).ledger == w.ledger
  {
  }

  lemma LedgerUntouched(w: World, a: Action)
    requires WellFormed(w.ledger) && Enabled(w, a) && !a.Exec? && !a.Foreign?
    ensures Do(w, a).ledger == w.ledger
  {
    if WritesEarly(a) {
      EarlyKeepsLedger(w, a);
    } else if WritesLate(a) || a.ProbeFound? || a.Exhaust? {
      LateKeepsLedger(w, a);
    } else if Sends(a) {
      SendKeepsLedger(w, a);
    } else {
      ReadKeepsLedger(w, a);
    }
  }

  /** The ledger seen by the saga only ever takes ledger steps. */
  lemma DoLedger(w: World, a: Action)
    requires Inv(w.ledger) && Enabled(w, a)
    ensures Inv(Do(w, a).ledger)
    ensures Kept(w.ledger, Do(w, a).ledger)
  {
    if a.Exec? {
      ExecLedger(w, a.req, a.expiresAt, a.newId);
    } else if a.Foreign? {
      StepInv(w.ledger, a.op);
      StepExtends(w.ledger, a.op);
      ForeignGrows(w.ledger, a.op);
    } else {
      LedgerUntouched(w, a);
    }
  }

  lemma DoInv(w: World, a: Action)
    requires WorldInv(w) && Enabled(w, a)
    ensures WorldInv(Do(w, a)) && Advanced(w.store, Do(w, a).store)
  {
    DoTable(w, a);
    DoLedger(w, a);
  }
}

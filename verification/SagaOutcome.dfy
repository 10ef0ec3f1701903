/** How an undisturbed drive ends, by the transfer's row and the ledger it starts from. */
module SagaOutcome {
  import opened Int64
  import opened LedgerDomain
  import opened Ledger
  import opened LedgerLaws
  import LedgerExact
  import LedgerAnswers
  import opened TransferDomain
  import opened Saga
  import opened SagaDrive
  import SagaTheorems
  import SagaContract
  import opened SagaPayment

  // ---------------------------------------------------------------- stepping through a drive

  /** A turn that goes on, and then a drive, is a drive. */
  lemma DrivesOn(store: Store, s: State, id: string, env: Env, q: Turning, r: Turning)
    requires id in store && store[id].row.id == id && WellFormed(s) && !IsTerminal(store[id].row.phase)
    requires q == TurnOf(store, s, store[id].row, env) && !q.parked && !q.failed
    requires id in q.store && Rank(q.store[id].row.phase) < Rank(store[id].row.phase)
    requires Drives(q.store, q.ledger, id, env, r)
    ensures Drives(store, s, id, env, r)
  {
    var trace :| DrivesBy(trace, q.store, q.ledger, id, env, r);
    var more := [Onward(store, s)] + trace;
    forall i | 0 < i < |more| ensures TurnAt(more, i, id, env) {
      if 1 < i {
        assert TurnAt(trace, i - 1, id, env);
      }
    }
    assert DrivesBy(more, store, s, id, env, r);
  }

  /** A turn that parks or fails is the whole drive. */
  lemma DrivesHalt(store: Store, s: State, id: string, env: Env, q: Turning)
    requires id in store && store[id].row.id == id && WellFormed(s) && !IsTerminal(store[id].row.phase)
    requires q == TurnOf(store, s, store[id].row, env) && (q.parked || q.failed)
    ensures Drives(store, s, id, env, q)
  {
    var trace := [Onward(store, s), q];
    forall i | 0 < i < |trace| ensures TurnAt(trace, i, id, env) {
    }
    assert DrivesBy(trace, store, s, id, env, q);
  }

  /** The drive runs to a terminal row and leaves these tables. */
  ghost predicate EndsAs(store: Store, s: State, id: string, env: Env, row: Transfer, s': State) {
    exists r :: && Drives(store, s, id, env, r) && r.ledger == s' && !r.parked && !r.failed
                && id in r.store && r.store[id].row == row && IsTerminal(row.phase)
  }

  lemma EndsOnce(store: Store, s: State, id: string, env: Env, row: Transfer, s': State, r: Turning)
    requires EndsAs(store, s, id, env, row, s') && Drives(store, s, id, env, r)
    ensures !r.parked && !r.failed && id in r.store && r.store[id].row == row && r.ledger == s'
  {
    var q :| Drives(store, s, id, env, q) && q.ledger == s' && !q.parked && !q.failed && id in q.store && q.store[id].row == row;
    DrivesUnique(store, s, id, env, r, q);
  }

  ghost predicate Stands(store: Store, s: State, id: string, p: Phase) {
    Inv(s) && Consistent(store, s) && id in store && store[id].row.id == id && store[id].row.phase == p
  }

  lemma EndsNext(store: Store, s: State, id: string, env: Env, q: Turning, row: Transfer, s': State)
    requires Inv(s) && Consistent(store, s) && id in store && store[id].row.id == id && !IsTerminal(store[id].row.phase)
    requires q == TurnOf(store, s, store[id].row, env) && !q.parked && !q.failed
    requires EndsAs(q.store, q.ledger, id, env, row, s')
    ensures EndsAs(store, s, id, env, row, s')
  {
    TurnGood(store, s, store[id].row, env);
    var r :| Drives(q.store, q.ledger, id, env, r) && r.ledger == s' && !r.parked && !r.failed
             && id in r.store && r.store[id].row == row;
    DrivesOn(store, s, id, env, q, r);
  }

  lemma EndsNow(store: Store, s: State, id: string, env: Env, q: Turning)
    requires Inv(s) && Consistent(store, s) && id in store && store[id].row.id == id && !IsTerminal(store[id].row.phase)
    requires q == TurnOf(store, s, store[id].row, env) && !q.parked && !q.failed
    requires id in q.store && IsTerminal(q.store[id].row.phase)
    ensures EndsAs(store, s, id, env, q.store[id].row, q.ledger)
  {
    DrivesNow(q.store, q.ledger, id, env);
    EndsNext(store, s, id, env, q, q.store[id].row, q.ledger);
  }

  lemma MovedSelf(store: Store, id: string, u: Transfer, next: Phase)
    requires id in store && u.id == id && u.phase == store[id].row.phase
    requires u == store[id].row.(reason := u.reason, holdId := u.holdId)
    ensures id in Moved(store, u, next) && Moved(store, u, next)[id].row == u.(phase := next)
  {
  }

  // ---------------------------------------------------------------- from each phase

  /** A row that names no hold is just marked. */
  lemma ReleasingEnds(store: Store, s: State, id: string, env: Env)
    requires Stands(store, s, id, Releasing) && env.faults == map[] && store[id].row.holdId.None?
    ensures EndsAs(store, s, id, env, store[id].row.(phase := Failed), s)
  {
    var t := store[id].row;
    MovedSelf(store, id, t, Failed);
    EndsNow(store, s, id, env, TurnOf(store, s, t, env));
  }

  lemma ReleaseFreely(store: Store, s: State, t: Transfer, env: Env, h: Uuid)
    requires WellFormed(s) && t.id in store && t.phase == Releasing && t.holdId == Some(h) && env.faults == map[]
    requires Release(s, h).1.Ok?
    ensures TurnOf(store, s, t, env) == Onward(Moved(store, t, Failed), Release(s, h).0)
  {
  }

  lemma ReleasedNow(store: Store, s: State, id: string, env: Env, s': State)
    requires Stands(store, s, id, Releasing)
    requires TurnOf(store, s, store[id].row, env) == Onward(Moved(store, store[id].row, Failed), s')
    ensures EndsAs(store, s, id, env, store[id].row.(phase := Failed), s')
  {
    MovedSelf(store, id, store[id].row, Failed);
    EndsNow(store, s, id, env, Onward(Moved(store, store[id].row, Failed), s'));
  }

  lemma ReleasingFrees(store: Store, s: State, id: string, env: Env, h: Uuid)
    requires Stands(store, s, id, Releasing) && env.faults == map[] && store[id].row.holdId == Some(h)
    requires h in s.holds && s.holds[h].status != HoldCaptured
    ensures EndsAs(store, s, id, env, store[id].row.(phase := Failed), Release(s, h).0)
  {
    ReleaseShape(s, h);
    ReleaseFreely(store, s, store[id].row, env, h);
    ReleasedNow(store, s, id, env, Release(s, h).0);
  }

  lemma PostDoneTurn(store: Store, s: State, t: Transfer, env: Env)
    requires WellFormed(s) && t.id in store && t.phase == Phase.Posting && env.faults == map[]
    requires Post(s, TransferRef(t.id), t.holdId, BuildPostings(t)).1.Ok?
    ensures TurnOf(store, s, t, env) == Onward(Moved(store, t, Completed), Post(s, TransferRef(t.id), t.holdId, BuildPostings(t)).0)
  {
  }

  lemma PostingCompletes(store: Store, s: State, id: string, env: Env)
    requires Stands(store, s, id, Phase.Posting) && env.faults == map[]
    requires Post(s, TransferRef(id), store[id].row.holdId, BuildPostings(store[id].row)).1.Ok?
    ensures EndsAs(store, s, id, env, store[id].row.(phase := Completed),
                   Post(s, TransferRef(id), store[id].row.holdId, BuildPostings(store[id].row)).0)
  {
    var t := store[id].row;
    PostDoneTurn(store, s, t, env);
    MovedSelf(store, id, t, Completed);
    EndsNow(store, s, id, env, TurnOf(store, s, t, env));
  }

  lemma PostRefusedTurn(store: Store, s: State, t: Transfer, env: Env, e: Error)
    requires WellFormed(s) && t.id in store && t.phase == Phase.Posting && env.faults == map[]
    requires Post(s, TransferRef(t.id), t.holdId, BuildPostings(t)) == (s, Err(e))
    ensures TurnOf(store, s, t, env) == Onward(Moved(store, t.(reason := Some(env.describe(e))), Releasing), s)
  {
  }

  /** A refused post has left its hold uncaptured. */
  lemma RefusedOpen(store: Store, s: State, id: string, e: Error)
    requires Stands(store, s, id, Phase.Posting)
    requires Post(s, TransferRef(id), store[id].row.holdId, BuildPostings(store[id].row)).1 == Err(e)
    ensures store[id].row.holdId.Some? && store[id].row.holdId.value in s.holds
    ensures s.holds[store[id].row.holdId.value].status != HoldCaptured
    ensures Post(s, TransferRef(id), store[id].row.holdId, BuildPostings(store[id].row)) == (s, Err(e))
  {
    assert RecordOk(store, s, id);
    CapturedReplays(store[id].row, s);
  }

  lemma RefusedStands(store: Store, s: State, id: string, u: Transfer)
    requires Stands(store, s, id, Phase.Posting) && u == store[id].row.(reason := u.reason)
    ensures Stands(Moved(store, u, Releasing), s, id, Releasing)
    ensures Moved(store, u, Releasing)[id].row == u.(phase := Releasing)
  {
    RefusedMove(store, s, store[id].row, u);
  }

  lemma PostingFails(store: Store, s: State, id: string, env: Env, e: Error)
    requires Stands(store, s, id, Phase.Posting) && env.faults == map[]
    requires Post(s, TransferRef(id), store[id].row.holdId, BuildPostings(store[id].row)).1 == Err(e)
    ensures store[id].row.holdId.Some?
    ensures EndsAs(store, s, id, env, store[id].row.(phase := Failed, reason := Some(env.describe(e))),
                   Release(s, store[id].row.holdId.value).0)
  {
    var t := store[id].row;
    RefusedOpen(store, s, id, e);
    PostRefusedTurn(store, s, t, env, e);
    var u := t.(reason := Some(env.describe(e)));
    RefusedStands(store, s, id, u);
    var next := Moved(store, u, Releasing);
    ReleasingFrees(next, s, id, env, t.holdId.value);
    EndsNext(store, s, id, env, Onward(next, s), u.(phase := Failed), Release(s, t.holdId.value).0);
  }

  lemma HoldRefusedTurn(store: Store, s: State, t: Transfer, env: Env, e: Error)
    requires WellFormed(s) && t.id in store && t.phase == Held && t.holdId.None? && env.faults == map[]
    requires PlaceHold(s, SourceRef(t), t.amount, t.currency, TransferRef(t.id), env.expiresAt, env.newId) == (s, Err(e))
    ensures TurnOf(store, s, t, env) == Onward(Moved(store, t.(reason := Some(env.describe(e))), Releasing), s)
  {
  }

  lemma UnheldStands(store: Store, s: State, id: string, u: Transfer)
    requires Stands(store, s, id, Held) && u == store[id].row.(reason := u.reason)
    ensures Stands(Moved(store, u, Releasing), s, id, Releasing)
    ensures Moved(store, u, Releasing)[id].row == u.(phase := Releasing) && u.holdId.None?
  {
    UnheldMove(store, s, store[id].row, u);
  }

  lemma HeldFails(store: Store, s: State, id: string, env: Env, e: Error)
    requires Stands(store, s, id, Held) && env.faults == map[]
    requires var t := store[id].row;
             PlaceHold(s, SourceRef(t), t.amount, t.currency, TransferRef(id), env.expiresAt, env.newId) == (s, Err(e))
    ensures EndsAs(store, s, id, env, store[id].row.(phase := Failed, reason := Some(env.describe(e))), s)
  {
    var t := store[id].row;
    var u := t.(reason := Some(env.describe(e)));
    UnheldStands(store, s, id, u);
    HoldRefusedTurn(store, s, t, env, e);
    var next := Moved(store, u, Releasing);
    ReleasingEnds(next, s, id, env);
    EndsNext(store, s, id, env, Onward(next, s), u.(phase := Failed), s);
  }

  lemma HoldPlacedTurn(store: Store, s: State, t: Transfer, env: Env, h: Uuid, s': State)
    requires WellFormed(s) && t.id in store && t.phase == Held && t.holdId.None? && env.faults == map[]
    requires PlaceHold(s, SourceRef(t), t.amount, t.currency, TransferRef(t.id), env.expiresAt, env.newId) == (s', Ok(h))
    ensures TurnOf(store, s, t, env) == Onward(Moved(store, t.(holdId := Some(h)), Phase.Posting), s')
  {
  }

  ghost function Posting(store: Store, id: string, h: Uuid): Store
    requires id in store && store[id].row.id == id
  {
    Moved(store, store[id].row.(holdId := Some(h)), Phase.Posting)
  }

  lemma PostingStands(store: Store, s: State, id: string, env: Env, h: Uuid, s': State)
    requires Stands(store, s, id, Held) && TurnOf(store, s, store[id].row, env) == Onward(Posting(store, id, h), s')
    ensures Stands(Posting(store, id, h), s', id, Phase.Posting)
    ensures Posting(store, id, h)[id].row == store[id].row.(holdId := Some(h), phase := Phase.Posting)
  {
    TurnGood(store, s, store[id].row, env);
    TurnInv(store, s, store[id].row, env);
    MovedSelf(store, id, store[id].row.(holdId := Some(h)), Phase.Posting);
  }

  lemma HeldPosts(store: Store, s: State, id: string, env: Env, h: Uuid, s': State)
    requires Stands(store, s, id, Held) && env.faults == map[]
    requires var t := store[id].row;
             PlaceHold(s, SourceRef(t), t.amount, t.currency, TransferRef(id), env.expiresAt, env.newId) == (s', Ok(h))
    ensures TurnOf(store, s, store[id].row, env) == Onward(Posting(store, id, h), s')
    ensures Stands(Posting(store, id, h), s', id, Phase.Posting)
    ensures Posting(store, id, h)[id].row == store[id].row.(holdId := Some(h), phase := Phase.Posting)
  {
    HeldHasNoHold(store, s, store[id].row);
    HoldPlacedTurn(store, s, store[id].row, env, h, s');
    PostingStands(store, s, id, env, h, s');
  }

  // ---------------------------------------------------------------- the conditions, by name

  /** The payer can reserve the amount: a customer out of what is neither spent nor held, the bank's cash
      account up to the largest held total. */
  ghost predicate Funded(t: Transfer, s: State) {
    exists a :: && Pays(t, s, a) && a in s.balances
                && if t.kind == Topup then s.balances[a].held + t.amount <= 0x7FFF_FFFF_FFFF_FFFF
                   else s.balances[a].held + t.amount <= s.balances[a].balance
  }

  /** The hold under the transfer's reference still stands, for its amount and on its payer's account. */
  ghost predicate Reserved(t: Transfer, s: State) {
    && Reference("transfer", t.id) in s.holdRefs && s.holdRefs[Reference("transfer", t.id)] in s.holds
    && var h := s.holds[s.holdRefs[Reference("transfer", t.id)]];
    && h.status == HoldActive && h.amount == t.amount && Pays(t, s, h.account)
  }

  /** Every balance the transfer changes stays a 64-bit number. */
  ghost predicate Fitting(t: Transfer, s: State) {
    && (forall a :: Pays(t, s, a) && a in s.balances ==> Fits(s.balances[a].balance - t.amount))
    && (forall a :: Receives(t, s, a) && a in s.balances ==> Fits(s.balances[a].balance + Arrives(t)))
    && (t.counterAmount.Some? ==>
          forall kzt, usd :: Positions(s, kzt, usd) && kzt in s.balances && usd in s.balances ==>
            PositionsFit(t, s.balances[kzt].balance, s.balances[usd].balance))
  }

  predicate PositionsFit(t: Transfer, kzt: int64, usd: int64)
    requires t.counterAmount.Some?
  {
    if t.currency == "KZT" then Fits(kzt + t.amount) && Fits(usd - t.counterAmount.value)
    else Fits(usd + t.amount) && Fits(kzt - t.counterAmount.value)
  }

  lemma PlainFits(t: Transfer, s: State, legs: seq<Posting>)
    requires WellFormed(s) && SpecOk(t) && CounterOk(t) && t.counterAmount.None?
    requires SagaContract.Matches(s, BuildPostings(t), legs) && LegsKnown(s, legs)
    ensures SagaContract.LegsFit(s, legs) <==> Fitting(t, s)
  {
    SourcePays(t, s, legs[0].account);
    DestinationReceives(t, s, legs[1].account);
    forall a | Pays(t, s, a) ensures a == legs[0].account {
      SourcePays(t, s, a);
    }
    TwoFit(s, legs);
  }

  lemma TwoFit(s: State, legs: seq<Posting>)
    requires |legs| == 2
    ensures SagaContract.LegsFit(s, legs) <==> SagaContract.LegFits(s, legs[0]) && SagaContract.LegFits(s, legs[1])
  {
  }

  lemma FourFit(s: State, legs: seq<Posting>)
    requires |legs| == 4
    ensures SagaContract.LegsFit(s, legs) <==>
              && SagaContract.LegFits(s, legs[0]) && SagaContract.LegFits(s, legs[1])
              && SagaContract.LegFits(s, legs[2]) && SagaContract.LegFits(s, legs[3])
  {
  }

  lemma ExchangeFits(t: Transfer, s: State, legs: seq<Posting>)
    requires WellFormed(s) && SpecOk(t) && CounterOk(t) && t.counterAmount.Some?
    requires SagaContract.Matches(s, BuildPostings(t), legs) && LegsKnown(s, legs)
    ensures SagaContract.LegsFit(s, legs) <==> Fitting(t, s)
  {
    SourcePays(t, s, legs[0].account);
    DestinationReceives(t, s, legs[3].account);
    ExchangePositions(t, s, legs);
    forall a | Pays(t, s, a) ensures a == legs[0].account {
      SourcePays(t, s, a);
    }
    FourFit(s, legs);
  }

  lemma FitsByName(t: Transfer, s: State)
    requires WellFormed(s) && AccountsOk(s) && SagaContract.Validated(t) && SagaContract.Ready(t, s)
    ensures var r := ResolveLegs(s, BuildPostings(t), |BuildPostings(t)|);
            r.Ok? && (SagaContract.LegsFit(s, r.value) <==> Fitting(t, s))
  {
    SagaContract.LegsReady(t, s);
    ResolveLegsKnown(s, BuildPostings(t), |BuildPostings(t)|);
    var legs := ResolveLegs(s, BuildPostings(t), |BuildPostings(t)|).value;
    if t.counterAmount.None? {
      PlainFits(t, s, legs);
    } else {
      ExchangeFits(t, s, legs);
    }
  }

  // ---------------------------------------------------------------- from HELD

  /** The transfer can have its hold: under its reference one still stands, or there is none yet and the
      payer can fund it. */
  ghost predicate Reservable(t: Transfer, s: State) {
    if Reference("transfer", t.id) in s.holdRefs then Reserved(t, s) else Funded(t, s)
  }

  ghost predicate SameMoneyNames(s: State, s': State) {
    && s'.accounts == s.accounts && s'.byExternal == s.byExternal && s'.byCode == s.byCode
    && s'.entryRefs == s.entryRefs && SameMoney(s, s')
  }

  lemma FundsDecide(t: Transfer, s: State, a: Uuid)
    requires WellFormed(s) && AccountsOk(s) && SagaContract.Validated(t) && SagaContract.Ready(t, s)
    requires Resolve(s, SourceRef(t)) == Ok(a)
    ensures LedgerExact.Carries(s, a, t.amount, t.currency) <==> Funded(t, s)
  {
    SagaContract.SourceReady(t, s);
    SourcePays(t, s, a);
    forall b | Pays(t, s, b) ensures b == a {
      SourcePays(t, s, b);
    }
  }

  lemma GrantedFor(t: Transfer, s: State, s': State, h: Uuid, e: int)
    requires Granted(s, s', h) && Resolve(s, SourceRef(t)).Ok?
    requires s'.holds[h] == Hold(Resolve(s, SourceRef(t)).value, t.amount, t.currency, TransferRef(t.id), HoldActive, e)
    ensures SameMoneyNames(s, s') && HoldFor(t, h, s') && s'.holds[h].status == HoldActive
  {
  }

  /** A new hold is granted exactly if the payer can fund it, and is then the transfer's. */
  lemma HoldGranted(t: Transfer, s: State, e: int, newId: Uuid)
    requires WellFormed(s) && AccountsOk(s) && HoldsOk(s) && HeldOk(s) && newId !in s.holds && t.id != ""
    requires SagaContract.Validated(t) && SagaContract.Ready(t, s) && TransferRef(t.id) !in s.holdRefs
    ensures var (s', r) := PlaceHold(s, SourceRef(t), t.amount, t.currency, TransferRef(t.id), e, newId);
            && (r.Ok? <==> Funded(t, s)) && (r.Err? ==> s' == s)
            && (r.Ok? ==> && r.value == newId && SameMoneyNames(s, s')
                          && HoldFor(t, newId, s') && s'.holds[newId].status == HoldActive)
  {
    SagaContract.SourceReady(t, s);
    var a := Resolve(s, SourceRef(t)).value;
    FundsDecide(t, s, a);
    LedgerExact.PlaceHoldExact(s, SourceRef(t), t.amount, t.currency, TransferRef(t.id), e, newId);
    var (s', r) := PlaceHold(s, SourceRef(t), t.amount, t.currency, TransferRef(t.id), e, newId);
    if r.Ok? {
      GrantedFor(t, s, s', newId, e);
    }
  }

  /** Under a hold of the transfer's own, the post goes through exactly if the hold still stands and the
      balances fit. */
  lemma PostDecides(t: Transfer, s: State, h: Uuid)
    requires WellFormed(s) && AccountsOk(s) && HoldsOk(s) && HeldOk(s)
    requires SagaContract.Validated(t) && SagaContract.Ready(t, s) && HoldFor(t, h, s) && TransferRef(t.id) !in s.entryRefs
    ensures Post(s, TransferRef(t.id), Some(h), BuildPostings(t)).1.Ok? <==> s.holds[h].status == HoldActive && Fitting(t, s)
  {
    if s.holds[h].status == HoldActive {
      SagaContract.PostSucceeds(t, s, h);
      FitsByName(t, s);
    } else {
      LedgerExact.PostExact(s, TransferRef(t.id), Some(h), BuildPostings(t));
    }
  }

  lemma FittingStays(t: Transfer, u: Transfer, s: State, s': State)
    requires SameMoneyNames(s, s') && u == t.(holdId := u.holdId, phase := u.phase)
    ensures Fitting(t, s) <==> Fitting(u, s')
    ensures SagaContract.Ready(t, s) ==> SagaContract.Ready(u, s')
    ensures SagaContract.Validated(t) <==> SagaContract.Validated(u)
  {
    assert forall a :: (Pays(t, s, a) <==> Pays(u, s', a)) && (Receives(t, s, a) <==> Receives(u, s', a));
    assert forall kzt, usd :: Positions(s, kzt, usd) <==> Positions(s', kzt, usd);
  }

  /** What holds of an ended drive. */
  ghost predicate Ended(store: Store, s: State, id: string, env: Env, completes: bool) {
    exists row, s' :: EndsAs(store, s, id, env, row, s') && (row.phase == Completed <==> completes)
  }

  lemma EndedNext(store: Store, s: State, id: string, env: Env, q: Turning, completes: bool)
    requires Inv(s) && Consistent(store, s) && id in store && store[id].row.id == id && !IsTerminal(store[id].row.phase)
    requires q == TurnOf(store, s, store[id].row, env) && !q.parked && !q.failed
    requires Ended(q.store, q.ledger, id, env, completes)
    ensures Ended(store, s, id, env, completes)
  {
    var row, s' :| EndsAs(q.store, q.ledger, id, env, row, s') && (row.phase == Completed <==> completes);
    EndsNext(store, s, id, env, q, row, s');
  }

  lemma EndedTells(store: Store, s: State, id: string, env: Env, completes: bool, r: Turning)
    requires Ended(store, s, id, env, completes) && Drives(store, s, id, env, r)
    ensures !r.parked && !r.failed && id in r.store && IsTerminal(r.store[id].row.phase)
    ensures r.store[id].row.phase == Completed <==> completes
  {
    var row, s' :| EndsAs(store, s, id, env, row, s') && (row.phase == Completed <==> completes);
    EndsOnce(store, s, id, env, row, s', r);
  }

  lemma PostingEnds(store: Store, s: State, id: string, env: Env, h: Uuid)
    requires Stands(store, s, id, Phase.Posting) && env.faults == map[] && store[id].row.holdId == Some(h)
    ensures Ended(store, s, id, env, Post(s, TransferRef(id), Some(h), BuildPostings(store[id].row)).1.Ok?)
  {
    var t := store[id].row;
    var r := Post(s, TransferRef(id), Some(h), BuildPostings(t)).1;
    if r.Ok? {
      PostingCompletes(store, s, id, env);
      assert EndsAs(store, s, id, env, t.(phase := Completed), Post(s, TransferRef(id), Some(h), BuildPostings(t)).0);
    } else {
      PostingFails(store, s, id, env, r.error);
      assert EndsAs(store, s, id, env, t.(phase := Failed, reason := Some(env.describe(r.error))), Release(s, h).0);
    }
  }

  lemma HeldPost(t: Transfer, u: Transfer, s: State, s': State, h: Uuid)
    requires Inv(s') && SameMoneyNames(s, s') && u == t.(holdId := Some(h), phase := Phase.Posting)
    requires SagaContract.Validated(t) && SagaContract.Ready(t, s) && HoldFor(t, h, s') && TransferRef(t.id) !in s'.entryRefs
    ensures Post(s', TransferRef(u.id), Some(h), BuildPostings(u)).1.Ok? <==> s'.holds[h].status == HoldActive && Fitting(t, s)
  {
    FittingStays(t, u, s, s');
    PostDecides(u, s', h);
  }

  /** Under a hold the drive goes on from POSTING. */
  lemma PostingFollows(store: Store, s: State, id: string, env: Env, h: Uuid, s': State, completes: bool)
    requires Stands(store, s, id, Held) && TurnOf(store, s, store[id].row, env) == Onward(Posting(store, id, h), s')
    requires Ended(Posting(store, id, h), s', id, env, completes)
    ensures Ended(store, s, id, env, completes)
  {
    OnwardEnds(store, s, id, Held, env, Posting(store, id, h), s', completes);
  }

  lemma HeldUnder(store: Store, s: State, id: string, env: Env, h: Uuid, s': State, completes: bool)
    requires Stands(store, s, id, Held) && env.faults == map[]
    requires var t := store[id].row;
             && PlaceHold(s, SourceRef(t), t.amount, t.currency, TransferRef(id), env.expiresAt, env.newId) == (s', Ok(h))
             && SagaContract.Validated(t) && SagaContract.Ready(t, s) && SameMoneyNames(s, s') && HoldFor(t, h, s')
             && (completes <==> s'.holds[h].status == HoldActive && Fitting(t, s))
    ensures Ended(store, s, id, env, completes)
  {
    HeldNotPosted(store, s, id);
    HeldPosts(store, s, id, env, h, s');
    HeldPostEnds(store[id].row, s, id, env, h, s', Posting(store, id, h), completes);
    PostingFollows(store, s, id, env, h, s', completes);
  }

  lemma PostingEndsAs(store: Store, s: State, id: string, env: Env, h: Uuid, u: Transfer, completes: bool)
    requires Stands(store, s, id, Phase.Posting) && env.faults == map[] && store[id].row == u && u.holdId == Some(h)
    requires completes == Post(s, TransferRef(id), Some(h), BuildPostings(u)).1.Ok?
    ensures Ended(store, s, id, env, completes)
  {
    PostingEnds(store, s, id, env, h);
  }

  lemma HeldPostEnds(t: Transfer, s: State, id: string, env: Env, h: Uuid, s': State, next: Store, completes: bool)
    requires Stands(next, s', id, Phase.Posting) && env.faults == map[] && TransferRef(t.id) !in s'.entryRefs && t.id == id
    requires next[id].row == t.(holdId := Some(h), phase := Phase.Posting)
    requires SagaContract.Validated(t) && SagaContract.Ready(t, s) && SameMoneyNames(s, s') && HoldFor(t, h, s')
    requires completes <==> s'.holds[h].status == HoldActive && Fitting(t, s)
    ensures Ended(next, s', id, env, completes)
  {
    HeldPost(t, next[id].row, s, s', h);
    PostingEndsAs(next, s', id, env, h, next[id].row, completes);
  }

  lemma OnwardEnds(store: Store, s: State, id: string, p: Phase, env: Env, next: Store, s': State, completes: bool)
    requires Stands(store, s, id, p) && !IsTerminal(p) && TurnOf(store, s, store[id].row, env) == Onward(next, s')
    requires Ended(next, s', id, env, completes)
    ensures Ended(store, s, id, env, completes)
  {
    EndedNext(store, s, id, env, TurnOf(store, s, store[id].row, env), completes);
  }

  lemma HeldEnds(store: Store, s: State, id: string, env: Env, completes: bool)
    requires Stands(store, s, id, Held) && env.faults == map[] && env.newId !in s.holds
    requires SagaContract.Validated(store[id].row) && SagaContract.Ready(store[id].row, s)
    requires completes <==> Reservable(store[id].row, s) && Fitting(store[id].row, s)
    ensures Ended(store, s, id, env, completes)
  {
    if TransferRef(id) in s.holdRefs {
      HeldAgain(store, s, id, env, completes);
    } else {
      HeldAnew(store, s, id, env, completes);
    }
  }

  lemma HeldAnew(store: Store, s: State, id: string, env: Env, completes: bool)
    requires Stands(store, s, id, Held) && env.faults == map[] && env.newId !in s.holds && TransferRef(id) !in s.holdRefs
    requires SagaContract.Validated(store[id].row) && SagaContract.Ready(store[id].row, s)
    requires completes <==> Funded(store[id].row, s) && Fitting(store[id].row, s)
    ensures Ended(store, s, id, env, completes)
  {
    var t := store[id].row;
    var (s', r) := PlaceHold(s, SourceRef(t), t.amount, t.currency, TransferRef(id), env.expiresAt, env.newId);
    HoldGranted(t, s, env.expiresAt, env.newId);
    if r.Ok? {
      HeldUnder(store, s, id, env, r.value, s', completes);
    } else {
      HeldFailed(store, s, id, env, r.error);
    }
  }

  lemma HeldFailed(store: Store, s: State, id: string, env: Env, e: Error)
    requires Stands(store, s, id, Held) && env.faults == map[]
    requires var t := store[id].row;
             PlaceHold(s, SourceRef(t), t.amount, t.currency, TransferRef(id), env.expiresAt, env.newId) == (s, Err(e))
    ensures Ended(store, s, id, env, false)
  {
    HeldFails(store, s, id, env, e);
  }

  /** The hold was placed before, and its answer was lost. */
  lemma HeldAgain(store: Store, s: State, id: string, env: Env, completes: bool)
    requires Stands(store, s, id, Held) && env.faults == map[] && TransferRef(id) in s.holdRefs
    requires SagaContract.Validated(store[id].row) && SagaContract.Ready(store[id].row, s)
    requires completes <==> Reserved(store[id].row, s) && Fitting(store[id].row, s)
    ensures Ended(store, s, id, env, completes)
  {
    var t := store[id].row;
    LedgerAnswers.PlaceHoldReplays(s, SourceRef(t), t.amount, t.currency, TransferRef(id), env.expiresAt, env.newId);
    var r := PlaceHold(s, SourceRef(t), t.amount, t.currency, TransferRef(id), env.expiresAt, env.newId).1;
    var h := s.holdRefs[TransferRef(id)];
    SourcePays(t, s, s.holds[h].account);
    if r.Ok? {
      HeldUnder(store, s, id, env, h, s, completes);
    } else {
      HeldFailed(store, s, id, env, r.error);
    }
  }

  /** An undisturbed drive of a validated HELD transfer ends, and it ends COMPLETED exactly if the hold can
      be had and every balance the transfer changes stays in 64 bits. */
  lemma HeldOutcome(store: Store, s: State, id: string, env: Env, r: Turning)
    requires Stands(store, s, id, Held) && env.faults == map[] && env.newId !in s.holds && Drives(store, s, id, env, r)
    requires SagaContract.Validated(store[id].row) && SagaContract.Ready(store[id].row, s)
    ensures !r.parked && !r.failed && id in r.store && IsTerminal(r.store[id].row.phase)
    ensures r.store[id].row.phase == Completed <==> Reservable(store[id].row, s) && Fitting(store[id].row, s)
  {
    var completes := Reservable(store[id].row, s) && Fitting(store[id].row, s);
    HeldEnds(store, s, id, env, completes);
    EndedTells(store, s, id, env, completes, r);
  }

  // ---------------------------------------------------------------- through recovery

  lemma GivenStands(store: Store, s: State, id: string, p: Phase) returns (given: Record)
    requires Stands(store, s, id, p) && p in {Held, Phase.Posting}
    ensures given == Record(store[id].row.(phase := Releasing, reason := Some("recovery_exhausted")),
                            store[id].hops + [Hop(p, Releasing)], store[id].published)
    ensures Stands(store[id := given], s, id, Releasing)
  {
    var u := store[id].row.(reason := Some("recovery_exhausted"));
    ExhaustMove(store, s, store[id].row, u);
    GivenRow(store[id], u);
    given := Transition(store[id], u, Releasing);
  }

  /** A HELD transfer that recovery picks up ends, and it ends COMPLETED exactly if it has had no more than
      five attempts, the hold can be had, and every balance it changes stays in 64 bits. */
  lemma HeldRecovers(store: Store, s: State, id: string, probeLost: bool, env: Env, r: Turning)
    requires Stands(store, s, id, Held) && env.faults == map[] && env.newId !in s.holds
    requires Budgeted(store, s, id, probeLost, env, r)
    requires SagaContract.Validated(store[id].row) && SagaContract.Ready(store[id].row, s)
    ensures !r.parked && !r.failed && id in r.store && IsTerminal(r.store[id].row.phase)
    ensures var t := store[id].row;
            r.store[id].row.phase == Completed <==> t.attempts <= 5 && Reservable(t, s) && Fitting(t, s)
  {
    if 5 < store[id].row.attempts {
      HeldHasNoHold(store, s, store[id].row);
      var given := GivenStands(store, s, id, Held);
      ReleasingEnds(store[id := given], s, id, env);
      EndsOnce(store[id := given], s, id, env, given.row.(phase := Failed), s, r);
    } else {
      HeldOutcome(store, s, id, env, r);
    }
  }

  lemma PostingHold(store: Store, s: State, id: string)
    requires Stands(store, s, id, Phase.Posting)
    ensures var t := store[id].row;
            t.holdId.Some? && HoldFor(t, t.holdId.value, s)
            && (TransferRef(id) in s.entryRefs <==> s.holds[t.holdId.value].status == HoldCaptured)
  {
    assert RecordOk(store, s, id);
    SagaTheorems.RowFence(store[id].row, s);
  }

  /** A POSTING transfer that recovery picks up, with the ledger answering, ends, and it ends COMPLETED
      exactly if it was posted already, or has had no more than five attempts, its hold still stands and
      the balances fit. */
  lemma PostingRecovers(store: Store, s: State, id: string, env: Env, r: Turning)
    requires Stands(store, s, id, Phase.Posting) && env.faults == map[] && Budgeted(store, s, id, false, env, r)
    requires SagaContract.Validated(store[id].row) && SagaContract.Ready(store[id].row, s)
    ensures id in r.store && IsTerminal(r.store[id].row.phase)
    ensures var t := store[id].row;
            r.store[id].row.phase == Completed <==>
              || Reference("transfer", id) in s.entryRefs
              || (t.attempts <= 5 && t.holdId.Some? && t.holdId.value in s.holds
                  && s.holds[t.holdId.value].status == HoldActive && Fitting(t, s))
  {
    PostingHold(store, s, id);
    if TransferRef(id) !in s.entryRefs {
      PostingUnfound(store, s, id, env, r, store[id].row.holdId.value);
    }
  }

  lemma PostingUnfound(store: Store, s: State, id: string, env: Env, r: Turning, h: Uuid)
    requires Stands(store, s, id, Phase.Posting) && env.faults == map[] && Budgeted(store, s, id, false, env, r)
    requires SagaContract.Validated(store[id].row) && SagaContract.Ready(store[id].row, s) && TransferRef(id) !in s.entryRefs
    requires store[id].row.holdId == Some(h) && HoldFor(store[id].row, h, s) && s.holds[h].status != HoldCaptured
    ensures id in r.store && IsTerminal(r.store[id].row.phase)
    ensures var t := store[id].row;
            r.store[id].row.phase == Completed <==> t.attempts <= 5 && s.holds[h].status == HoldActive && Fitting(t, s)
  {
    if 5 < store[id].row.attempts {
      var given := GivenStands(store, s, id, Phase.Posting);
      ReleasingFrees(store[id := given], s, id, env, h);
      EndsOnce(store[id := given], s, id, env, given.row.(phase := Failed), Release(s, h).0, r);
    } else {
      PostDecides(store[id].row, s, h);
      PostingEnds(store, s, id, env, h);
      EndedTells(store, s, id, env, Post(s, TransferRef(id), Some(h), BuildPostings(store[id].row)).1.Ok?, r);
    }
  }

  // ---------------------------------------------------------------- from the request on

  lemma CreatedTurn(store: Store, s: State, id: string, env: Env)
    requires Stands(store, s, id, Created)
    ensures var next := Moved(store, store[id].row, Validating);
            && TurnOf(store, s, store[id].row, env) == Onward(next, s)
            && Stands(next, s, id, Validating) && next[id].row == store[id].row.(phase := Validating)
  {
    TurnGood(store, s, store[id].row, env);
    MovedSelf(store, id, store[id].row, Validating);
  }

  lemma RefusedTurn(store: Store, s: State, id: string, env: Env, reason: string)
    requires Stands(store, s, id, Validating) && Refused(store[id].row, env.answers, reason)
    ensures EndsAs(store, s, id, env, store[id].row.(phase := Failed, reason := Some(reason)), s)
  {
    var t := store[id].row;
    JudgeRefuses(t, env.answers, reason);
    MovedSelf(store, id, t.(reason := Some(reason)), Failed);
    EndsNow(store, s, id, env, Onward(Moved(store, t.(reason := Some(reason)), Failed), s));
  }

  ghost function Holding(store: Store, id: string, a: Answers): Store
    requires id in store && store[id].row.id == id && Judge(store[id].row, a).Accept?
  {
    Moved(store, Accepted(store[id].row, Judge(store[id].row, a)), Held)
  }

  lemma PermittedTurn(store: Store, s: State, id: string, env: Env)
    requires Stands(store, s, id, Validating) && Permitted(store[id].row, env.answers)
    ensures Judge(store[id].row, env.answers).Accept?
    ensures TurnOf(store, s, store[id].row, env) == Onward(Holding(store, id, env.answers), s)
    ensures Stands(Holding(store, id, env.answers), s, id, Held)
    ensures Holding(store, id, env.answers)[id].row == Accepted(store[id].row, Judge(store[id].row, env.answers)).(phase := Held)
  {
    var t := store[id].row;
    AcceptedRow(t, env.answers);
    AcceptOk(t, env.answers);
    AcceptMove(store, s, t, Judge(t, env.answers));
  }

  /** What validation makes of the row. */
  ghost function Locked(t: Transfer, a: Answers): Transfer
    requires Permitted(t, a)
  {
    if !Across(t, a) then
      t.(to := a.to.info.id, counterAmount := None, counterCurrency := None, rateMicros := None, ratePair := None)
    else
      t.(to := a.to.info.id, counterAmount := Received(t.amount, t.currency, a.to.info.currency, a.rate.rate),
         counterCurrency := Some(a.to.info.currency), ratePair := Some(a.rate.rate.pair),
         rateMicros := Some(if t.currency == "USD" then a.rate.rate.buyMicros else a.rate.rate.sellMicros))
  }

  /** What the service may rely on when a well-formed request meets a ledger that knows its accounts as the
      account service describes them. */
  ghost predicate Sensible(t: Transfer, a: Answers, s: State) {
    && t.id != "" && ValidateSpec(t.kind, t.from, t.to, t.toNumber, t.amount, t.currency).None?
    && SagaContract.Faithful(t, a) && (Permitted(t, a) ==> SagaContract.Ready(Locked(t, a), s))
  }

  /** The transfer goes through: it is permitted, its hold can be had, and the balances fit. */
  ghost predicate GoesThrough(t: Transfer, a: Answers, s: State) {
    Permitted(t, a) && Reservable(Locked(t, a), s) && Fitting(Locked(t, a), s)
  }

  lemma RephasedFits(t: Transfer, u: Transfer, s: State)
    requires u == t.(phase := u.phase)
    ensures Reservable(t, s) <==> Reservable(u, s)
    ensures Fitting(t, s) <==> Fitting(u, s)
    ensures SagaContract.Ready(t, s) <==> SagaContract.Ready(u, s)
    ensures SagaContract.Validated(t) <==> SagaContract.Validated(u)
  {
    assert forall a :: (Pays(t, s, a) <==> Pays(u, s, a)) && (Receives(t, s, a) <==> Receives(u, s, a));
  }

  lemma LockedValidated(t: Transfer, a: Answers, s: State, u: Transfer)
    requires Sensible(t, a, s) && Permitted(t, a) && Judge(t, a).Accept? && u == Accepted(t, Judge(t, a)).(phase := Held)
    ensures SagaContract.Validated(u) && SagaContract.Ready(u, s)
    ensures Reservable(u, s) && Fitting(u, s) <==> GoesThrough(t, a, s)
  {
    AcceptedRow(t, a);
    SagaContract.AcceptedIsValidated(t, a);
    RephasedFits(Locked(t, a), u, s);
  }

  lemma HoldingFollows(store: Store, s: State, id: string, env: Env, next: Store, completes: bool)
    requires Stands(store, s, id, Validating) && TurnOf(store, s, store[id].row, env) == Onward(next, s)
    requires Ended(next, s, id, env, completes)
    ensures Ended(store, s, id, env, completes)
  {
    OnwardEnds(store, s, id, Validating, env, next, s, completes);
  }

  lemma PermittedEnds(store: Store, s: State, id: string, env: Env, completes: bool)
    requires Stands(store, s, id, Validating) && env.faults == map[] && env.newId !in s.holds
    requires Sensible(store[id].row, env.answers, s) && Permitted(store[id].row, env.answers)
    requires completes <==> GoesThrough(store[id].row, env.answers, s)
    ensures Ended(store, s, id, env, completes)
  {
    PermittedTurn(store, s, id, env);
    var next := Holding(store, id, env.answers);
    LockedValidated(store[id].row, env.answers, s, next[id].row);
    HeldEnds(next, s, id, env, completes);
    HoldingFollows(store, s, id, env, next, completes);
  }

  /** How the drive of a transfer that is yet to be validated ends: it parks exactly while the account
      service is unreachable, stops exactly when validation breaks off, is FAILED with the reason found
      first, and COMPLETED exactly if it is permitted, can have its hold, and fits. */
  ghost predicate Decides(t: Transfer, a: Answers, s: State, id: string, r: Turning) {
    && id in r.store
    && (r.parked <==> Waits(t, a)) && (r.failed <==> Breaks(t, a))
    && (r.parked || r.failed ==> r.ledger == s && r.store[id].row == t)
    && (!r.parked && !r.failed ==>
          && IsTerminal(r.store[id].row.phase)
          && (r.store[id].row.phase == Completed <==> GoesThrough(t, a, s)))
    && forall reason :: Refused(t, a, reason) ==>
                          r.ledger == s && r.store[id].row == t.(phase := Failed, reason := Some(reason))
  }

  lemma OneVerdict(t: Transfer, a: Answers)
    ensures Waits(t, a) || Breaks(t, a) || Permitted(t, a) || exists reason :: Refused(t, a, reason)
    ensures forall reason :: Refused(t, a, reason) ==> !Waits(t, a) && !Breaks(t, a) && !Permitted(t, a)
    ensures forall x, y :: Refused(t, a, x) && Refused(t, a, y) ==> x == y
    ensures !(Waits(t, a) && Breaks(t, a)) && !(Waits(t, a) && Permitted(t, a)) && !(Breaks(t, a) && Permitted(t, a))
  {
    JudgeWaits(t, a);
    JudgeExact(t, a);
    forall reason ensures Judge(t, a) == Reject(reason) <==> Refused(t, a, reason) {
      JudgeRefuses(t, a, reason);
    }
    if Judge(t, a).Reject? {
      assert Refused(t, a, Judge(t, a).reason);
    }
  }

  lemma ValidatingHalts(store: Store, s: State, id: string, env: Env) returns (r: Turning)
    requires Stands(store, s, id, Validating) && Undecided(store[id].row, env.answers)
    ensures Drives(store, s, id, env, r) && Decides(store[id].row, env.answers, s, id, r)
  {
    var t := store[id].row;
    JudgeWaits(t, env.answers);
    OneVerdict(t, env.answers);
    r := TurnOf(store, s, t, env);
    DrivesHalt(store, s, id, env, r);
  }

  lemma ValidatingRefuses(store: Store, s: State, id: string, env: Env, reason: string) returns (r: Turning)
    requires Stands(store, s, id, Validating) && Refused(store[id].row, env.answers, reason)
    ensures Drives(store, s, id, env, r) && Decides(store[id].row, env.answers, s, id, r)
  {
    var t := store[id].row;
    OneVerdict(t, env.answers);
    RefusedTurn(store, s, id, env, reason);
    var row := t.(phase := Failed, reason := Some(reason));
    r :| Drives(store, s, id, env, r) && r.ledger == s && !r.parked && !r.failed && id in r.store && r.store[id].row == row;
  }

  lemma ValidatingPasses(store: Store, s: State, id: string, env: Env) returns (r: Turning)
    requires Stands(store, s, id, Validating) && env.faults == map[] && env.newId !in s.holds
    requires Sensible(store[id].row, env.answers, s) && Permitted(store[id].row, env.answers)
    ensures Drives(store, s, id, env, r) && Decides(store[id].row, env.answers, s, id, r)
  {
    var t := store[id].row;
    OneVerdict(t, env.answers);
    var completes := GoesThrough(t, env.answers, s);
    PermittedEnds(store, s, id, env, completes);
    var row, s' :| EndsAs(store, s, id, env, row, s') && (row.phase == Completed <==> completes);
    r :| Drives(store, s, id, env, r) && r.ledger == s' && !r.parked && !r.failed
         && id in r.store && r.store[id].row == row && IsTerminal(row.phase);
  }

  lemma ValidatingEnds(store: Store, s: State, id: string, env: Env) returns (r: Turning)
    requires Stands(store, s, id, Validating) && env.faults == map[] && env.newId !in s.holds
    requires Sensible(store[id].row, env.answers, s)
    ensures Drives(store, s, id, env, r) && Decides(store[id].row, env.answers, s, id, r)
  {
    var t := store[id].row;
    OneVerdict(t, env.answers);
    if Undecided(t, env.answers) {
      r := ValidatingHalts(store, s, id, env);
    } else if Permitted(t, env.answers) {
      r := ValidatingPasses(store, s, id, env);
    } else {
      var reason :| Refused(t, env.answers, reason);
      r := ValidatingRefuses(store, s, id, env, reason);
    }
  }

  /** From the request on: the undisturbed drive of a transfer that is yet to be validated has exactly the
      end its request, the answers and the ledger determine. */
  lemma RequestOutcome(store: Store, s: State, id: string, env: Env, r: Turning)
    requires id in store && store[id].row.phase in {Created, Validating} && Stands(store, s, id, store[id].row.phase)
    requires env.faults == map[] && env.newId !in s.holds && Sensible(store[id].row, env.answers, s)
    requires Drives(store, s, id, env, r)
    ensures Decides(store[id].row.(phase := Validating), env.answers, s, id, r)
  {
    if store[id].row.phase == Created {
      CreatedTurn(store, s, id, env);
      var next := Moved(store, store[id].row, Validating);
      RephasedSensible(store[id].row, next[id].row, env.answers, s);
      var q := ValidatingEnds(next, s, id, env);
      DrivesOn(store, s, id, env, Onward(next, s), q);
      DrivesUnique(store, s, id, env, r, q);
    } else {
      var q := ValidatingEnds(store, s, id, env);
      DrivesUnique(store, s, id, env, r, q);
    }
  }

  lemma RephasedSensible(t: Transfer, u: Transfer, a: Answers, s: State)
    requires u == t.(phase := u.phase) && Sensible(t, a, s)
    ensures Sensible(u, a, s)
  {
    if Permitted(t, a) {
      RephasedFits(Locked(t, a), Locked(u, a), s);
    }
  }
}

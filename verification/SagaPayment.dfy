/** Who pays and who receives: what a transfer's entry does to every account, told by the accounts'
    names and the row's amounts. */
module SagaPayment {
  import opened Int64
  import opened LedgerDomain
  import opened Ledger
  import LedgerLaws
  import opened TransferDomain
  import opened Saga
  import SagaTheorems
  import SagaContract

  // ---------------------------------------------------------------- the parties

  /** The account that pays: the customer's, or for a deposit the bank's cash account of its currency. */
  ghost predicate Pays(t: Transfer, s: State, a: Uuid) {
    if t.kind != Topup then t.from in s.byExternal && a == s.byExternal[t.from]
    else if t.currency == "USD" then "cash_in_usd" in s.byCode && a == s.byCode["cash_in_usd"]
    else "cash_in_kzt" in s.byCode && a == s.byCode["cash_in_kzt"]
  }

  ghost predicate Receives(t: Transfer, s: State, a: Uuid) {
    t.to in s.byExternal && a == s.byExternal[t.to]
  }

  /** The bank's positions in tenge and in dollars. */
  ghost predicate Positions(s: State, kzt: Uuid, usd: Uuid) {
    && "fx_position_kzt" in s.byCode && kzt == s.byCode["fx_position_kzt"]
    && "fx_position_usd" in s.byCode && usd == s.byCode["fx_position_usd"]
  }

  /** What arrives: the counter amount of an exchange, else the amount. */
  function Arrives(t: Transfer): int64 {
    if t.counterAmount.Some? then t.counterAmount.value else t.amount
  }

  function If(c: bool, x: int): int {
    if c then x else 0
  }

  /** The payer gives the amount, the receiver gets what arrives, and in an exchange the bank's position
      in the payer's currency takes the one and its position in the other currency gives the other. */
  ghost predicate Pay(t: Transfer, s: State, legs: seq<Posting>, payer: Uuid, receiver: Uuid) {
    && Pays(t, s, payer) && Receives(t, s, receiver)
    && if t.counterAmount.None? then
         forall a :: AccountSum(legs, a) == If(a == receiver, t.amount) - If(a == payer, t.amount)
       else
         exists kzt, usd :: Positions(s, kzt, usd) && Exchanged(t, legs, payer, receiver, kzt, usd)
  }

  ghost predicate Exchanged(t: Transfer, legs: seq<Posting>, payer: Uuid, receiver: Uuid, kzt: Uuid, usd: Uuid)
    requires t.counterAmount.Some?
  {
    var taker, giver := if t.currency == "KZT" then kzt else usd, if t.currency == "KZT" then usd else kzt;
    forall a :: AccountSum(legs, a) == If(a == receiver, t.counterAmount.value) - If(a == payer, t.amount)
                                       + If(a == taker, t.amount) - If(a == giver, t.counterAmount.value)
  }

  // ---------------------------------------------------------------- the legs of one transfer

  lemma {:induction false} Resolved(s: State, specs: seq<PostingSpec>, n: nat)
    requires n <= |specs| && ResolveLegs(s, specs, n).Ok?
    ensures SagaContract.Matches(s, specs[..n], ResolveLegs(s, specs, n).value)
  {
    if n > 0 {
      Resolved(s, specs, n - 1);
    }
  }

  lemma TwoSum(legs: seq<Posting>, a: Uuid)
    requires |legs| == 2
    ensures AccountSum(legs, a) == If(legs[0].account == a, legs[0].amount) + If(legs[1].account == a, legs[1].amount)
  {
    assert legs[..1][..0] == [] && AccountSum(legs[..1], a) == If(legs[0].account == a, legs[0].amount);
  }

  lemma FourSum(legs: seq<Posting>, a: Uuid)
    requires |legs| == 4
    ensures AccountSum(legs, a) == If(legs[0].account == a, legs[0].amount) + If(legs[1].account == a, legs[1].amount)
                                   + If(legs[2].account == a, legs[2].amount) + If(legs[3].account == a, legs[3].amount)
  {
    TwoSum(legs[..2], a);
    assert legs[..3][..2] == legs[..2];
  }

  lemma SourcePays(t: Transfer, s: State, a: Uuid)
    requires SpecOk(t)
    ensures Resolve(s, SourceRef(t)) == Ok(a) <==> Pays(t, s, a)
  {
  }

  lemma DestinationReceives(t: Transfer, s: State, a: Uuid)
    requires Resolve(s, External(t.to)) == Ok(a)
    ensures Receives(t, s, a)
  {
  }

  lemma PlainMoves(t: Transfer, s: State, legs: seq<Posting>)
    requires SpecOk(t) && CounterOk(t) && t.counterAmount.None? && SagaContract.Matches(s, BuildPostings(t), legs)
    ensures |legs| == 2 && Pay(t, s, legs, legs[0].account, legs[1].account)
  {
    SourcePays(t, s, legs[0].account);
    DestinationReceives(t, s, legs[1].account);
    forall a ensures AccountSum(legs, a) == If(a == legs[1].account, t.amount) - If(a == legs[0].account, t.amount) {
      TwoSum(legs, a);
    }
  }

  lemma ExchangeMoves(t: Transfer, s: State, legs: seq<Posting>)
    requires SpecOk(t) && CounterOk(t) && t.counterAmount.Some? && SagaContract.Matches(s, BuildPostings(t), legs)
    ensures |legs| == 4 && Pay(t, s, legs, legs[0].account, legs[3].account)
  {
    SourcePays(t, s, legs[0].account);
    DestinationReceives(t, s, legs[3].account);
    var taker, giver := legs[1].account, legs[2].account;
    var kzt, usd := if t.currency == "KZT" then taker else giver, if t.currency == "KZT" then giver else taker;
    ExchangePositions(t, s, legs);
    forall a
      ensures AccountSum(legs, a) == If(a == legs[3].account, t.counterAmount.value) - If(a == legs[0].account, t.amount)
                                     + If(a == taker, t.amount) - If(a == giver, t.counterAmount.value)
    {
      FourSum(legs, a);
    }
    assert Positions(s, kzt, usd) && Exchanged(t, legs, legs[0].account, legs[3].account, kzt, usd);
  }

  lemma ExchangePositions(t: Transfer, s: State, legs: seq<Posting>)
    requires SpecOk(t) && CounterOk(t) && t.counterAmount.Some? && SagaContract.Matches(s, BuildPostings(t), legs)
    ensures |legs| == 4
    ensures if t.currency == "KZT" then Positions(s, legs[1].account, legs[2].account)
            else Positions(s, legs[2].account, legs[1].account)
  {
  }

  lemma LegsPay(t: Transfer, s: State, legs: seq<Posting>)
    requires SpecOk(t) && CounterOk(t) && ResolveLegs(s, BuildPostings(t), |BuildPostings(t)|) == Ok(legs)
    ensures exists payer, receiver :: Pay(t, s, legs, payer, receiver)
  {
    var specs := BuildPostings(t);
    Resolved(s, specs, |specs|);
    assert specs[..|specs|] == specs;
    if t.counterAmount.None? {
      PlainMoves(t, s, legs);
    } else {
      ExchangeMoves(t, s, legs);
    }
  }

  // ---------------------------------------------------------------- distinct parties

  /** With payer and receiver apart, each party's share stands alone. */
  ghost predicate PaidApart(t: Transfer, s: State, legs: seq<Posting>) {
    && (exists payer :: Pays(t, s, payer) && AccountSum(legs, payer) == -(t.amount as int))
    && (exists receiver :: Receives(t, s, receiver) && AccountSum(legs, receiver) == Arrives(t))
    && (t.counterAmount.Some? ==>
          exists kzt, usd :: && Positions(s, kzt, usd)
                             && AccountSum(legs, kzt) == (if t.currency == "KZT" then t.amount else -(t.counterAmount.value as int))
                             && AccountSum(legs, usd) == (if t.currency == "USD" then t.amount else -(t.counterAmount.value as int)))
  }

  /** Payer, receiver and positions are different accounts. */
  lemma PartiesDiffer(t: Transfer, s: State, payer: Uuid, receiver: Uuid)
    requires LedgerLaws.AccountsOk(s) && SpecOk(t) && CounterOk(t) && (t.kind != Topup ==> t.from != t.to)
    requires Pays(t, s, payer) && Receives(t, s, receiver)
    ensures payer != receiver
    ensures t.counterAmount.Some? ==> forall kzt, usd :: Positions(s, kzt, usd) ==>
              kzt != usd && payer != kzt && payer != usd && receiver != kzt && receiver != usd
  {
  }

  lemma PayApart(t: Transfer, s: State, legs: seq<Posting>, payer: Uuid, receiver: Uuid)
    requires LedgerLaws.AccountsOk(s) && SpecOk(t) && CounterOk(t) && (t.kind != Topup ==> t.from != t.to)
    requires Pay(t, s, legs, payer, receiver)
    ensures PaidApart(t, s, legs)
  {
    PartiesDiffer(t, s, payer, receiver);
    if t.counterAmount.Some? {
      var kzt, usd :| Positions(s, kzt, usd) && Exchanged(t, legs, payer, receiver, kzt, usd);
      assert AccountSum(legs, kzt) == if t.currency == "KZT" then t.amount as int else -(t.counterAmount.value as int);
    }
  }

  /** The entry of a validated transfer, on a ledger that knows its accounts, takes the amount from the
      payer, gives the receiver what arrives, and moves the two positions by exactly that. */
  lemma ValidatedPays(t: Transfer, s: State)
    requires LedgerLaws.AccountsOk(s) && SagaContract.Validated(t) && SagaContract.Ready(t, s)
    ensures ResolveLegs(s, BuildPostings(t), |BuildPostings(t)|).Ok?
    ensures PaidApart(t, s, ResolveLegs(s, BuildPostings(t), |BuildPostings(t)|).value)
  {
    SagaContract.LegsReady(t, s);
    var legs := ResolveLegs(s, BuildPostings(t), |BuildPostings(t)|).value;
    LegsPay(t, s, legs);
    var payer, receiver :| Pay(t, s, legs, payer, receiver);
    PayApart(t, s, legs, payer, receiver);
  }

  // ---------------------------------------------------------------- runs

  /** The transfer's only entry. */
  ghost predicate OnlyEntry(s: State, id: string, i: nat) {
    && i < |s.journal|
    && forall j :: 0 <= j < |s.journal| ==> (s.journal[j].reference == Reference("transfer", id) <==> j == i)
  }

  /** In every run, the one entry of a completed transfer pays its receiver what the row says, out of its
      payer's account; if the two differ, each by exactly its share. */
  lemma CompletedPays(w: World, id: string)
    requires SagaTheorems.Occurs(w) && id in w.store && w.store[id].row.phase == Completed
    ensures var t := w.store[id].row;
            exists i: nat :: && OnlyEntry(w.ledger, id, i)
                             && (exists payer, receiver :: Pay(t, w.ledger, w.ledger.journal[i].legs, payer, receiver))
                             && (t.kind == Topup || t.from != t.to ==> PaidApart(t, w.ledger, w.ledger.journal[i].legs))
  {
    SagaTheorems.OccursInv(w);
    SagaTheorems.Outcome(w, id);
    var t := w.store[id].row;
    var i :| SagaTheorems.SoleEntry(t, w.ledger, i);
    assert RecordOk(w.store, w.ledger, id);
    EntryPays(t, w.ledger, i);
    assert OnlyEntry(w.ledger, id, i);
  }

  lemma EntryPays(t: Transfer, s: State, i: nat)
    requires RowOk(t, s) && LedgerLaws.AccountsOk(s) && t.phase == Completed && SagaTheorems.SoleEntry(t, s, i)
    ensures exists payer, receiver :: Pay(t, s, s.journal[i].legs, payer, receiver)
    ensures t.kind == Topup || t.from != t.to ==> PaidApart(t, s, s.journal[i].legs)
  {
    var legs := s.journal[i].legs;
    LegsPay(t, s, legs);
    var payer, receiver :| Pay(t, s, legs, payer, receiver);
    if t.kind == Topup || t.from != t.to {
      PayApart(t, s, legs, payer, receiver);
    }
  }

  /** The reservation, too, is of the amount and on the payer's account. */
  lemma HeldFromPayer(w: World, id: string)
    requires SagaTheorems.Occurs(w) && id in w.store && w.store[id].row.holdId.Some?
    ensures var t := w.store[id].row;
            var h := t.holdId.value;
            && h in w.ledger.holds && w.ledger.holds[h].amount == t.amount
            && w.ledger.holds[h].reference == Reference("transfer", id)
            && Pays(t, w.ledger, w.ledger.holds[h].account)
  {
    SagaTheorems.OccursInv(w);
    assert RecordOk(w.store, w.ledger, id);
    var t := w.store[id].row;
    SourcePays(t, w.ledger, w.ledger.holds[t.holdId.value].account);
  }
}

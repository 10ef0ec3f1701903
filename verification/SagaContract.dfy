/** What the saga hands to the ledger is something the ledger accepts. */
module SagaContract {
  import opened Int64
  import opened LedgerDomain
  import opened Ledger
  import opened LedgerLaws
  import LedgerTheorems
  import opened LedgerExact
  import LedgerAnswers
  import opened TransferDomain
  import Saga

  // ---------------------------------------------------------------- legs as the saga names them

  function SpecSum(specs: seq<PostingSpec>, c: string): int {
    if specs == [] then 0
    else SpecSum(specs[..|specs| - 1], c) + (var p := specs[|specs| - 1]; if p.currency == c then p.amount else 0)
  }

  function RefSum(specs: seq<PostingSpec>, ref: AccountRef): int {
    if specs == [] then 0
    else RefSum(specs[..|specs| - 1], ref) + (var p := specs[|specs| - 1]; if p.ref == ref then p.amount else 0)
  }

  /** The account service returns the account it was asked for, under a non-empty id. */
  predicate Faithful(t: Transfer, a: Answers) {
    && (t.kind != Topup && a.from.Found? ==> a.from.info.id == t.from)
    && (a.to.Found? ==> a.to.info.id != "" && (t.kind != P2P ==> a.to.info.id == t.to))
  }

  /** What a transfer is once it has passed validation. */
  predicate Validated(t: Transfer) {
    Saga.SpecOk(t) && CounterOk(t) && t.to != "" && (t.kind != Topup ==> t.from != t.to)
  }

  lemma AcceptedIsValidated(t: Transfer, a: Answers)
    requires t.id != "" && ValidateSpec(t.kind, t.from, t.to, t.toNumber, t.amount, t.currency).None?
    requires Faithful(t, a) && Judge(t, a).Accept?
    ensures Validated(Accepted(t, Judge(t, a)))
  {
    AcceptOk(t, a);
  }

  /** A debit and a credit of one amount. */
  predicate Opposed(a: PostingSpec, b: PostingSpec) {
    a.currency == b.currency && a.amount + b.amount == 0
  }

  lemma {:induction false} SpecSumPair(x: seq<PostingSpec>, a: PostingSpec, b: PostingSpec, c: string)
    requires Opposed(a, b)
    ensures SpecSum(x + [a] + [b], c) == SpecSum(x, c)
  {
    assert (x + [a] + [b])[..|x| + 1] == x + [a];
    assert (x + [a])[..|x|] == x;
  }

  lemma {:induction false} RefSumHead(x: seq<PostingSpec>, ref: AccountRef)
    requires x != [] && x[0].ref == ref && forall i :: 1 <= i < |x| ==> x[i].ref != ref
    ensures RefSum(x, ref) == x[0].amount
  {
    if |x| > 1 {
      RefSumHead(x[..|x| - 1], ref);
    }
  }

  /** Two legs, or four, in opposed pairs. */
  predicate Paired(specs: seq<PostingSpec>) {
    && (|specs| == 2 || |specs| == 4) && Opposed(specs[0], specs[1])
    && (|specs| == 4 ==> Opposed(specs[2], specs[3]))
  }

  lemma LegsPaired(t: Transfer)
    requires Validated(t)
    ensures var specs := BuildPostings(t);
            && Paired(specs)
            && (forall i :: 0 <= i < |specs| ==> specs[i].amount != 0 && ValidCurrency(specs[i].currency))
            && specs[0].ref == SourceRef(t) && specs[0].amount == -(t.amount as int)
            && (forall i :: 1 <= i < |specs| ==> specs[i].ref != SourceRef(t))
  {
  }

  lemma {:induction false} PairedZero(specs: seq<PostingSpec>, c: string)
    requires Paired(specs)
    ensures SpecSum(specs, c) == 0
  {
    SpecSumPair([], specs[0], specs[1], c);
    assert [] + [specs[0]] + [specs[1]] == specs[..2];
    if |specs| == 2 {
      assert specs[..2] == specs;
    } else {
      SpecSumPair(specs[..2], specs[2], specs[3], c);
      assert specs[..2] + [specs[2]] + [specs[3]] == specs;
    }
  }

  /** The legs of a validated transfer are nonzero, sum to zero in every currency, and take exactly
      the held amount from its source. */
  lemma {:induction false} LegsBalance(t: Transfer)
    requires Validated(t)
    ensures var specs := BuildPostings(t);
            && 2 <= |specs|
            && (forall i :: 0 <= i < |specs| ==> specs[i].amount != 0 && ValidCurrency(specs[i].currency))
            && (forall c :: SpecSum(specs, c) == 0)
            && RefSum(specs, SourceRef(t)) == -(t.amount as int)
  {
    LegsPaired(t);
    var specs := BuildPostings(t);
    forall c ensures SpecSum(specs, c) == 0 {
      PairedZero(specs, c);
    }
    RefSumHead(specs, SourceRef(t));
  }

  // ---------------------------------------------------------------- the same legs on ledger accounts

  /** The chart of accounts the ledger is seeded with. */
  ghost predicate Coded(s: State, code: string, currency: string) {
    && code in s.byCode && s.byCode[code] in s.accounts
    && s.accounts[s.byCode[code]].currency == currency && s.accounts[s.byCode[code]].kind == Internal
  }

  ghost predicate Seeded(s: State) {
    && Coded(s, "cash_in_kzt", "KZT") && Coded(s, "cash_in_usd", "USD")
    && Coded(s, "fx_position_kzt", "KZT") && Coded(s, "fx_position_usd", "USD")
  }

  /** A customer account the ledger knows, open for posting in this currency. */
  ghost predicate Usable(s: State, externalId: string, currency: string) {
    && externalId != "" && externalId in s.byExternal && s.byExternal[externalId] in s.accounts
    && var acct := s.accounts[s.byExternal[externalId]];
    && acct.currency == currency && acct.status == Active
  }

  function DestinationCurrency(t: Transfer): string {
    if t.counterCurrency.Some? then t.counterCurrency.value else t.currency
  }

  ghost predicate Ready(t: Transfer, s: State) {
    && Seeded(s)
    && (t.kind != Topup ==> Usable(s, t.from, t.currency))
    && Usable(s, t.to, DestinationCurrency(t))
  }

  lemma {:induction false} CurrencySumOfSpecs(s: State, specs: seq<PostingSpec>, legs: seq<Posting>, c: string)
    requires |legs| == |specs|
    requires forall i :: 0 <= i < |specs| ==> legs[i].amount == specs[i].amount && legs[i].currency == specs[i].currency
    ensures CurrencySum(legs, c) == SpecSum(specs, c)
  {
    if legs != [] {
      CurrencySumOfSpecs(s, specs[..|specs| - 1], legs[..|legs| - 1], c);
    }
  }

  /** A reference that resolves to an account the ledger lets this currency be posted on. */
  ghost predicate RefReady(s: State, ref: AccountRef, currency: string) {
    && Resolve(s, ref).Ok? && Resolve(s, ref).value in s.accounts
    && var acct := s.accounts[Resolve(s, ref).value];
    && acct.currency == currency && (acct.kind == Customer ==> acct.status == Active)
  }

  ghost predicate Matches(s: State, specs: seq<PostingSpec>, legs: seq<Posting>) {
    && |legs| == |specs|
    && forall i :: 0 <= i < |specs| ==> Resolve(s, specs[i].ref) == Ok(legs[i].account)
                                        && legs[i].amount == specs[i].amount && legs[i].currency == specs[i].currency
  }

  lemma {:induction false} AllResolve(s: State, specs: seq<PostingSpec>, n: nat)
    requires n <= |specs| && forall i :: 0 <= i < |specs| ==> Resolve(s, specs[i].ref).Ok?
    ensures ResolveLegs(s, specs, n).Ok? && Matches(s, specs[..n], ResolveLegs(s, specs, n).value)
  {
    if n > 0 {
      AllResolve(s, specs, n - 1);
    }
  }

  predicate DistinctAccounts(legs: seq<Posting>) {
    forall i, j :: 0 <= i < j < |legs| ==> legs[i].account != legs[j].account
  }

  lemma SourceReady(t: Transfer, s: State)
    requires Ready(t, s) && AccountsOk(s) && Saga.SpecOk(t)
    ensures RefReady(s, SourceRef(t), t.currency)
    ensures s.accounts[Resolve(s, SourceRef(t)).value].kind == if t.kind == Topup then Internal else Customer
  {
  }

  lemma FxReady(s: State, currency: string)
    requires Seeded(s) && ValidCurrency(currency)
    ensures RefReady(s, InternalCode(FxPosition(currency)), currency)
    ensures s.accounts[Resolve(s, InternalCode(FxPosition(currency))).value].kind == Internal
  {
  }

  lemma DestinationReady(t: Transfer, s: State)
    requires Ready(t, s) && AccountsOk(s)
    ensures RefReady(s, External(t.to), DestinationCurrency(t))
    ensures s.accounts[Resolve(s, External(t.to)).value].kind == Customer
  {
  }

  lemma EndsDiffer(t: Transfer, s: State)
    requires Ready(t, s) && AccountsOk(s) && Validated(t)
    ensures Resolve(s, SourceRef(t)) != Resolve(s, External(t.to))
  {
    SourceReady(t, s);
    DestinationReady(t, s);
  }

  lemma {:induction false} RefsReady(t: Transfer, s: State)
    requires Ready(t, s) && AccountsOk(s) && Validated(t)
    ensures var specs := BuildPostings(t);
            forall i :: 0 <= i < |specs| ==> RefReady(s, specs[i].ref, specs[i].currency)
  {
    SourceReady(t, s);
    DestinationReady(t, s);
    if t.counterAmount.Some? {
      FxReady(s, t.currency);
      FxReady(s, t.counterCurrency.value);
    }
  }

  /** No two legs share an account: the ends differ, and the exchange accounts are internal and differ in
      currency. */
  lemma {:induction false} RefsDiffer(t: Transfer, s: State, legs: seq<Posting>)
    requires Ready(t, s) && AccountsOk(s) && Validated(t) && Matches(s, BuildPostings(t), legs)
    ensures DistinctAccounts(legs)
  {
    SourceReady(t, s);
    DestinationReady(t, s);
    EndsDiffer(t, s);
    if t.counterAmount.Some? {
      FxReady(s, t.currency);
      FxReady(s, t.counterCurrency.value);
    }
  }

  lemma {:induction false} ReadyLeg(s: State, p: PostingSpec, leg: Posting)
    requires RefReady(s, p.ref, p.currency) && Resolve(s, p.ref) == Ok(leg.account)
    requires leg.amount == p.amount != 0 && leg.currency == p.currency && ValidCurrency(p.currency)
    ensures SoundLeg(leg, s.accounts)
  {
  }

  /** Every leg of the transfer is one the ledger takes, each on an account of its own. */
  lemma {:induction false} LegsReady(t: Transfer, s: State)
    requires Ready(t, s) && AccountsOk(s) && Validated(t)
    ensures var specs := BuildPostings(t);
            var r := ResolveLegs(s, specs, |specs|);
            && r.Ok? && Matches(s, specs, r.value) && DistinctAccounts(r.value)
            && LegsSound(r.value, s.accounts, |r.value|)
  {
    var specs := BuildPostings(t);
    LegsPaired(t);
    RefsReady(t, s);
    AllResolve(s, specs, |specs|);
    assert specs[..|specs|] == specs;
    var legs := ResolveLegs(s, specs, |specs|).value;
    RefsDiffer(t, s, legs);
    forall i | 0 <= i < |legs| ensures SoundLeg(legs[i], s.accounts) {
      ReadyLeg(s, specs[i], legs[i]);
    }
  }

  lemma {:induction false} SpecSumSnoc(x: seq<PostingSpec>, p: PostingSpec, c: string)
    ensures SpecSum(x + [p], c) == SpecSum(x, c) + if p.currency == c then p.amount else 0
  {
    assert (x + [p])[..|x|] == x;
  }

  lemma {:induction false} SpecSumOne(specs: seq<PostingSpec>, k: nat, c: string)
    requires k < |specs| && SpecSum(specs[..k], c) == 0
    ensures Fits(SpecSum(specs[..k + 1], c))
  {
    SpecSumSnoc(specs[..k], specs[k], c);
    assert specs[..k] + [specs[k]] == specs[..k + 1];
  }

  lemma {:induction false} SpecSumTwo(specs: seq<PostingSpec>, k: nat, c: string)
    requires k + 1 < |specs| && Opposed(specs[k], specs[k + 1]) && SpecSum(specs[..k], c) == 0
    ensures SpecSum(specs[..k + 2], c) == 0
  {
    SpecSumPair(specs[..k], specs[k], specs[k + 1], c);
    assert specs[..k] + [specs[k]] + [specs[k + 1]] == specs[..k + 2];
  }

  /** After an even number of legs every currency is back at zero; in between one leg is open. */
  lemma {:induction false} PrefixSums(specs: seq<PostingSpec>, k: nat, c: string)
    requires Paired(specs) && k <= |specs|
    ensures Fits(SpecSum(specs[..k], c))
  {
    assert specs[..0] == [];
    if k == 1 {
      SpecSumOne(specs, 0, c);
    } else if 2 <= k {
      SpecSumTwo(specs, 0, c);
      if k == 3 {
        SpecSumOne(specs, 2, c);
      } else if k == 4 {
        SpecSumTwo(specs, 2, c);
      }
    }
  }

  lemma {:induction false} PairedAcceptable(s: State, specs: seq<PostingSpec>, legs: seq<Posting>)
    requires Paired(specs) && Matches(s, specs, legs) && LegsSound(legs, s.accounts, |legs|)
    ensures Acceptable(legs, s.accounts)
  {
    forall c ensures CurrencySum(legs, c) == 0 {
      PairedZero(specs, c);
      CurrencySumOfSpecs(s, specs, legs, c);
    }
    forall k, c | 0 <= k <= |legs| ensures Fits(CurrencySum(legs[..k], c)) {
      CurrencySumOfSpecs(s, specs[..k], legs[..k], c);
      PrefixSums(specs, k, c);
    }
  }

  lemma {:induction false} EntryAccepted(t: Transfer, s: State, legs: seq<Posting>)
    requires Validated(t) && Matches(s, BuildPostings(t), legs) && LegsSound(legs, s.accounts, |legs|)
    ensures EntryError(legs, s.accounts).None?
  {
    LegsPaired(t);
    PairedAcceptable(s, BuildPostings(t), legs);
    EntryErrorExact(legs, s.accounts);
  }

  // ---------------------------------------------------------------- the hold

  lemma {:induction false} SoleLegSum(legs: seq<Posting>, i: nat)
    requires DistinctAccounts(legs) && i < |legs|
    ensures AccountSum(legs, legs[i].account) == legs[i].amount
  {
    var init := legs[..|legs| - 1];
    if i == |legs| - 1 {
      assert !Touches(init, legs[i].account);
      UntouchedSum(init, legs[i].account);
    } else {
      SoleLegSum(init, i);
    }
  }

  lemma {:induction false} DistinctDeltas(legs: seq<Posting>, n: nat)
    requires DistinctAccounts(legs) && n <= |legs|
    ensures Deltas(legs, n).Ok?
  {
    if n > 0 {
      DistinctDeltas(legs, n - 1);
      DeltasExact(legs, n - 1);
      assert !Touches(legs[..n - 1], legs[n - 1].account);
    }
  }

  /** The net debit on the source is the held amount, so the hold is captured in full and never
      exceeded. */
  lemma {:induction false} CaptureAccepted(t: Transfer, s: State, h: Uuid, legs: seq<Posting>)
    requires Validated(t) && Matches(s, BuildPostings(t), legs) && DistinctAccounts(legs)
    requires Saga.HoldFor(t, h, s) && s.holds[h].status == HoldActive
    ensures Deltas(legs, |legs|).Ok?
    ensures AccountSum(legs, s.holds[h].account) == -(t.amount as int)
    ensures Capture(s, TransferRef(t.id), Some(h), Deltas(legs, |legs|).value) == Ok(Some(s.holds[h].(status := HoldCaptured)))
  {
    DistinctDeltas(legs, |legs|);
    DeltasExact(legs, |legs|);
    assert legs[..|legs|] == legs;
    SoleLegSum(legs, 0);
  }

  // ---------------------------------------------------------------- the whole post

  /** The first leg, and no other, is on the hold's account, and takes what the hold reserved. */
  ghost predicate SourceFirst(s: State, h: Uuid, legs: seq<Posting>) {
    && h in s.holds && 0 < |legs|
    && legs[0].account == s.holds[h].account && legs[0].amount == -(s.holds[h].amount as int)
    && forall i :: 1 <= i < |legs| ==> legs[i].account != s.holds[h].account
  }

  lemma {:induction false} LegsSourceFirst(t: Transfer, s: State, h: Uuid, legs: seq<Posting>)
    requires Validated(t) && Matches(s, BuildPostings(t), legs) && DistinctAccounts(legs) && Saga.HoldFor(t, h, s)
    ensures SourceFirst(s, h, legs)
  {
    LegsPaired(t);
  }

  lemma CustomerReceives(t: Transfer, s: State, legs: seq<Posting>, i: nat)
    requires Ready(t, s) && AccountsOk(s) && Validated(t) && Matches(s, BuildPostings(t), legs)
    requires 0 < i < |legs| && legs[i].account in s.accounts && s.accounts[legs[i].account].kind == Customer
    ensures 0 < legs[i].amount
  {
    if |legs| == 4 && i < 3 {
      FxReady(s, if i == 1 then t.currency else t.counterCurrency.value);
    }
  }

  /** The balance a leg touches stays a 64-bit number. */
  ghost predicate LegFits(s: State, p: Posting) {
    p.account in s.balances && Fits(s.balances[p.account].balance + p.amount)
  }

  ghost predicate LegsFit(s: State, legs: seq<Posting>) {
    forall i :: 0 <= i < |legs| ==> LegFits(s, legs[i])
  }

  lemma {:induction false} LegBears(s: State, h: Uuid, legs: seq<Posting>, i: nat)
    requires WellFormed(s) && HeldOk(s) && SourceFirst(s, h, legs) && DistinctAccounts(legs)
    requires i < |legs| && legs[i].account in s.accounts
    requires 0 < i && s.accounts[legs[i].account].kind == Customer ==> 0 < legs[i].amount
    ensures Bears(s, Some(h), legs, legs[i].account) <==> LegFits(s, legs[i])
  {
    SoleLegSum(legs, i);
    SoundBears(s, h, legs, legs[i].account, legs[i].amount);
  }

  /** The hold's account gives up what the hold reserved; every other customer only receives. */
  lemma {:induction false} SoundBears(s: State, h: Uuid, legs: seq<Posting>, a: Uuid, amount: int64)
    requires h in s.holds && a in s.accounts && a in s.balances && AccountSum(legs, a) == amount
    requires if a == s.holds[h].account then amount == -(s.holds[h].amount as int)
             else s.accounts[a].kind == Customer ==> 0 < amount
    requires s.accounts[a].kind == Customer ==> Sound(s.balances[a])
    ensures Bears(s, Some(h), legs, a) <==> Fits(s.balances[a].balance + amount)
  {
  }

  /** Whether the leg's account bears it is only a matter of the size of its new balance. */
  ghost predicate LegBorne(s: State, h: Uuid, legs: seq<Posting>, i: nat)
    requires i < |legs|
  {
    && (Bears(s, Some(h), legs, legs[i].account) <==> LegFits(s, legs[i]))
    && AccountSum(legs, legs[i].account) == legs[i].amount
  }

  ghost predicate Borne(s: State, h: Uuid, legs: seq<Posting>) {
    forall i {:trigger LegBorne(s, h, legs, i)} :: 0 <= i < |legs| ==> LegBorne(s, h, legs, i)
  }

  lemma {:induction false} TouchedBear(s: State, h: Uuid, legs: seq<Posting>)
    requires Borne(s, h, legs)
    ensures (forall a :: Touches(legs, a) ==> Bears(s, Some(h), legs, a)) <==> LegsFit(s, legs)
  {
    forall i | 0 <= i < |legs|
      ensures Touches(legs, legs[i].account) && (Bears(s, Some(h), legs, legs[i].account) <==> LegFits(s, legs[i]))
    {
      assert LegBorne(s, h, legs, i);
    }
  }

  lemma FittingBears(s: State, h: Uuid, legs: seq<Posting>, a: Uuid)
    requires Borne(s, h, legs) && Touches(legs, a) && a in s.balances && Fits(s.balances[a].balance + AccountSum(legs, a))
    ensures Bears(s, Some(h), legs, a)
  {
    var i :| 0 <= i < |legs| && legs[i].account == a;
    assert LegBorne(s, h, legs, i);
  }

  lemma BorneOverflows(s: State, reference: Reference, h: Uuid, legs: seq<Posting>)
    requires WellFormed(s) && HoldsOk(s) && HeldOk(s) && LegsKnown(s, legs) && Borne(s, h, legs)
    requires Acceptable(legs, s.accounts) && NetsFit(legs, |legs|) && HoldCovers(s, reference, Some(h), legs)
    ensures PlanPost(s, reference, Some(h), legs).Err? ==> PlanPost(s, reference, Some(h), legs) == Err(Overflow)
  {
    forall a | Touches(legs, a) && a in s.balances && Fits(s.balances[a].balance + AccountSum(legs, a))
      ensures Bears(s, Some(h), legs, a)
    {
      FittingBears(s, h, legs, a);
    }
    LedgerAnswers.PlanOverflows(s, reference, Some(h), legs);
  }

  lemma {:induction false} OneBears(t: Transfer, s: State, h: Uuid, legs: seq<Posting>, i: nat)
    requires WellFormed(s) && HeldOk(s) && Ready(t, s) && AccountsOk(s) && Validated(t)
    requires Matches(s, BuildPostings(t), legs) && DistinctAccounts(legs) && LegsKnown(s, legs) && Saga.HoldFor(t, h, s)
    requires i < |legs|
    ensures LegBorne(s, h, legs, i)
  {
    LegsSourceFirst(t, s, h, legs);
    SoleLegSum(legs, i);
    if 0 < i && s.accounts[legs[i].account].kind == Customer {
      CustomerReceives(t, s, legs, i);
    }
    LegBears(s, h, legs, i);
  }

  lemma {:induction false} LegsBorne(t: Transfer, s: State, h: Uuid, legs: seq<Posting>)
    requires WellFormed(s) && HeldOk(s) && Ready(t, s) && AccountsOk(s) && Validated(t)
    requires Matches(s, BuildPostings(t), legs) && DistinctAccounts(legs) && LegsKnown(s, legs) && Saga.HoldFor(t, h, s)
    ensures Borne(s, h, legs)
  {
    forall i | 0 <= i < |legs| ensures LegBorne(s, h, legs, i) {
      OneBears(t, s, h, legs, i);
    }
  }

  /** Everything a post can be refused for, but for the size of the balances it leaves. */
  lemma {:induction false} LegsCovered(t: Transfer, s: State, h: Uuid, legs: seq<Posting>)
    requires Validated(t) && Matches(s, BuildPostings(t), legs) && DistinctAccounts(legs) && LegsSound(legs, s.accounts, |legs|)
    requires Saga.HoldFor(t, h, s) && s.holds[h].status == HoldActive
    ensures Acceptable(legs, s.accounts) && NetsFit(legs, |legs|) && HoldCovers(s, TransferRef(t.id), Some(h), legs)
  {
    LegsPaired(t);
    PairedAcceptable(s, BuildPostings(t), legs);
    DistinctDeltas(legs, |legs|);
    DeltasDecide(legs, |legs|);
    HoldCoversLegs(t, s, h, legs);
  }

  lemma {:induction false} LegsPostable(t: Transfer, s: State, h: Uuid, legs: seq<Posting>)
    requires WellFormed(s) && HoldsOk(s) && HeldOk(s) && Ready(t, s) && AccountsOk(s) && Validated(t)
    requires Matches(s, BuildPostings(t), legs) && DistinctAccounts(legs) && LegsKnown(s, legs)
    requires LegsSound(legs, s.accounts, |legs|)
    requires Saga.HoldFor(t, h, s) && s.holds[h].status == HoldActive
    ensures Postable(s, TransferRef(t.id), Some(h), legs) <==> LegsFit(s, legs)
  {
    LegsCovered(t, s, h, legs);
    LegsBorne(t, s, h, legs);
    TouchedBear(s, h, legs);
    PostableIfBorne(s, TransferRef(t.id), Some(h), legs);
  }

  lemma {:induction false} HoldCoversLegs(t: Transfer, s: State, h: Uuid, legs: seq<Posting>)
    requires Validated(t) && Matches(s, BuildPostings(t), legs) && DistinctAccounts(legs)
    requires Saga.HoldFor(t, h, s) && s.holds[h].status == HoldActive
    ensures HoldCovers(s, TransferRef(t.id), Some(h), legs)
  {
    LegsSourceFirst(t, s, h, legs);
    SoleLegSum(legs, 0);
  }

  lemma {:induction false} PostableIfBorne(s: State, reference: Reference, holdId: Option<Uuid>, legs: seq<Posting>)
    requires Acceptable(legs, s.accounts) && NetsFit(legs, |legs|) && HoldCovers(s, reference, holdId, legs)
    ensures Postable(s, reference, holdId, legs) <==> forall a :: Touches(legs, a) ==> Bears(s, holdId, legs, a)
  {
  }

  /** The post of a validated transfer under its active hold, on open accounts of the right currencies,
      succeeds if and only if no balance it touches leaves the 64-bit range. */
  lemma PostSucceeds(t: Transfer, s: State, h: Uuid)
    requires WellFormed(s) && HoldsOk(s) && HeldOk(s) && AccountsOk(s)
    requires Ready(t, s) && Validated(t) && Saga.HoldFor(t, h, s) && s.holds[h].status == HoldActive
    requires TransferRef(t.id) !in s.entryRefs
    ensures ResolveLegs(s, BuildPostings(t), |BuildPostings(t)|).Ok?
    ensures Post(s, TransferRef(t.id), Some(h), BuildPostings(t)).1.Ok? <==>
            LegsFit(s, ResolveLegs(s, BuildPostings(t), |BuildPostings(t)|).value)
  {
    LegsReady(t, s);
    var specs := BuildPostings(t);
    ResolveLegsKnown(s, specs, |specs|);
    LegsPostable(t, s, h, ResolveLegs(s, specs, |specs|).value);
    PostExact(s, TransferRef(t.id), Some(h), specs);
  }

  lemma {:induction false} PlanAccepted(t: Transfer, s: State, h: Uuid, legs: seq<Posting>)
    requires WellFormed(s) && HoldsOk(s) && HeldOk(s) && Ready(t, s) && AccountsOk(s) && Validated(t)
    requires Matches(s, BuildPostings(t), legs) && DistinctAccounts(legs) && LegsKnown(s, legs)
    requires LegsSound(legs, s.accounts, |legs|)
    requires Saga.HoldFor(t, h, s) && s.holds[h].status == HoldActive
    ensures PlanPost(s, TransferRef(t.id), Some(h), legs).Err? ==> PlanPost(s, TransferRef(t.id), Some(h), legs) == Err(Overflow)
  {
    LegsCovered(t, s, h, legs);
    LegsBorne(t, s, h, legs);
    BorneOverflows(s, TransferRef(t.id), h, legs);
  }

  /** The contract between the two services: whatever else has run since the hold was placed, the
      post of a validated transfer under its active hold, on open accounts of the right currencies,
      succeeds, unless some balance would leave the 64-bit range, and then overflow is the answer. */
  lemma PostAccepted(t: Transfer, s: State, h: Uuid)
    requires WellFormed(s) && HoldsOk(s) && HeldOk(s) && AccountsOk(s)
    requires Ready(t, s) && Validated(t) && Saga.HoldFor(t, h, s) && s.holds[h].status == HoldActive
    requires TransferRef(t.id) !in s.entryRefs
    ensures Post(s, TransferRef(t.id), Some(h), BuildPostings(t)).1.Err? ==>
              Post(s, TransferRef(t.id), Some(h), BuildPostings(t)).1 == Err(Overflow)
  {
    LegsReady(t, s);
    var specs := BuildPostings(t);
    ResolveLegsKnown(s, specs, |specs|);
    var legs := ResolveLegs(s, specs, |specs|).value;
    PlanAccepted(t, s, h, legs);
    LedgerAnswers.PlanAnswers(s, TransferRef(t.id), Some(h), specs, legs);
  }

  /** From the request to the ledger: whatever passed the spec check and validation, with accounts as the
      account service described them, is posted under its active hold if and only if no balance it
      touches leaves the 64-bit range. */
  lemma AcceptedPosts(t: Transfer, a: Answers, s: State, h: Uuid)
    requires t.id != "" && ValidateSpec(t.kind, t.from, t.to, t.toNumber, t.amount, t.currency).None?
    requires Faithful(t, a) && Judge(t, a).Accept?
    requires WellFormed(s) && HoldsOk(s) && HeldOk(s) && AccountsOk(s) && TransferRef(t.id) !in s.entryRefs
    requires var u := Accepted(t, Judge(t, a)); Ready(u, s) && Saga.HoldFor(u, h, s) && s.holds[h].status == HoldActive
    ensures var u := Accepted(t, Judge(t, a));
            var specs := BuildPostings(u);
            && ResolveLegs(s, specs, |specs|).Ok?
            && (Post(s, TransferRef(t.id), Some(h), specs).1.Ok? <==> LegsFit(s, ResolveLegs(s, specs, |specs|).value))
  {
    AcceptedIsValidated(t, a);
    PostSucceeds(Accepted(t, Judge(t, a)), s, h);
  }

  // ---------------------------------------------------------------- the seeded chart stays

  lemma SeededStep(s: State, op: Op)
    requires WellFormed(s) && Seeded(s)
    ensures Seeded(Step(s, op))
  {
    LedgerTheorems.StepExtends(s, op);
    LedgerTheorems.StepKeepsAccounts(s, op);
  }

  lemma {:induction false} SeededRun(s: State, ops: seq<Op>)
    requires Inv(s) && Seeded(s)
    ensures Seeded(LedgerTheorems.Run(s, ops))
    decreases |ops|
  {
    if ops != [] {
      StepInv(s, ops[0]);
      SeededStep(s, ops[0]);
      SeededRun(Step(s, ops[0]), ops[1..]);
    }
  }

  lemma SeedSeeded()
    ensures Seeded(Seed())
  {
  }

  /** The internal accounts the legs name are there in every reachable ledger. */
  lemma AlwaysSeeded(s: State)
    requires LedgerTheorems.Reachable(s)
    ensures Seeded(s)
  {
    SeedInv();
    SeedSeeded();
    var ops :| LedgerTheorems.Reaches(ops, s);
    SeededRun(Seed(), ops);
  }
}

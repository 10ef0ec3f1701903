/** The ledger's promises, for every sequence of operations from the seeded chart of accounts. */
module LedgerTheorems {
  import opened Int64
  import Sums
  import opened LedgerDomain
  import opened Ledger
  import opened LedgerLaws

  /** The state after a sequence of transactions. */
  ghost function Run(s: State, ops: seq<Op>): (t: State)
    requires Inv(s)
    ensures Inv(t)
    decreases |ops|
  {
    if ops == [] then s
    else
      StepInv(s, ops[0]);
      Run(Step(s, ops[0]), ops[1..])
  }

  ghost predicate Reaches(ops: seq<Op>, s: State) {
    SeedInv();
    s == Run(Seed(), ops)
  }

  ghost predicate Reachable(s: State) {
    exists ops :: Reaches(ops, s)
  }

  lemma ReachableInv(s: State)
    requires Reachable(s)
    ensures Inv(s)
  {
    SeedInv();
  }

  lemma ReachableTables(s: State)
    requires Reachable(s)
    ensures WellFormed(s) && AccountsOk(s) && HoldsOk(s) && HeldOk(s)
  {
    ReachableInv(s);
  }

  lemma {:induction false} RunSnoc(s: State, ops: seq<Op>, op: Op)
    requires Inv(s)
    ensures Run(s, ops + [op]) == Step(Run(s, ops), op)
    decreases |ops|
  {
    StepInv(s, if ops == [] then op else ops[0]);
    if ops == [] {
      assert [op][1..] == [];
    } else {
      assert (ops + [op])[1..] == ops[1..] + [op];
      RunSnoc(Step(s, ops[0]), ops[1..], op);
    }
  }

  lemma ReachableNext(s: State, op: Op)
    requires Reachable(s) && WellFormed(s)
    ensures Reachable(Step(s, op))
  {
    SeedInv();
    var ops :| Reaches(ops, s);
    RunSnoc(Seed(), ops, op);
    assert Reaches(ops + [op], Step(s, op));
  }

  lemma SeedReachable()
    ensures Reachable(Seed())
  {
    SeedInv();
    assert Reaches([], Seed());
  }

  // ---------------------------------------------------------------- conservation

  /** The balances of the accounts of one currency. */
  ghost function BalancesIn(s: State, c: string): map<Uuid, int> {
    map a | a in s.accounts && a in s.balances && s.accounts[a].currency == c :: s.balances[a].balance as int
  }

  ghost predicate CurrenciesMatch(legs: seq<Posting>, accounts: map<Uuid, Account>) {
    forall i :: 0 <= i < |legs| ==> legs[i].account in accounts && legs[i].currency == accounts[legs[i].account].currency
  }

  ghost function SumsIn(accounts: map<Uuid, Account>, legs: seq<Posting>, c: string): map<Uuid, int> {
    map a | a in accounts && accounts[a].currency == c :: AccountSum(legs, a)
  }

  lemma {:induction false} ZeroTotal(m: map<Uuid, int>, n: nat)
    requires forall a :: a in m ==> m[a] == 0
    ensures Sums.SumBelow(m, n) == 0
  {
    if n > 0 {
      ZeroTotal(m, n - 1);
    }
  }

  /** Summing by account and summing by currency see the same legs. */
  lemma {:induction false} AccountsCoverCurrency(accounts: map<Uuid, Account>, legs: seq<Posting>, c: string)
    requires CurrenciesMatch(legs, accounts)
    ensures Sums.Total(SumsIn(accounts, legs, c)) == CurrencySum(legs, c)
  {
    if legs == [] {
      ZeroTotal(SumsIn(accounts, legs, c), Sums.Bound(SumsIn(accounts, legs, c).Keys));
    } else {
      var init, p := legs[..|legs| - 1], legs[|legs| - 1];
      AccountsCoverCurrency(accounts, init, c);
      var m := SumsIn(accounts, init, c);
      if p.currency == c {
        assert SumsIn(accounts, legs, c) == m[p.account := m[p.account] + p.amount];
        Sums.TotalUpdate(m, p.account, m[p.account] + p.amount);
      } else {
        assert SumsIn(accounts, legs, c) == m;
      }
    }
  }

  lemma {:induction false} JournalSumsZero(journal: seq<Entry>, accounts: map<Uuid, Account>, c: string)
    requires forall i :: 0 <= i < |journal| ==> EntryOk(journal[i], accounts)
    ensures CurrencySum(Legs(journal), c) == 0
    ensures CurrenciesMatch(Legs(journal), accounts)
  {
    if journal != [] {
      var init, last := journal[..|journal| - 1], journal[|journal| - 1];
      JournalSumsZero(init, accounts, c);
      CurrencySumAppend(Legs(init), last.legs, c);
      assert EntryOk(last, accounts);
    }
  }

  /** Money is conserved: every entry is zero-sum per currency, every balance is the sum of the
      account's postings, every version counts the entries touching it, and the balances of each
      currency cancel out. */
  lemma Conservation(s: State)
    requires Reachable(s)
    ensures forall i, c :: 0 <= i < |s.journal| ==> CurrencySum(s.journal[i].legs, c) == 0
    ensures forall a :: a in s.accounts ==> && a in s.balances
                                            && s.balances[a].balance == AccountSum(Legs(s.journal), a)
                                            && s.balances[a].version == TouchCount(s.journal, a)
    ensures forall c :: Sums.Total(BalancesIn(s, c)) == 0
  {
    ReachableInv(s);
    forall i, c | 0 <= i < |s.journal| ensures CurrencySum(s.journal[i].legs, c) == 0 {
      assert EntryOk(s.journal[i], s.accounts);
    }
    forall c ensures Sums.Total(BalancesIn(s, c)) == 0 {
      CurrencyCancels(s, c);
    }
  }

  lemma CurrencyCancels(s: State, c: string)
    requires WellFormed(s) && JournalOk(s) && BalancesOk(s)
    ensures Sums.Total(BalancesIn(s, c)) == 0
  {
    JournalSumsZero(s.journal, s.accounts, c);
    AccountsCoverCurrency(s.accounts, Legs(s.journal), c);
    assert BalancesIn(s, c) == SumsIn(s.accounts, Legs(s.journal), c);
  }

  // ---------------------------------------------------------------- reservations

  /** The active holds on an account. */
  ghost function ActiveAmounts(s: State, a: Uuid): map<Uuid, int> {
    map h | h in s.holds && s.holds[h].account == a && s.holds[h].status == HoldActive :: s.holds[h].amount as int
  }

  /** The one way a reservation outlives its hold: captured by an entry without a leg on its account. */
  ghost predicate Stranded(s: State, h: Uuid)
    requires h in s.holds
  {
    s.holds[h].status == HoldCaptured && HoldWeight(s, s.holds[h]) != 0
  }

  /** A customer's reservations: 0 <= sum of active holds <= held <= balance, on 64-bit rows where
      available never wraps; and held is exactly that sum when no hold is stranded, and only then. */
  lemma Reservation(s: State, a: Uuid)
    requires Reachable(s) && a in s.accounts
    ensures a in s.balances
    ensures 0 <= Sums.Total(ActiveAmounts(s, a)) <= s.balances[a].held
    ensures s.balances[a].held == Sums.Total(ActiveAmounts(s, a)) <==>
              forall h :: h in s.holds && s.holds[h].account == a ==> !Stranded(s, h)
    ensures s.accounts[a].kind == Customer ==> && s.balances[a].held <= s.balances[a].balance
                                               && Available(s.balances[a]) == s.balances[a].balance - s.balances[a].held >= 0
  {
    ReachableInv(s);
    ReservationOf(s, a);
  }

  lemma ActiveWithinHeld(s: State, a: Uuid)
    requires WellFormed(s) && HoldsOk(s) && HeldOk(s) && a in s.accounts
    ensures 0 <= Sums.Total(ActiveAmounts(s, a)) <= s.balances[a].held
  {
    var active, weights := ActiveAmounts(s, a), HoldWeights(s, a);
    forall h | h in weights ensures 0 <= weights[h] && (h in active ==> active[h] == weights[h]) {
      assert weights[h] == HoldWeight(s, s.holds[h]);
    }
    Sums.TotalNonNegative(active);
    Sums.TotalMonotone(active, weights);
  }

  lemma ReservationOf(s: State, a: Uuid)
    requires WellFormed(s) && HoldsOk(s) && HeldOk(s) && a in s.accounts
    ensures 0 <= Sums.Total(ActiveAmounts(s, a)) <= s.balances[a].held
    ensures s.balances[a].held == Sums.Total(ActiveAmounts(s, a)) <==>
              forall h :: h in s.holds && s.holds[h].account == a ==> !Stranded(s, h)
  {
    ActiveWithinHeld(s, a);
    if h :| h in s.holds && s.holds[h].account == a && Stranded(s, h) {
      StrandedGap(s, a, h);
    } else {
      var active, weights := ActiveAmounts(s, a), HoldWeights(s, a);
      assert forall h :: h in weights && h !in active ==> !Stranded(s, h);
      Sums.TotalSame(weights, active);
    }
  }

  lemma StrandedGap(s: State, a: Uuid, h: Uuid)
    requires WellFormed(s) && HoldsOk(s) && HeldOk(s) && a in s.accounts
    requires h in s.holds && s.holds[h].account == a && Stranded(s, h)
    ensures Sums.Total(ActiveAmounts(s, a)) < s.balances[a].held
  {
    var active, weights := ActiveAmounts(s, a), HoldWeights(s, a);
    Sums.TotalUpdate(active, h, weights[h]);
    Sums.TotalMonotone(active[h := weights[h]], weights);
  }

  /** Whatever ran since the hold was granted, capturing it for at most its amount succeeds on its
      account: the reservation is still inside held, and held is still inside the balance. */
  lemma CaptureAlwaysFunded(s: State, h: Uuid, debit: int64)
    requires Reachable(s) && h in s.holds && s.holds[h].status == HoldActive
    requires s.holds[h].account in s.accounts && s.accounts[s.holds[h].account].kind == Customer
    requires -(s.holds[h].amount as int) <= debit <= 0
    ensures CaptureHold(s.holds[h], debit).Ok?
    ensures s.holds[h].account in s.balances
    ensures ApplyOne(s.balances[s.holds[h].account], Customer, Some(s.holds[h]), s.holds[h].account, debit).Ok?
  {
    ReachableInv(s);
    CaptureFunded(s, h, debit);
  }

  lemma CaptureFunded(s: State, h: Uuid, debit: int64)
    requires WellFormed(s) && HoldsOk(s) && HeldOk(s) && h in s.holds && s.holds[h].status == HoldActive
    requires s.accounts[s.holds[h].account].kind == Customer
    requires -(s.holds[h].amount as int) <= debit <= 0
    ensures ApplyOne(s.balances[s.holds[h].account], Customer, Some(s.holds[h]), s.holds[h].account, debit).Ok?
  {
    WeightWithinHeld(s, h);
    CoversCapture(s.balances[s.holds[h].account], s.holds[h], debit);
  }

  lemma CoversCapture(b: Balance, h: Hold, debit: int64)
    requires Sound(b) && 0 < h.amount <= b.held && -(h.amount as int) <= debit <= 0
    ensures ApplyOne(b, Customer, Some(h), h.account, debit).Ok?
  {
    ApplyPostingExact(b, b.held - h.amount, debit);
  }

  lemma {:induction false} ApplyAllNoUnderflow(s: State, captured: Option<Hold>, delta: map<Uuid, int64>, ids: seq<Uuid>, n: nat)
    requires WellFormed(s) && n <= |ids|
    requires forall i :: 0 <= i < |ids| ==> ids[i] in delta && ids[i] in s.accounts
    requires forall a :: a in s.balances ==> 0 <= s.balances[a].held + HeldAdjust(captured, a) <= s.balances[a].held
    ensures ApplyAll(s, captured, delta, ids, n) != Err(HeldUnderflow)
  {
    if n > 0 {
      ApplyAllNoUnderflow(s, captured, delta, ids, n - 1);
      var a := ids[n - 1];
      ApplyOneExact(s.balances[a], s.accounts[a].kind, captured, a, delta[a]);
    }
  }

  lemma CheckLegsErrors(legs: seq<Posting>, accounts: map<Uuid, Account>, n: nat)
    requires n <= |legs|
    ensures CheckLegs(legs, accounts, n) != Err(HeldUnderflow)
  {
  }

  lemma DeltasErrors(legs: seq<Posting>, n: nat)
    requires n <= |legs|
    ensures Deltas(legs, n).Err? ==> Deltas(legs, n).error == Overflow
  {
  }

  lemma {:induction false} ResolveErrors(s: State, specs: seq<PostingSpec>, n: nat)
    requires n <= |specs|
    ensures ResolveLegs(s, specs, n).Err? ==> ResolveLegs(s, specs, n).error == AccountNotFound
  {
    if n > 0 {
      ResolveErrors(s, specs, n - 1);
    }
  }

  lemma AdjustsWithin(s: State, reference: Reference, holdId: Option<Uuid>, p: Plan)
    requires PlanHold(s, reference, holdId, p) && WellFormed(s) && HoldsOk(s) && HeldOk(s)
    ensures forall a :: a in s.balances ==> 0 <= s.balances[a].held + HeldAdjust(p.captured, a) <= s.balances[a].held
  {
    forall a | a in s.balances ensures 0 <= s.balances[a].held + HeldAdjust(p.captured, a) <= s.balances[a].held {
      AdjustWithin(s, reference, holdId, p, a);
    }
  }

  lemma CaptureErrors(s: State, reference: Reference, holdId: Option<Uuid>, delta: map<Uuid, int64>)
    ensures Capture(s, reference, holdId, delta) != Err(HeldUnderflow)
    ensures Capture(s, reference, holdId, delta).Ok? ==>
              PlanHold(s, reference, holdId, Plan(delta, Capture(s, reference, holdId, delta).value, [], map[]))
  {
  }

  lemma AppliedNoUnderflow(s: State, reference: Reference, holdId: Option<Uuid>, legs: seq<Posting>)
    requires WellFormed(s) && HoldsOk(s) && HeldOk(s) && LegsKnown(s, legs) && Deltas(legs, |legs|).Ok?
    requires Capture(s, reference, holdId, Deltas(legs, |legs|).value).Ok?
    ensures var delta := Deltas(legs, |legs|).value;
            var ids := Sums.Sorted(delta.Keys);
            && (forall i :: 0 <= i < |ids| ==> ids[i] in delta && ids[i] in s.accounts)
            && ApplyAll(s, Capture(s, reference, holdId, delta).value, delta, ids, |ids|) != Err(HeldUnderflow)
  {
    var delta := Deltas(legs, |legs|).value;
    var captured := Capture(s, reference, holdId, delta).value;
    CaptureErrors(s, reference, holdId, delta);
    IdsKnown(s, legs);
    AdjustsWithin(s, reference, holdId, Plan(delta, captured, [], map[]));
    ApplyAllNoUnderflow(s, captured, delta, Sums.Sorted(delta.Keys), |Sums.Sorted(delta.Keys)|);
  }

  lemma PlanNoUnderflow(s: State, reference: Reference, holdId: Option<Uuid>, legs: seq<Posting>)
    requires WellFormed(s) && HoldsOk(s) && HeldOk(s) && LegsKnown(s, legs)
    ensures PlanPost(s, reference, holdId, legs) != Err(HeldUnderflow)
  {
    CheckLegsErrors(legs, s.accounts, |legs|);
    DeltasErrors(legs, |legs|);
    if EntryError(legs, s.accounts).None? && Deltas(legs, |legs|).Ok? {
      CaptureErrors(s, reference, holdId, Deltas(legs, |legs|).value);
      if Capture(s, reference, holdId, Deltas(legs, |legs|).value).Ok? {
        AppliedNoUnderflow(s, reference, holdId, legs);
      }
    }
  }

  lemma PostNoUnderflow(s: State, reference: Reference, holdId: Option<Uuid>, specs: seq<PostingSpec>)
    requires WellFormed(s) && HoldsOk(s) && HeldOk(s)
    ensures Post(s, reference, holdId, specs).1 != Err(HeldUnderflow)
  {
    ResolveErrors(s, specs, |specs|);
    if ResolveLegs(s, specs, |specs|).Ok? {
      ResolveLegsKnown(s, specs, |specs|);
      PlanNoUnderflow(s, reference, holdId, ResolveLegs(s, specs, |specs|).value);
    }
  }

  /** Neither held-underflow branch can be reached. */
  lemma NoHeldUnderflow(s: State, reference: Reference, holdId: Option<Uuid>, specs: seq<PostingSpec>, h: Uuid)
    requires Reachable(s)
    ensures WellFormed(s)
    ensures Release(s, h).1 != Err(HeldUnderflow)
    ensures Post(s, reference, holdId, specs).1 != Err(HeldUnderflow)
  {
    ReachableInv(s);
    ReleaseShape(s, h);
    PostNoUnderflow(s, reference, holdId, specs);
  }

  // ---------------------------------------------------------------- idempotency

  /** What never changes again once written: account identities, entries and their references. */
  ghost predicate Extends(s: State, t: State) {
    && (forall x :: x in s.byExternal ==> x in t.byExternal && t.byExternal[x] == s.byExternal[x])
    && (forall x :: x in s.byCode ==> x in t.byCode && t.byCode[x] == s.byCode[x])
    && (forall a :: a in s.accounts ==> a in t.accounts)
    && s.journal <= t.journal
    && (forall r :: r in s.entryRefs ==> r in t.entryRefs && t.entryRefs[r] == s.entryRefs[r])
  }

  lemma CreateExtends(s: State, externalId: string, currency: string, newId: Uuid)
    requires WellFormed(s)
    ensures Extends(s, CreateAccount(s, externalId, currency, newId).0)
  {
    CreateAccountWrites(s, externalId, currency, newId);
  }

  lemma HoldExtends(s: State, ref: AccountRef, amount: int64, c: string, r: Reference, e: int, newId: Uuid)
    requires WellFormed(s)
    ensures Extends(s, PlaceHold(s, ref, amount, c, r, e, newId).0)
  {
    PlaceHoldWrites(s, ref, amount, c, r, e, newId);
  }

  lemma PostExtends(s: State, r: Reference, h: Option<Uuid>, specs: seq<PostingSpec>)
    requires WellFormed(s)
    ensures Extends(s, Post(s, r, h, specs).0)
  {
    PostShape(s, r, h, specs);
  }

  lemma ReleaseExtends(s: State, h: Uuid)
    requires WellFormed(s)
    ensures Extends(s, Release(s, h).0)
  {
    ReleaseWrites(s, h);
  }

  lemma StepExtends(s: State, op: Op)
    requires WellFormed(s)
    ensures Extends(s, Step(s, op))
  {
    match op
    case OpCreateAccount(x, c, f) => CreateExtends(s, x, c, f);
    case OpPlaceHold(ref, amount, c, r, e, f) => HoldExtends(s, ref, amount, c, r, e, f);
    case OpRelease(h) => ReleaseExtends(s, h);
    case OpPost(r, h, specs) => PostExtends(s, r, h, specs);
    case OpSetStatus(a, st) =>
  }

  lemma ExtendsTransitive(s: State, t: State, u: State)
    requires Extends(s, t) && Extends(t, u)
    ensures Extends(s, u)
  {
  }

  /** No transaction changes an account's identity, kind or currency. */
  lemma StepKeepsAccounts(s: State, op: Op)
    requires WellFormed(s)
    ensures AccountsGrow(s, Step(s, op))
  {
    match op
    case OpCreateAccount(x, c, f) => CreateKeepsAccounts(s, x, c, f);
    case OpPlaceHold(ref, amount, c, r, e, f) => HoldKeepsAccounts(s, ref, amount, c, r, e, f);
    case OpRelease(h) => ReleaseKeepsAccounts(s, h);
    case OpPost(r, h, specs) => PostKeepsAccounts(s, r, h, specs);
    case OpSetStatus(a, st) => StatusKeepsAccounts(s, a, st);
  }

  lemma CreateKeepsAccounts(s: State, x: string, c: string, newId: Uuid)
    requires WellFormed(s)
    ensures AccountsGrow(s, CreateAccount(s, x, c, newId).0)
  {
    CreateAccountWrites(s, x, c, newId);
  }

  lemma ReleaseKeepsAccounts(s: State, h: Uuid)
    requires WellFormed(s)
    ensures AccountsGrow(s, Release(s, h).0)
  {
    ReleaseWrites(s, h);
  }

  lemma RestatedGrows(s: State, accounts: map<Uuid, Account>, a: Uuid, st: AccountStatus)
    requires a in s.accounts && accounts == s.accounts[a := s.accounts[a].(status := st)]
    ensures AccountsGrow(s, s.(accounts := accounts))
  {
    assert forall b :: b in s.accounts ==> accounts[b].(status := s.accounts[b].status) == s.accounts[b];
  }

  lemma StatusKeepsAccounts(s: State, a: Uuid, st: AccountStatus)
    ensures AccountsGrow(s, SetStatus(s, a, st))
  {
    if a in s.accounts {
      RestatedGrows(s, s.accounts[a := s.accounts[a].(status := st)], a, st);
    }
  }

  lemma PostKeepsAccounts(s: State, r: Reference, h: Option<Uuid>, specs: seq<PostingSpec>)
    requires WellFormed(s)
    ensures AccountsGrow(s, Post(s, r, h, specs).0)
  {
    PostShape(s, r, h, specs);
  }

  lemma HoldKeepsAccounts(s: State, ref: AccountRef, amount: int64, c: string, r: Reference, e: int, newId: Uuid)
    requires WellFormed(s)
    ensures AccountsGrow(s, PlaceHold(s, ref, amount, c, r, e, newId).0)
  {
    PlaceHoldWrites(s, ref, amount, c, r, e, newId);
  }

  lemma {:induction false} RunExtends(s: State, ops: seq<Op>)
    requires Inv(s)
    ensures Extends(s, Run(s, ops))
    decreases |ops|
  {
    if ops != [] {
      var t := Step(s, ops[0]);
      StepInv(s, ops[0]);
      StepExtends(s, ops[0]);
      RunExtends(t, ops[1..]);
      ExtendsTransitive(s, t, Run(t, ops[1..]));
    }
  }

  lemma {:induction false} ResolveStable(s: State, t: State, specs: seq<PostingSpec>, n: nat)
    requires Extends(s, t) && n <= |specs| && ResolveLegs(s, specs, n).Ok?
    ensures ResolveLegs(t, specs, n) == ResolveLegs(s, specs, n)
  {
    if n > 0 {
      ResolveStable(s, t, specs, n - 1);
    }
  }

  /** The entry a posted request left behind. */
  ghost predicate PostedAs(t: State, reference: Reference, i: nat, legs: seq<Posting>) {
    && reference.kind != "" && reference.id != ""
    && reference in t.entryRefs && t.entryRefs[reference] == i && i < |t.journal|
    && multiset(t.journal[i].legs) == multiset(legs)
  }

  lemma PostLeaves(s: State, reference: Reference, holdId: Option<Uuid>, specs: seq<PostingSpec>)
    requires WellFormed(s) && Post(s, reference, holdId, specs).1.Ok?
    ensures ResolveLegs(s, specs, |specs|).Ok?
    ensures var (t, r) := Post(s, reference, holdId, specs);
            PostedAs(t, reference, r.value, ResolveLegs(s, specs, |specs|).value)
  {
    PostShape(s, reference, holdId, specs);
  }

  /** Once the reference is taken, the payload alone decides the answer, and nothing is written. */
  lemma Answer(t: State, reference: Reference, i: nat, legs: seq<Posting>, holdId: Option<Uuid>, specs: seq<PostingSpec>)
    requires WellFormed(t) && PostedAs(t, reference, i, legs) && ResolveLegs(t, specs, |specs|).Ok?
    ensures Post(t, reference, holdId, specs)
            == (t, if multiset(ResolveLegs(t, specs, |specs|).value) == multiset(legs) then Ok(i) else Err(DuplicateReference))
  {
  }

  /** A request that was posted once is answered with the same entry ever after, whatever hold it
      names (its own is captured by now), and never moves money again; another payload under the
      same reference is refused and changes nothing. */
  lemma Replay(s: State, reference: Reference, holdId: Option<Uuid>, specs: seq<PostingSpec>, ops: seq<Op>,
               laterHold: Option<Uuid>, other: seq<PostingSpec>)
    requires Inv(s) && Post(s, reference, holdId, specs).1.Ok?
    ensures Inv(Post(s, reference, holdId, specs).0)
    ensures var first := Post(s, reference, holdId, specs);
            var later := Run(first.0, ops);
            && Post(later, reference, laterHold, specs) == (later, first.1)
            && (ResolveLegs(later, other, |other|).Ok?
                && multiset(ResolveLegs(later, other, |other|).value) != multiset(ResolveLegs(later, specs, |specs|).value)
                ==> Post(later, reference, laterHold, other) == (later, Err(DuplicateReference)))
  {
    PostInv(s, reference, holdId, specs);
    PostLeaves(s, reference, holdId, specs);
    var legs := ResolveLegs(s, specs, |specs|).value;
    var (t, r) := Post(s, reference, holdId, specs);
    var later := Run(t, ops);
    RunExtends(t, ops);
    PostExtends(s, reference, holdId, specs);
    ExtendsTransitive(s, t, later);
    ResolveStable(s, later, specs, |specs|);
    assert PostedAs(later, reference, r.value, legs);
    Answer(later, reference, r.value, legs, laterHold, specs);
    if ResolveLegs(later, other, |other|).Ok? {
      Answer(later, reference, r.value, legs, laterHold, other);
    }
  }

  /** At most one entry carries a reference. */
  lemma OneEntryPerReference(s: State, i: nat, j: nat)
    requires Reachable(s) && i < |s.journal| && j < |s.journal| && s.journal[i].reference == s.journal[j].reference
    ensures i == j
  {
    ReachableInv(s);
    assert EntryIndexed(s, i) && EntryIndexed(s, j);
  }
}

/** What every ledger transaction keeps, and so what holds after every sequence of them. */
module LedgerLaws {
  import opened Int64
  import Sums
  import opened LedgerDomain
  import opened Ledger

  // ---------------------------------------------------------------- readings of the journal

  /** All legs of the journal in commit order. */
  function Legs(journal: seq<Entry>): seq<Posting> {
    if journal == [] then [] else Legs(journal[..|journal| - 1]) + journal[|journal| - 1].legs
  }

  /** Number of entries with a leg on the account. */
  function TouchCount(journal: seq<Entry>, a: Uuid): nat {
    if journal == [] then 0
    else TouchCount(journal[..|journal| - 1], a) + if Touches(journal[|journal| - 1].legs, a) then 1 else 0
  }

  /** The account's balance at the moment its version was v. */
  function BalanceAt(journal: seq<Entry>, a: Uuid, v: nat): int {
    if journal == [] || TouchCount(journal, a) <= v then AccountSum(Legs(journal), a)
    else BalanceAt(journal[..|journal| - 1], a, v)
  }

  lemma Appended(journal: seq<Entry>, e: Entry)
    ensures (journal + [e])[..|journal + [e]| - 1] == journal
    ensures Legs(journal + [e]) == Legs(journal) + e.legs
    ensures forall a :: TouchCount(journal + [e], a) == TouchCount(journal, a) + if Touches(e.legs, a) then 1 else 0
    ensures forall a :: AccountSum(Legs(journal + [e]), a) == AccountSum(Legs(journal), a) + AccountSum(e.legs, a)
  {
    assert (journal + [e])[..|journal + [e]| - 1] == journal;
    forall a ensures AccountSum(Legs(journal + [e]), a) == AccountSum(Legs(journal), a) + AccountSum(e.legs, a) {
      AccountSumAppend(Legs(journal), e.legs, a);
    }
  }

  /** The past of an account does not change when the journal grows. */
  lemma HistoryStable(journal: seq<Entry>, e: Entry, a: Uuid, v: nat)
    requires v <= TouchCount(journal, a)
    ensures BalanceAt(journal + [e], a, v) == BalanceAt(journal, a, v)
  {
    Appended(journal, e);
    if !Touches(e.legs, a) {
      UntouchedSum(e.legs, a);
    }
  }

  // ---------------------------------------------------------------- the invariant

  /** Identities are unique, and an account is either a customer's or internal. */
  ghost predicate AccountsOk(s: State) {
    && (forall a :: a in s.accounts ==> s.accounts[a].id == a && ValidCurrency(s.accounts[a].currency))
    && (forall a {:trigger Indexed(s, a)} :: a in s.accounts ==> Indexed(s, a))
    && (forall x :: x in s.byExternal ==> s.byExternal[x] in s.accounts && x != "" && s.accounts[s.byExternal[x]].externalId == x
                                          && s.accounts[s.byExternal[x]].kind == Customer)
    && (forall x :: x in s.byCode ==> s.byCode[x] in s.accounts && x != "" && s.accounts[s.byCode[x]].internalCode == x
                                      && s.accounts[s.byCode[x]].kind == Internal)
  }

  ghost predicate Indexed(s: State, a: Uuid)
    requires a in s.accounts
  {
    s.accounts[a].externalId != "" ==> s.accounts[a].externalId in s.byExternal && s.byExternal[s.accounts[a].externalId] == a
  }

  /** One hold per reference; a captured hold has its entry in the journal. */
  ghost predicate HoldsOk(s: State) {
    && (forall h :: h in s.holds ==> 0 < s.holds[h].amount)
    && (forall h {:trigger HoldIndexed(s, h)} :: h in s.holds ==> HoldIndexed(s, h))
    && (forall r :: r in s.holdRefs ==> s.holdRefs[r] in s.holds && s.holds[s.holdRefs[r]].reference == r)
    && (forall h :: h in s.holds && s.holds[h].status == HoldCaptured ==> s.holds[h].reference in s.entryRefs)
  }

  ghost predicate HoldIndexed(s: State, h: Uuid)
    requires h in s.holds
  {
    s.holds[h].reference in s.holdRefs && s.holdRefs[s.holds[h].reference] == h
  }

  ghost predicate EntryIndexed(s: State, i: nat)
    requires i < |s.journal|
  {
    s.journal[i].reference in s.entryRefs && s.entryRefs[s.journal[i].reference] == i
  }

  ghost predicate EntryOk(e: Entry, accounts: map<Uuid, Account>) {
    && 2 <= |e.legs|
    && (forall i :: 0 <= i < |e.legs| ==> && e.legs[i].account in accounts && e.legs[i].amount != 0
                                          && e.legs[i].currency == accounts[e.legs[i].account].currency)
    && (forall c :: CurrencySum(e.legs, c) == 0)
  }

  /** One entry per reference, each zero-sum per currency on accounts of its legs' currencies. */
  ghost predicate JournalOk(s: State) {
    && (forall i {:trigger EntryIndexed(s, i)} :: 0 <= i < |s.journal| ==> EntryIndexed(s, i))
    && (forall r :: r in s.entryRefs ==> s.entryRefs[r] < |s.journal| && s.journal[s.entryRefs[r]].reference == r)
    && (forall i :: 0 <= i < |s.journal| ==> EntryOk(s.journal[i], s.accounts))
  }

  /** Materialized balances and versions are what the journal says. */
  ghost predicate BalancesOk(s: State) {
    forall a :: a in s.balances ==> && s.balances[a].balance == AccountSum(Legs(s.journal), a)
                                    && s.balances[a].version == TouchCount(s.journal, a)
  }

  /** How much of the account's held total a hold accounts for: its amount while active, and still
      its amount if it was captured by an entry with no leg on its account, because then no balance
      row of that account is rewritten. */
  ghost function HoldWeight(s: State, h: Hold): int {
    if h.status == HoldActive then h.amount
    else if h.status == HoldCaptured && h.reference in s.entryRefs && s.entryRefs[h.reference] < |s.journal|
            && !Touches(s.journal[s.entryRefs[h.reference]].legs, h.account) then h.amount
    else 0
  }

  ghost function HoldWeights(s: State, a: Uuid): map<Uuid, int> {
    map h | h in s.holds && s.holds[h].account == a :: HoldWeight(s, s.holds[h])
  }

  /** held is exactly the reservations outstanding, and a customer never owes. */
  ghost predicate HeldOk(s: State) {
    && (forall a :: a in s.balances ==> s.balances[a].held == Sums.Total(HoldWeights(s, a)))
    && (forall a :: a in s.accounts && a in s.balances && s.accounts[a].kind == Customer ==> Sound(s.balances[a]))
  }

  /** The events announce each version of each account once or more, always with its true balance. */
  ghost predicate OutboxOk(s: State) {
    && (forall i :: 0 <= i < |s.outbox| ==> EventOk(s, s.outbox[i]))
    && (forall a, v :: a in s.balances && 1 <= v <= s.balances[a].version ==> Announced(s, a, v))
  }

  ghost predicate EventOk(s: State, e: TransactionPosted) {
    && e.account in s.accounts && e.account in s.balances
    && e.externalId == s.accounts[e.account].externalId
    && 1 <= e.version <= s.balances[e.account].version
    && e.balanceAfter == BalanceAt(s.journal, e.account, e.version)
  }

  ghost predicate Announced(s: State, a: Uuid, v: nat) {
    exists i :: 0 <= i < |s.outbox| && s.outbox[i].account == a && s.outbox[i].version == v
  }

  ghost predicate Inv(s: State) {
    WellFormed(s) && AccountsOk(s) && HoldsOk(s) && JournalOk(s) && BalancesOk(s) && HeldOk(s) && OutboxOk(s)
  }

  // ---------------------------------------------------------------- frames

  /** Nothing the journal speaks of changes. */
  ghost predicate SameJournal(s: State, t: State) {
    t.journal == s.journal && t.entryRefs == s.entryRefs
  }

  /** Accounts may be added, and their status may change; nothing else about them does. */
  ghost predicate AccountsGrow(s: State, t: State) {
    forall a :: a in s.accounts ==> && a in t.accounts
                                    && t.accounts[a].externalId == s.accounts[a].externalId
                                    && t.accounts[a].currency == s.accounts[a].currency
                                    && t.accounts[a].kind == s.accounts[a].kind
  }

  /** Balance rows keep their balance and version. */
  ghost predicate SameMoney(s: State, t: State) {
    && t.balances.Keys == s.balances.Keys
    && forall a :: a in s.balances ==> && t.balances[a].balance == s.balances[a].balance
                                       && t.balances[a].version == s.balances[a].version
  }

  lemma JournalFrame(s: State, t: State)
    requires JournalOk(s) && SameJournal(s, t) && AccountsGrow(s, t)
    ensures JournalOk(t)
  {
    forall i | 0 <= i < |t.journal| ensures EntryOk(t.journal[i], t.accounts) && EntryIndexed(t, i) {
      assert EntryOk(s.journal[i], s.accounts) && EntryIndexed(s, i);
    }
  }

  lemma AccountsFrame(s: State, t: State)
    requires AccountsOk(s) && t.accounts == s.accounts && t.byExternal == s.byExternal && t.byCode == s.byCode
    ensures AccountsOk(t) && AccountsGrow(s, t)
  {
    forall a | a in t.accounts ensures Indexed(t, a) {
      assert Indexed(s, a);
    }
  }

  lemma BalancesFrame(s: State, t: State)
    requires BalancesOk(s) && SameJournal(s, t) && SameMoney(s, t)
    ensures BalancesOk(t)
  {
  }

  lemma OutboxFrame(s: State, t: State)
    requires OutboxOk(s) && SameJournal(s, t) && AccountsGrow(s, t) && SameMoney(s, t) && t.outbox == s.outbox
    ensures OutboxOk(t)
  {
    assert forall i :: 0 <= i < |s.outbox| ==> EventOk(s, s.outbox[i]);
    forall a, v | a in t.balances && 1 <= v <= t.balances[a].version ensures Announced(t, a, v) {
      assert Announced(s, a, v);
    }
  }

  lemma WeightsFrame(s: State, t: State, a: Uuid)
    requires SameJournal(s, t) && t.holds == s.holds
    ensures HoldWeights(t, a) == HoldWeights(s, a)
  {
  }

  lemma HeldNonNegative(s: State, a: Uuid)
    requires HoldsOk(s) && HeldOk(s) && a in s.balances
    ensures 0 <= s.balances[a].held
  {
    Sums.TotalNonNegative(HoldWeights(s, a));
  }

  /** The share of an active hold in held: removing it can never underflow. */
  lemma WeightWithinHeld(s: State, holdId: Uuid)
    requires WellFormed(s) && HoldsOk(s) && HeldOk(s) && holdId in s.holds && s.holds[holdId].status == HoldActive
    ensures s.holds[holdId].amount <= s.balances[s.holds[holdId].account].held
  {
    var a := s.holds[holdId].account;
    Sums.TotalAtLeast(HoldWeights(s, a), holdId);
  }

  // ---------------------------------------------------------------- the seeded state

  lemma SeedHeld(s: State)
    requires s.holds == map[]
    requires forall a :: a in s.balances ==> s.balances[a] == Balance(0, 0, 0)
    ensures HeldOk(s)
  {
    forall a | a in s.balances ensures s.balances[a].held == Sums.Total(HoldWeights(s, a)) {
      assert HoldWeights(s, a) == map[];
      Sums.TotalEmpty();
    }
  }

  lemma SeedAccount(a: Uuid)
    requires a in Seed().accounts
    ensures var s := Seed();
            && s.accounts[a].id == a && ValidCurrency(s.accounts[a].currency) && Indexed(s, a)
            && s.accounts[a].kind == Internal && s.accounts[a].internalCode != ""
  {
  }

  lemma SeedCode(x: string)
    requires x in Seed().byCode
    ensures Seed().byCode[x] in Seed().accounts && Seed().accounts[Seed().byCode[x]].internalCode == x
  {
  }

  lemma SeedAccounts()
    ensures AccountsOk(Seed())
  {
    var s := Seed();
    forall a | a in s.accounts ensures s.accounts[a].id == a && ValidCurrency(s.accounts[a].currency) && Indexed(s, a) {
      SeedAccount(a);
    }
    forall x | x in s.byCode
      ensures s.byCode[x] in s.accounts && x != "" && s.accounts[s.byCode[x]].internalCode == x
              && s.accounts[s.byCode[x]].kind == Internal
    {
      SeedCode(x);
      SeedAccount(s.byCode[x]);
    }
  }

  /** With no row but accounts and zero balances there is nothing to go wrong. */
  lemma EmptyTables(s: State)
    requires s.holds == map[] && s.holdRefs == map[] && s.journal == [] && s.entryRefs == map[] && s.outbox == []
    requires forall a :: a in s.balances ==> s.balances[a] == Balance(0, 0, 0)
    ensures HoldsOk(s) && JournalOk(s) && BalancesOk(s) && OutboxOk(s)
  {
  }

  lemma SeedInv()
    ensures Inv(Seed())
  {
    var s := Seed();
    SeedHeld(s);
    SeedAccounts();
    EmptyTables(s);
  }

  // ---------------------------------------------------------------- opening an account

  ghost predicate Opened(s: State, t: State, id: Uuid, acct: Account) {
    && id !in s.accounts && acct.id == id && ValidCurrency(acct.currency) && acct.kind == Customer
    && acct.externalId != "" && acct.externalId !in s.byExternal
    && t == s.(accounts := s.accounts[id := acct], byExternal := s.byExternal[acct.externalId := id],
               balances := s.balances[id := Balance(0, 0, 0)])
  }

  lemma {:induction false} UnknownUntouched(s: State, a: Uuid, n: nat)
    requires n <= |s.journal| && a !in s.accounts
    requires forall i :: 0 <= i < n ==> EntryOk(s.journal[i], s.accounts)
    ensures AccountSum(Legs(s.journal[..n]), a) == 0 && TouchCount(s.journal[..n], a) == 0
  {
    if n > 0 {
      UnknownUntouched(s, a, n - 1);
      assert s.journal[..n] == s.journal[..n - 1] + [s.journal[n - 1]];
      Appended(s.journal[..n - 1], s.journal[n - 1]);
      assert EntryOk(s.journal[n - 1], s.accounts);
      assert !Touches(s.journal[n - 1].legs, a);
      UntouchedSum(s.journal[n - 1].legs, a);
    }
  }

  lemma OpenedBalances(s: State, t: State, id: Uuid, acct: Account)
    requires Opened(s, t, id, acct) && BalancesOk(s) && JournalOk(s)
    ensures BalancesOk(t)
  {
    UnknownUntouched(s, id, |s.journal|);
    assert s.journal[..|s.journal|] == s.journal;
  }

  lemma OpenedHeld(s: State, t: State, id: Uuid, acct: Account)
    requires Opened(s, t, id, acct) && WellFormed(s) && HeldOk(s)
    ensures HeldOk(t)
  {
    forall a | a in t.balances ensures t.balances[a].held == Sums.Total(HoldWeights(t, a)) {
      WeightsFrame(s, t, a);
      if a == id {
        assert HoldWeights(t, a) == map[];
        Sums.TotalEmpty();
      }
    }
  }

  lemma OpenedOutbox(s: State, t: State, id: Uuid, acct: Account)
    requires Opened(s, t, id, acct) && OutboxOk(s)
    ensures OutboxOk(t)
  {
    assert forall i :: 0 <= i < |s.outbox| ==> EventOk(s, s.outbox[i]);
    forall a, v | a in t.balances && 1 <= v <= t.balances[a].version ensures Announced(t, a, v) {
      assert Announced(s, a, v);
    }
  }

  lemma OpenedAccounts(s: State, t: State, id: Uuid, acct: Account)
    requires Opened(s, t, id, acct) && AccountsOk(s)
    ensures AccountsOk(t) && AccountsGrow(s, t)
  {
    forall a | a in t.accounts ensures Indexed(t, a) {
      if a in s.accounts {
        assert Indexed(s, a);
      }
    }
  }

  lemma OpenedHolds(s: State, t: State, id: Uuid, acct: Account)
    requires Opened(s, t, id, acct) && HoldsOk(s) && WellFormed(s)
    ensures HoldsOk(t) && WellFormed(t)
  {
    forall k | k in t.holds ensures HoldIndexed(t, k) {
      assert HoldIndexed(s, k);
    }
  }

  lemma CreateAccountInv(s: State, externalId: string, currency: string, newId: Uuid)
    requires Inv(s)
    ensures Inv(CreateAccount(s, externalId, currency, newId).0)
  {
    var t := CreateAccount(s, externalId, currency, newId).0;
    if t != s {
      var acct := t.accounts[newId];
      OpenedAccounts(s, t, newId, acct);
      OpenedHolds(s, t, newId, acct);
      OpenedBalances(s, t, newId, acct);
      OpenedHeld(s, t, newId, acct);
      OpenedOutbox(s, t, newId, acct);
      JournalFrame(s, t);
    }
  }

  // ---------------------------------------------------------------- placing and releasing a hold

  ghost predicate Placed(s: State, t: State, id: Uuid, h: Hold) {
    && id !in s.holds && h.account in s.balances && 0 < h.amount && h.status == HoldActive
    && h.reference !in s.holdRefs
    && t.holds == s.holds[id := h] && t.holdRefs == s.holdRefs[h.reference := id]
    && Fits(s.balances[h.account].held + h.amount)
    && t.balances == s.balances[h.account := s.balances[h.account].(held := s.balances[h.account].held + h.amount)]
    && t.accounts == s.accounts && t.byExternal == s.byExternal && t.byCode == s.byCode
    && SameJournal(s, t) && t.outbox == s.outbox
  }

  /** The hold is new, fits into held, and for a customer stays within the balance. */
  ghost predicate Granted(s: State, t: State, id: Uuid) {
    && id in t.holds && Placed(s, t, id, t.holds[id])
    && var a := t.holds[id].account;
    && a in s.accounts
    && (s.accounts[a].kind == Customer ==> t.balances[a].held <= t.balances[a].balance)
  }

  lemma PlaceHoldShape(s: State, ref: AccountRef, amount: int64, currency: string, reference: Reference,
                       expiresAt: int, newId: Uuid)
    requires WellFormed(s) && HoldsOk(s) && HeldOk(s)
    requires PlaceHold(s, ref, amount, currency, reference, expiresAt, newId).0 != s
    ensures Granted(s, PlaceHold(s, ref, amount, currency, reference, expiresAt, newId).0, newId)
  {
    PlaceHoldWrites(s, ref, amount, currency, reference, expiresAt, newId);
    var a := Resolve(s, ref).value;
    HeldNonNegative(s, a);
    PlaceHoldGrant(s.accounts[a], s.balances[a], amount, currency);
    WrittenGranted(s, newId, Hold(a, amount, currency, reference, HoldActive, expiresAt));
  }

  lemma WrittenGranted(s: State, id: Uuid, h: Hold)
    requires id !in s.holds && h.account in s.balances && h.account in s.accounts && 0 < h.amount && h.status == HoldActive
    requires h.reference !in s.holdRefs && Wrap(s.balances[h.account].held + h.amount) == s.balances[h.account].held + h.amount
    requires s.accounts[h.account].kind == Customer ==> s.balances[h.account].held + h.amount <= s.balances[h.account].balance
    ensures Granted(s, WriteHold(s, id, h), id)
  {
  }

  lemma PlacedWeight(s: State, t: State, id: Uuid, h: Hold, k: Uuid)
    requires Placed(s, t, id, h) && k in t.holds
    ensures HoldWeight(t, t.holds[k]) == if k == id then h.amount as int else HoldWeight(s, s.holds[k])
  {
  }

  lemma PlacedWeightMap(s: State, t: State, id: Uuid, h: Hold, a: Uuid)
    requires Placed(s, t, id, h)
    ensures HoldWeights(t, a) == if a == h.account then HoldWeights(s, a)[id := h.amount as int] else HoldWeights(s, a)
  {
    var after := HoldWeights(t, a);
    forall k | k in after ensures after[k] == if k == id then h.amount as int else HoldWeight(s, s.holds[k]) {
      PlacedWeight(s, t, id, h, k);
    }
  }

  lemma PlacedWeights(s: State, t: State, id: Uuid, h: Hold, a: Uuid)
    requires Placed(s, t, id, h)
    ensures Sums.Total(HoldWeights(t, a)) == Sums.Total(HoldWeights(s, a)) + if a == h.account then h.amount as int else 0
  {
    PlacedWeightMap(s, t, id, h, a);
    if a == h.account {
      Sums.TotalUpdate(HoldWeights(s, a), id, h.amount as int);
    }
  }

  lemma PlacedHeld(s: State, t: State, id: Uuid, h: Hold)
    requires Placed(s, t, id, h) && HeldOk(s) && WellFormed(s)
    requires s.accounts[h.account].kind == Customer ==> t.balances[h.account].held <= t.balances[h.account].balance
    ensures HeldOk(t)
  {
    forall a | a in t.balances ensures t.balances[a].held == Sums.Total(HoldWeights(t, a)) {
      PlacedWeights(s, t, id, h, a);
    }
  }

  lemma PlacedHolds(s: State, t: State, id: Uuid, h: Hold)
    requires Placed(s, t, id, h) && HoldsOk(s)
    ensures HoldsOk(t)
  {
    forall k | k in t.holds ensures HoldIndexed(t, k) {
      assert k in s.holds ==> HoldIndexed(s, k);
    }
  }

  lemma PlacedTables(s: State, t: State, id: Uuid, h: Hold)
    requires Placed(s, t, id, h) && WellFormed(s)
    ensures WellFormed(t) && SameMoney(s, t)
  {
  }

  lemma PlaceHoldInv(s: State, ref: AccountRef, amount: int64, currency: string, reference: Reference,
                     expiresAt: int, newId: Uuid)
    requires Inv(s)
    ensures Inv(PlaceHold(s, ref, amount, currency, reference, expiresAt, newId).0)
  {
    var t := PlaceHold(s, ref, amount, currency, reference, expiresAt, newId).0;
    if t != s {
      PlaceHoldShape(s, ref, amount, currency, reference, expiresAt, newId);
      var h := t.holds[newId];
      PlacedTables(s, t, newId, h);
      PlacedHolds(s, t, newId, h);
      AccountsFrame(s, t);
      BalancesFrame(s, t);
      PlacedHeld(s, t, newId, h);
      JournalFrame(s, t);
      OutboxFrame(s, t);
    }
  }

  ghost predicate Freed(s: State, t: State, id: Uuid) {
    && id in s.holds && s.holds[id].status == HoldActive
    && var h := s.holds[id];
    && h.account in s.balances && 0 < h.amount && 0 <= s.balances[h.account].held - h.amount
    && t == s.(holds := s.holds[id := h.(status := HoldReleased)],
               balances := s.balances[h.account := s.balances[h.account].(held := Wrap(s.balances[h.account].held - h.amount))])
  }

  lemma FreedWeights(s: State, t: State, id: Uuid, a: Uuid)
    requires Freed(s, t, id)
    ensures Sums.Total(HoldWeights(t, a)) ==
              Sums.Total(HoldWeights(s, a)) - if a == s.holds[id].account then s.holds[id].amount as int else 0
  {
    if a == s.holds[id].account {
      assert HoldWeights(t, a) == HoldWeights(s, a)[id := 0];
      Sums.TotalUpdate(HoldWeights(s, a), id, 0);
    } else {
      assert HoldWeights(t, a) == HoldWeights(s, a);
    }
  }

  lemma FreedHeld(s: State, t: State, id: Uuid)
    requires Freed(s, t, id) && HeldOk(s)
    ensures HeldOk(t)
  {
    forall a | a in t.balances ensures t.balances[a].held == Sums.Total(HoldWeights(t, a)) {
      FreedWeights(s, t, id, a);
    }
  }

  lemma FreedHolds(s: State, t: State, id: Uuid)
    requires Freed(s, t, id) && HoldsOk(s)
    ensures HoldsOk(t)
  {
    forall k | k in t.holds ensures HoldIndexed(t, k) {
      assert HoldIndexed(s, k);
    }
  }

  lemma FreedTables(s: State, t: State, id: Uuid)
    requires Freed(s, t, id) && WellFormed(s)
    ensures WellFormed(t) && SameMoney(s, t)
  {
  }

  /** Releasing never meets the held-underflow branch. */
  lemma ReleaseShape(s: State, holdId: Uuid)
    requires WellFormed(s) && HoldsOk(s) && HeldOk(s)
    ensures var (t, r) := Release(s, holdId);
            && r != Err(HeldUnderflow)
            && (t == s || Freed(s, t, holdId))
            && (r.Ok? <==> holdId in s.holds && s.holds[holdId].status != HoldCaptured)
            && (r.Ok? ==> holdId in t.holds && t.holds[holdId].status == HoldReleased)
            && (holdId !in s.holds ==> r == Err(NotFound))
  {
    if holdId in s.holds && s.holds[holdId].status == HoldActive {
      WeightWithinHeld(s, holdId);
    }
  }

  lemma ReleaseInv(s: State, holdId: Uuid)
    requires Inv(s)
    ensures Inv(Release(s, holdId).0)
  {
    ReleaseShape(s, holdId);
    var t := Release(s, holdId).0;
    if t != s {
      FreedTables(s, t, holdId);
      FreedHolds(s, t, holdId);
      AccountsFrame(s, t);
      BalancesFrame(s, t);
      FreedHeld(s, t, holdId);
      JournalFrame(s, t);
      OutboxFrame(s, t);
    }
  }

  // ---------------------------------------------------------------- committing an entry

  ghost predicate Committed(s: State, reference: Reference, holdId: Option<Uuid>, legs: seq<Posting>, p: Plan, t: State) {
    && reference !in s.entryRefs
    && PlanHold(s, reference, holdId, p) && PlanBalances(s, legs, p)
    && t.accounts == s.accounts && t.byExternal == s.byExternal && t.byCode == s.byCode && t.holdRefs == s.holdRefs
    && t.holds == (if holdId.Some? then s.holds[holdId.value := p.captured.value] else s.holds)
    && t.balances == s.balances + p.after
    && t.journal == s.journal + [Entry(reference, legs)]
    && t.entryRefs == s.entryRefs[reference := |s.journal|]
    && |t.outbox| == |s.outbox| + |p.ids|
    && (forall i :: 0 <= i < |s.outbox| ==> t.outbox[i] == s.outbox[i])
    && (forall k :: 0 <= k < |p.ids| ==> p.ids[k] in p.after && p.ids[k] in s.accounts
                                         && t.outbox[|s.outbox| + k] == AnnounceOne(s, p.ids[k], p.after[p.ids[k]]))
  }

  lemma CommitShape(s: State, reference: Reference, holdId: Option<Uuid>, legs: seq<Posting>, p: Plan)
    requires PlanHold(s, reference, holdId, p) && PlanBalances(s, legs, p) && reference !in s.entryRefs
    ensures Committed(s, reference, holdId, legs, p, Commit(s, reference, holdId, legs, p))
  {
    AllPlanned(s, legs, p);
    AnnouncedAfter(s, p.ids, p.after);
  }

  lemma AllPlanned(s: State, legs: seq<Posting>, p: Plan)
    requires PlanBalances(s, legs, p)
    ensures forall k :: 0 <= k < |p.ids| ==> p.ids[k] in p.after && p.ids[k] in s.accounts
  {
    forall k | 0 <= k < |p.ids| ensures p.ids[k] in p.after && p.ids[k] in s.accounts {
      assert p.ids[k] in p.ids;
      assert PlanBalance(s, legs, p, p.ids[k]);
    }
  }

  lemma AnnouncedAfter(s: State, ids: seq<Uuid>, after: map<Uuid, Balance>)
    requires forall k :: 0 <= k < |ids| ==> ids[k] in s.accounts && ids[k] in after
    ensures var outbox := s.outbox + Announce(s, ids, after);
            && |outbox| == |s.outbox| + |ids|
            && (forall i :: 0 <= i < |s.outbox| ==> outbox[i] == s.outbox[i])
            && (forall k :: 0 <= k < |ids| ==> outbox[|s.outbox| + k] == AnnounceOne(s, ids[k], after[ids[k]]))
  {
  }

  lemma CommitBalanceOne(s: State, reference: Reference, holdId: Option<Uuid>, legs: seq<Posting>, p: Plan, t: State, a: Uuid)
    requires Committed(s, reference, holdId, legs, p, t) && a in t.balances
    ensures a in s.balances
    ensures t.balances[a].balance == s.balances[a].balance + AccountSum(legs, a)
    ensures t.balances[a].version == s.balances[a].version + if Touches(legs, a) then 1 else 0
  {
    if !Touches(legs, a) {
      UntouchedSum(legs, a);
    }
  }

  lemma CommitBalances(s: State, reference: Reference, holdId: Option<Uuid>, legs: seq<Posting>, p: Plan, t: State)
    requires Committed(s, reference, holdId, legs, p, t) && BalancesOk(s)
    ensures BalancesOk(t)
  {
    Appended(s.journal, Entry(reference, legs));
    forall a | a in t.balances
      ensures t.balances[a].balance == AccountSum(Legs(t.journal), a)
      ensures t.balances[a].version == TouchCount(t.journal, a)
    {
      CommitBalanceOne(s, reference, holdId, legs, p, t, a);
    }
  }

  lemma AcceptableEntry(reference: Reference, legs: seq<Posting>, accounts: map<Uuid, Account>)
    requires Acceptable(legs, accounts)
    ensures EntryOk(Entry(reference, legs), accounts)
  {
    forall i | 0 <= i < |legs|
      ensures legs[i].account in accounts && legs[i].amount != 0
      ensures legs[i].currency == accounts[legs[i].account].currency
    {
      assert SoundLeg(legs[i], accounts);
    }
  }

  lemma CommitJournal(s: State, reference: Reference, holdId: Option<Uuid>, legs: seq<Posting>, p: Plan, t: State)
    requires Committed(s, reference, holdId, legs, p, t) && JournalOk(s) && Acceptable(legs, s.accounts)
    ensures JournalOk(t)
  {
    AcceptableEntry(reference, legs, s.accounts);
    forall i | 0 <= i < |t.journal| ensures EntryIndexed(t, i) && EntryOk(t.journal[i], t.accounts) {
      if i < |s.journal| {
        assert EntryIndexed(s, i) && EntryOk(s.journal[i], s.accounts);
      }
    }
  }

  lemma CommitHolds(s: State, reference: Reference, holdId: Option<Uuid>, legs: seq<Posting>, p: Plan, t: State)
    requires Committed(s, reference, holdId, legs, p, t) && HoldsOk(s)
    ensures HoldsOk(t)
  {
    forall k | k in t.holds ensures HoldIndexed(t, k) {
      assert HoldIndexed(s, k);
    }
  }

  lemma CommitTables(s: State, reference: Reference, holdId: Option<Uuid>, legs: seq<Posting>, p: Plan, t: State)
    requires Committed(s, reference, holdId, legs, p, t) && WellFormed(s)
    ensures WellFormed(t)
  {
  }

  /** A hold other than the captured one weighs what it did: its reference is not the one posted. */
  lemma CommitWeight(s: State, reference: Reference, holdId: Option<Uuid>, legs: seq<Posting>, p: Plan, t: State, h: Uuid)
    requires Committed(s, reference, holdId, legs, p, t) && WellFormed(s) && HoldsOk(s) && h in s.holds && holdId != Some(h)
    ensures h in t.holds && t.holds[h] == s.holds[h]
    ensures HoldWeight(t, s.holds[h]) == HoldWeight(s, s.holds[h])
  {
    var r := s.holds[h].reference;
    if r in s.entryRefs {
      assert t.journal[t.entryRefs[r]] == s.journal[s.entryRefs[r]];
    }
  }

  lemma CapturedWeight(s: State, reference: Reference, holdId: Option<Uuid>, legs: seq<Posting>, p: Plan, t: State)
    requires Committed(s, reference, holdId, legs, p, t) && holdId.Some?
    ensures var h := s.holds[holdId.value];
            HoldWeight(t, t.holds[holdId.value]) == if Touches(legs, h.account) then 0 else h.amount as int
  {
    assert t.journal[t.entryRefs[reference]].legs == legs;
  }

  lemma CommitWeights(s: State, reference: Reference, holdId: Option<Uuid>, legs: seq<Posting>, p: Plan, t: State, a: Uuid)
    requires Committed(s, reference, holdId, legs, p, t) && WellFormed(s) && HoldsOk(s)
    ensures Sums.Total(HoldWeights(t, a)) ==
              Sums.Total(HoldWeights(s, a)) + if Touches(legs, a) then HeldAdjust(p.captured, a) else 0
  {
    forall h | h in s.holds && holdId != Some(h)
      ensures h in t.holds && t.holds[h] == s.holds[h] && HoldWeight(t, s.holds[h]) == HoldWeight(s, s.holds[h])
    {
      CommitWeight(s, reference, holdId, legs, p, t, h);
    }
    if holdId.Some? && s.holds[holdId.value].account == a {
      CapturedWeight(s, reference, holdId, legs, p, t);
      ReweighOne(s, t, a, holdId.value);
    } else {
      ReweighNone(s, t, a, holdId);
    }
  }

  lemma ReweighOne(s: State, t: State, a: Uuid, id: Uuid)
    requires t.holds.Keys == s.holds.Keys && id in s.holds
    requires s.holds[id].account == a && t.holds[id].account == a
    requires forall h :: h in s.holds && h != id ==> t.holds[h] == s.holds[h] && HoldWeight(t, s.holds[h]) == HoldWeight(s, s.holds[h])
    ensures Sums.Total(HoldWeights(t, a)) ==
              Sums.Total(HoldWeights(s, a)) + HoldWeight(t, t.holds[id]) - HoldWeight(s, s.holds[id])
  {
    var left := HoldWeight(t, t.holds[id]);
    assert HoldWeights(t, a) == HoldWeights(s, a)[id := left];
    Sums.TotalUpdate(HoldWeights(s, a), id, left);
  }

  lemma ReweighNone(s: State, t: State, a: Uuid, id: Option<Uuid>)
    requires t.holds.Keys == s.holds.Keys
    requires id.Some? ==> id.value in s.holds && s.holds[id.value].account != a && t.holds[id.value].account != a
    requires forall h :: h in s.holds && id != Some(h) ==> t.holds[h] == s.holds[h] && HoldWeight(t, s.holds[h]) == HoldWeight(s, s.holds[h])
    ensures HoldWeights(t, a) == HoldWeights(s, a)
  {
  }

  /** The reservation of the captured hold is inside held, so the underflow branch is not met. */
  lemma AdjustWithin(s: State, reference: Reference, holdId: Option<Uuid>, p: Plan, a: Uuid)
    requires PlanHold(s, reference, holdId, p) && WellFormed(s) && HoldsOk(s) && HeldOk(s) && a in s.balances
    ensures 0 <= s.balances[a].held + HeldAdjust(p.captured, a) <= s.balances[a].held
  {
    HeldNonNegative(s, a);
    if holdId.Some? && s.holds[holdId.value].account == a {
      WeightWithinHeld(s, holdId.value);
    }
  }

  lemma CommitHeldOne(s: State, reference: Reference, holdId: Option<Uuid>, legs: seq<Posting>, p: Plan, t: State, a: Uuid)
    requires Committed(s, reference, holdId, legs, p, t) && a in s.balances && a in s.accounts
    requires 0 <= s.balances[a].held + HeldAdjust(p.captured, a) <= s.balances[a].held
    requires s.accounts[a].kind == Customer ==> Sound(s.balances[a])
    ensures t.balances[a].held == s.balances[a].held + if Touches(legs, a) then HeldAdjust(p.captured, a) else 0
    ensures s.accounts[a].kind == Customer ==> Sound(t.balances[a])
  {
    if Touches(legs, a) {
      assert a in p.after;
      ApplyOneExact(s.balances[a], s.accounts[a].kind, p.captured, a, AccountSum(legs, a));
    }
  }

  lemma CommitHeldAt(s: State, reference: Reference, holdId: Option<Uuid>, legs: seq<Posting>, p: Plan, t: State, a: Uuid)
    requires Committed(s, reference, holdId, legs, p, t) && WellFormed(s) && HoldsOk(s) && HeldOk(s) && a in s.balances
    ensures t.balances[a].held == Sums.Total(HoldWeights(t, a))
    ensures s.accounts[a].kind == Customer ==> Sound(t.balances[a])
  {
    AdjustWithin(s, reference, holdId, p, a);
    CommitHeldOne(s, reference, holdId, legs, p, t, a);
    CommitWeights(s, reference, holdId, legs, p, t, a);
  }

  lemma CommitHeld(s: State, reference: Reference, holdId: Option<Uuid>, legs: seq<Posting>, p: Plan, t: State)
    requires Committed(s, reference, holdId, legs, p, t) && WellFormed(s) && HoldsOk(s) && HeldOk(s)
    ensures HeldOk(t)
  {
    forall a | a in t.balances
      ensures t.balances[a].held == Sums.Total(HoldWeights(t, a))
      ensures a in s.accounts && (s.accounts[a].kind == Customer ==> Sound(t.balances[a]))
    {
      assert a in s.balances;
      CommitHeldAt(s, reference, holdId, legs, p, t, a);
    }
  }

  lemma CommitEvents(s: State, reference: Reference, holdId: Option<Uuid>, legs: seq<Posting>, p: Plan, t: State, i: nat)
    requires Committed(s, reference, holdId, legs, p, t) && OutboxOk(s) && BalancesOk(s) && BalancesOk(t)
    requires i < |t.outbox|
    ensures EventOk(t, t.outbox[i])
  {
    var e := Entry(reference, legs);
    Appended(s.journal, e);
    if i < |s.outbox| {
      assert EventOk(s, s.outbox[i]);
      HistoryStable(s.journal, e, s.outbox[i].account, s.outbox[i].version);
    } else {
      var a := p.ids[i - |s.outbox|];
      assert t.outbox[|s.outbox| + (i - |s.outbox|)] == AnnounceOne(s, a, p.after[a]);
      assert t.balances[a] == p.after[a];
    }
  }

  lemma AnnouncedStays(s: State, t: State, a: Uuid, v: nat)
    requires OutboxOk(s) && a in s.balances && 1 <= v <= s.balances[a].version
    requires |s.outbox| <= |t.outbox| && forall i :: 0 <= i < |s.outbox| ==> t.outbox[i] == s.outbox[i]
    ensures Announced(t, a, v)
  {
    assert Announced(s, a, v);
    var i :| 0 <= i < |s.outbox| && s.outbox[i].account == a && s.outbox[i].version == v;
    assert t.outbox[i] == s.outbox[i];
  }

  lemma CommitAnnounced(s: State, reference: Reference, holdId: Option<Uuid>, legs: seq<Posting>, p: Plan, t: State,
                        a: Uuid, v: nat)
    requires Committed(s, reference, holdId, legs, p, t) && OutboxOk(s)
    requires a in t.balances && a in s.balances && 1 <= v <= t.balances[a].version
    ensures Announced(t, a, v)
  {
    if v <= s.balances[a].version {
      AnnouncedStays(s, t, a, v);
    } else {
      assert a in p.ids;
      var k :| 0 <= k < |p.ids| && p.ids[k] == a;
      assert t.outbox[|s.outbox| + k] == AnnounceOne(s, a, p.after[a]);
    }
  }

  lemma CommitOutbox(s: State, reference: Reference, holdId: Option<Uuid>, legs: seq<Posting>, p: Plan, t: State)
    requires Committed(s, reference, holdId, legs, p, t) && WellFormed(s) && OutboxOk(s) && BalancesOk(s) && BalancesOk(t)
    ensures OutboxOk(t)
  {
    forall i | 0 <= i < |t.outbox| ensures EventOk(t, t.outbox[i]) {
      CommitEvents(s, reference, holdId, legs, p, t, i);
    }
    forall a, v | a in t.balances && 1 <= v <= t.balances[a].version ensures Announced(t, a, v) {
      assert a in s.balances;
      CommitAnnounced(s, reference, holdId, legs, p, t, a, v);
    }
  }

  lemma PostShape(s: State, reference: Reference, holdId: Option<Uuid>, specs: seq<PostingSpec>)
    requires WellFormed(s)
    ensures var (t, r) := Post(s, reference, holdId, specs);
            && (r.Err? ==> t == s)
            && (t != s ==> && ResolveLegs(s, specs, |specs|).Ok?
                           && var legs := ResolveLegs(s, specs, |specs|).value;
                           && LegsKnown(s, legs)
                           && PlanPost(s, reference, holdId, legs).Ok?
                           && Acceptable(legs, s.accounts)
                           && Committed(s, reference, holdId, legs, PlanPost(s, reference, holdId, legs).value, t)
                           && r == Ok(|s.journal|))
  {
    var t := Post(s, reference, holdId, specs).0;
    if t != s {
      ResolveLegsKnown(s, specs, |specs|);
      var legs := ResolveLegs(s, specs, |specs|).value;
      PlanFacts(s, reference, holdId, legs);
      CommitShape(s, reference, holdId, legs, PlanPost(s, reference, holdId, legs).value);
    }
  }

  lemma PostInv(s: State, reference: Reference, holdId: Option<Uuid>, specs: seq<PostingSpec>)
    requires Inv(s)
    ensures Inv(Post(s, reference, holdId, specs).0)
  {
    PostShape(s, reference, holdId, specs);
    var t := Post(s, reference, holdId, specs).0;
    if t != s {
      var legs := ResolveLegs(s, specs, |specs|).value;
      var p := PlanPost(s, reference, holdId, legs).value;
      CommitBalances(s, reference, holdId, legs, p, t);
      CommitJournal(s, reference, holdId, legs, p, t);
      CommitTables(s, reference, holdId, legs, p, t);
      CommitHolds(s, reference, holdId, legs, p, t);
      AccountsFrame(s, t);
      CommitHeld(s, reference, holdId, legs, p, t);
      CommitOutbox(s, reference, holdId, legs, p, t);
    }
  }

  // ---------------------------------------------------------------- every sequence of operations

  ghost predicate Restated(s: State, t: State, a: Uuid, status: AccountStatus) {
    a in s.accounts && t == s.(accounts := s.accounts[a := s.accounts[a].(status := status)])
  }

  lemma StatusHeld(s: State, t: State, a: Uuid, status: AccountStatus)
    requires Restated(s, t, a, status) && HeldOk(s)
    ensures HeldOk(t)
  {
    forall b | b in t.balances ensures t.balances[b].held == Sums.Total(HoldWeights(t, b)) {
      WeightsFrame(s, t, b);
    }
  }

  lemma StatusAccounts(s: State, t: State, a: Uuid, status: AccountStatus)
    requires Restated(s, t, a, status) && AccountsOk(s)
    ensures AccountsOk(t) && AccountsGrow(s, t)
  {
    forall a | a in t.accounts ensures Indexed(t, a) {
      assert Indexed(s, a);
    }
  }

  lemma StatusHolds(s: State, t: State, a: Uuid, status: AccountStatus)
    requires Restated(s, t, a, status) && HoldsOk(s) && WellFormed(s)
    ensures HoldsOk(t) && WellFormed(t)
  {
    forall k | k in t.holds ensures HoldIndexed(t, k) {
      assert HoldIndexed(s, k);
    }
  }

  lemma StepInv(s: State, op: Op)
    requires Inv(s)
    ensures Inv(Step(s, op))
  {
    match op
    case OpCreateAccount(x, c, f) => CreateAccountInv(s, x, c, f);
    case OpPlaceHold(ref, amount, c, r, e, f) => PlaceHoldInv(s, ref, amount, c, r, e, f);
    case OpRelease(h) => ReleaseInv(s, h);
    case OpPost(r, h, specs) => PostInv(s, r, h, specs);
    case OpSetStatus(a, st) =>
      var t := Step(s, op);
      if t != s {
        StatusAccounts(s, t, a, st);
        StatusHolds(s, t, a, st);
        BalancesFrame(s, t);
        StatusHeld(s, t, a, st);
        JournalFrame(s, t);
        OutboxFrame(s, t);
      }
  }
}

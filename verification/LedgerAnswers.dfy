/** What each ledger call answers and writes, spelled out on the tables: which request is refused for
    which reason, what a repeated one gets, and what an accepted one leaves behind. */
module LedgerAnswers {
  import opened Int64
  import Sums
  import opened LedgerDomain
  import opened Ledger
  import opened LedgerLaws
  import LedgerTheorems
  import opened LedgerExact

  // ---------------------------------------------------------------- accounts

  /** The first identity given decides, and each finds the account that carries it. */
  lemma ResolveExact(s: State, ref: AccountRef, a: Uuid)
    requires WellFormed(s) && AccountsOk(s)
    ensures ref.externalId != "" ==>
              (Resolve(s, ref) == Ok(a) <==> a in s.accounts && s.accounts[a].externalId == ref.externalId)
    ensures ref.externalId == "" && ref.internalCode != "" ==>
              (Resolve(s, ref) == Ok(a) <==> ref.internalCode in s.byCode && s.byCode[ref.internalCode] == a)
    ensures ref.externalId == "" && ref.internalCode != "" && Resolve(s, ref) == Ok(a) ==>
              a in s.accounts && s.accounts[a].kind == Internal && s.accounts[a].internalCode == ref.internalCode
    ensures ref.externalId == "" && ref.internalCode == "" ==>
              (Resolve(s, ref) == Ok(a) <==> ref.ledgerId == Some(a) && a in s.accounts)
    ensures Resolve(s, ref).Err? ==> Resolve(s, ref) == Err(AccountNotFound)
  {
    if a in s.accounts {
      assert Indexed(s, a);
    }
  }

  /** Creating an account under a known external id gives that account back, if the currency agrees;
      under a new one it opens an active customer account with nothing on it. */
  lemma CreateExact(s: State, x: string, c: string, newId: Uuid)
    requires WellFormed(s) && AccountsOk(s)
    ensures var (t, r) := CreateAccount(s, x, c, newId);
            && (x == "" ==> r == Err(InvalidArgument))
            && (x != "" && c !in {"KZT", "USD"} ==> r == Err(CurrencyMismatch))
            && (x != "" && c in {"KZT", "USD"} ==>
                  && (forall a :: a in s.accounts && s.accounts[a].externalId == x ==>
                        t == s && r == if s.accounts[a].currency == c then Ok(a) else Err(AlreadyExists))
                  && ((forall a :: a in s.accounts ==> s.accounts[a].externalId != x) && newId !in s.accounts ==>
                        && r == Ok(newId) && Opens(s, t, x, c, newId)))
            && (r.Err? ==> t == s)
  {
    forall a | a in s.accounts && s.accounts[a].externalId == x ensures x != "" ==> x in s.byExternal && s.byExternal[x] == a {
      assert Indexed(s, a);
    }
  }

  ghost predicate Opens(s: State, t: State, x: string, c: string, a: Uuid) {
    && t.accounts == s.accounts[a := Account(a, x, "", Customer, c, Active)]
    && t.byExternal == s.byExternal[x := a] && t.byCode == s.byCode
    && t.balances == s.balances[a := Balance(0, 0, 0)]
    && t.holds == s.holds && t.holdRefs == s.holdRefs
    && t.journal == s.journal && t.entryRefs == s.entryRefs && t.outbox == s.outbox
  }

  /** The operator's update changes the status of one account and nothing else. */
  lemma StatusExact(s: State, a: Uuid, status: AccountStatus)
    ensures var t := SetStatus(s, a, status);
            && t == s.(accounts := t.accounts) && t.accounts.Keys == s.accounts.Keys
            && forall b :: b in s.accounts ==> t.accounts[b] == if b == a then s.accounts[b].(status := status) else s.accounts[b]
  {
  }

  // ---------------------------------------------------------------- holds

  /** A repeated request is answered with its hold, whatever became of it, and writes nothing; another
      account or amount under the reference is refused. */
  lemma PlaceHoldReplays(s: State, ref: AccountRef, amount: int64, c: string, reference: Reference, e: int, newId: Uuid)
    requires WellFormed(s) && reference in s.holdRefs && reference.kind != "" && reference.id != ""
    ensures var (t, r) := PlaceHold(s, ref, amount, c, reference, e, newId);
            var h := s.holdRefs[reference];
            && t == s
            && (r == Ok(h) <==> Resolve(s, ref) == Ok(s.holds[h].account) && s.holds[h].amount == amount)
            && (Resolve(s, ref).Ok? && r != Ok(h) ==> r == Err(DuplicateReference))
            && (Resolve(s, ref).Err? ==> r == Resolve(s, ref))
  {
  }

  /** Why a hold under a new reference is refused: the first of these that is wrong. */
  lemma HoldRefusals(s: State, ref: AccountRef, amount: int64, c: string, reference: Reference, e: int, newId: Uuid)
    requires WellFormed(s) && HoldsOk(s) && HeldOk(s) && reference !in s.holdRefs && newId !in s.holds
    requires Resolve(s, ref).Ok? && Resolve(s, ref).value in s.accounts
    ensures var r := PlaceHold(s, ref, amount, c, reference, e, newId).1;
            var a := Resolve(s, ref).value;
            var customer := s.accounts[a].kind == Customer;
            if reference.kind == "" || reference.id == "" then r == Err(InvalidArgument)
            else if s.accounts[a].currency != c then r == Err(CurrencyMismatch)
            else if customer && s.accounts[a].status in {Frozen, Closed} then r == Err(AccountFrozen)
            else if amount <= 0 then r == Err(InvalidHoldAmount)
            else if customer && s.balances[a].balance < s.balances[a].held + amount then r == Err(InsufficientFunds)
            else if !customer && 0x7FFF_FFFF_FFFF_FFFF < s.balances[a].held + amount then r == Err(HeldCheckViolated)
            else r == Ok(newId)
  {
    var a := Resolve(s, ref).value;
    HeldNonNegative(s, a);
    HoldDecides(s.accounts[a], s.balances[a], amount, c);
    Shortfall(s.accounts[a], s.balances[a], amount, c);
  }

  lemma Shortfall(acct: Account, b: Balance, amount: int64, c: string)
    requires 0 <= b.held && (acct.kind == Customer ==> Sound(b))
    ensures acct.currency == c && 0 < amount && (acct.kind == Customer ==> acct.status == Active) ==>
              (PlaceHoldError(acct, b, amount, c) ==
               if acct.kind == Customer then if b.balance < b.held + amount then Some(InsufficientFunds) else None
               else if 0x7FFF_FFFF_FFFF_FFFF < b.held + amount then Some(HeldCheckViolated) else None)
  {
    WrapOnce(b.held + amount);
    if acct.kind == Customer {
      HoldErrorExact(b, amount);
    }
  }

  // ---------------------------------------------------------------- posts

  /** A leg on an account that takes postings, in the account's currency. */
  ghost predicate OnOpen(leg: Posting, accounts: map<Uuid, Account>) {
    && leg.account in accounts && leg.amount != 0 && accounts[leg.account].currency == leg.currency
    && !(accounts[leg.account].kind == Customer && accounts[leg.account].status in {Frozen, Closed})
  }

  lemma SoundOpen(legs: seq<Posting>, accounts: map<Uuid, Account>, leg: Posting)
    requires LegsSound(legs, accounts, |legs|) && leg in legs
    ensures OnOpen(leg, accounts)
  {
    var i :| 0 <= i < |legs| && legs[i] == leg;
    assert SoundLeg(legs[i], accounts);
  }

  lemma CommittedLegs(s: State, reference: Reference, holdId: Option<Uuid>, specs: seq<PostingSpec>)
    requires WellFormed(s) && HoldsOk(s) && HeldOk(s) && reference !in s.entryRefs
    requires Post(s, reference, holdId, specs).1.Ok?
    ensures ResolveLegs(s, specs, |specs|).Ok?
    ensures var legs := ResolveLegs(s, specs, |specs|).value;
            && Post(s, reference, holdId, specs).0.journal == s.journal + [Entry(reference, legs)]
            && LegsSound(legs, s.accounts, |legs|)
  {
    PostExact(s, reference, holdId, specs);
    PostEffect(s, reference, holdId, specs);
  }

  /** A newly committed entry has only nonzero legs in their accounts' currency, and none on a customer
      account that is frozen or closed. */
  lemma OnlyOpenAccounts(s: State, reference: Reference, holdId: Option<Uuid>, specs: seq<PostingSpec>)
    requires WellFormed(s) && HoldsOk(s) && HeldOk(s) && reference !in s.entryRefs
    requires Post(s, reference, holdId, specs).1.Ok?
    ensures var t := Post(s, reference, holdId, specs).0;
            && |t.journal| == |s.journal| + 1
            && forall leg :: leg in t.journal[|s.journal|].legs ==> OnOpen(leg, s.accounts)
  {
    CommittedLegs(s, reference, holdId, specs);
    var legs := ResolveLegs(s, specs, |specs|).value;
    forall leg | leg in legs ensures OnOpen(leg, s.accounts) {
      SoundOpen(legs, s.accounts, leg);
    }
  }

  /** So over every transaction: whatever it appends is on accounts that were open. */
  lemma AppendedOpen(s: State, op: Op)
    requires Inv(s)
    ensures |s.journal| <= |Step(s, op).journal|
    ensures forall i, leg :: |s.journal| <= i < |Step(s, op).journal| && leg in Step(s, op).journal[i].legs ==>
              OnOpen(leg, s.accounts)
  {
    match op
    case OpCreateAccount(x, c, f) => CreateAccountWrites(s, x, c, f);
    case OpPlaceHold(ref, amount, c, r, e, f) => PlaceHoldWrites(s, ref, amount, c, r, e, f);
    case OpRelease(h) => ReleaseWrites(s, h);
    case OpPost(r, h, specs) => PostAppendsOpen(s, r, h, specs);
    case OpSetStatus(a, st) =>
  }

  lemma PostAppendsOpen(s: State, r: Reference, h: Option<Uuid>, specs: seq<PostingSpec>)
    requires WellFormed(s) && HoldsOk(s) && HeldOk(s)
    ensures var t := Post(s, r, h, specs).0;
            && |s.journal| <= |t.journal|
            && forall i, leg :: |s.journal| <= i < |t.journal| && leg in t.journal[i].legs ==>
                 OnOpen(leg, s.accounts)
  {
    if r in s.entryRefs || Post(s, r, h, specs).1.Err? {
      Unposted(s, r, h, specs);
    } else {
      OnlyOpenAccounts(s, r, h, specs);
    }
  }

  lemma Unposted(s: State, r: Reference, h: Option<Uuid>, specs: seq<PostingSpec>)
    requires WellFormed(s) && (r in s.entryRefs || Post(s, r, h, specs).1.Err?)
    ensures Post(s, r, h, specs).0 == s
  {
    PostShape(s, r, h, specs);
  }

  /** Why a post under a new reference is refused: the first of these that is wrong. */
  lemma PostRefusals(s: State, reference: Reference, holdId: Option<Uuid>, specs: seq<PostingSpec>)
    requires WellFormed(s) && HoldsOk(s) && HeldOk(s) && reference !in s.entryRefs
    ensures var r := Post(s, reference, holdId, specs).1;
            if reference.kind == "" || reference.id == "" then r == Err(InvalidArgument)
            else if ResolveLegs(s, specs, |specs|).Err? then r == Err(AccountNotFound)
            else
              var legs := ResolveLegs(s, specs, |specs|).value;
              if !Acceptable(legs, s.accounts) then EntryError(legs, s.accounts).Some? && r == Err(EntryError(legs, s.accounts).value)
              else if !NetsFit(legs, |legs|) then r == Err(Overflow)
              else if HoldRefusal(s, reference, holdId, legs).Some? then r == Err(HoldRefusal(s, reference, holdId, legs).value)
              else r.Err? ==> exists a: Uuid :: FirstUnable(s, holdId, legs, a) && r == Err(Unable(s, legs, a))
  {
    NotFoundOnly(s, specs, |specs|);
    if ResolveLegs(s, specs, |specs|).Ok? {
      var legs := ResolveLegs(s, specs, |specs|).value;
      ResolveLegsKnown(s, specs, |specs|);
      PlanRefusals(s, reference, holdId, legs);
      if reference.kind != "" && reference.id != "" {
        PlanAnswers(s, reference, holdId, specs, legs);
      }
    }
  }

  lemma PlanAnswers(s: State, reference: Reference, holdId: Option<Uuid>, specs: seq<PostingSpec>, legs: seq<Posting>)
    requires WellFormed(s) && reference.kind != "" && reference.id != "" && reference !in s.entryRefs
    requires ResolveLegs(s, specs, |specs|) == Ok(legs) && LegsKnown(s, legs)
    ensures PlanPost(s, reference, holdId, legs).Ok? ==> Post(s, reference, holdId, specs).1.Ok?
    ensures PlanPost(s, reference, holdId, legs).Err? ==>
              Post(s, reference, holdId, specs).1 == Err(PlanPost(s, reference, holdId, legs).error)
  {
  }

  lemma {:induction false} NotFoundOnly(s: State, specs: seq<PostingSpec>, n: nat)
    requires n <= |specs|
    ensures ResolveLegs(s, specs, n).Err? ==> ResolveLegs(s, specs, n) == Err(AccountNotFound)
    ensures ResolveLegs(s, specs, n).Ok? <==> forall i :: 0 <= i < n ==> Resolve(s, specs[i].ref).Ok?
  {
    if n > 0 {
      NotFoundOnly(s, specs, n - 1);
    }
  }

  /** What is wrong with the hold a post names, if anything: it must exist, under the same reference, be
      active, and cover the net debit on its account. */
  ghost function HoldRefusal(s: State, reference: Reference, holdId: Option<Uuid>, legs: seq<Posting>): Option<Error> {
    if holdId.None? then None
    else if holdId.value !in s.holds then Some(HoldNotActive)
    else
      var h := s.holds[holdId.value];
      if h.reference != reference then Some(HoldAccountMismatch)
      else if h.status in {HoldCaptured, HoldReleased} then Some(HoldNotActive)
      else if AccountSum(legs, h.account) < -(h.amount as int) && AccountSum(legs, h.account) != MIN then Some(HoldExceeded)
      else None
  }

  lemma PlanRefusals(s: State, reference: Reference, holdId: Option<Uuid>, legs: seq<Posting>)
    requires WellFormed(s) && HoldsOk(s) && HeldOk(s) && LegsKnown(s, legs)
    ensures var r := PlanPost(s, reference, holdId, legs);
            if !Acceptable(legs, s.accounts) then EntryError(legs, s.accounts).Some? && r == Err(EntryError(legs, s.accounts).value)
            else if !NetsFit(legs, |legs|) then r == Err(Overflow)
            else if HoldRefusal(s, reference, holdId, legs).Some? then r == Err(HoldRefusal(s, reference, holdId, legs).value)
            else r.Err? ==> exists a: Uuid :: FirstUnable(s, holdId, legs, a) && r == Err(Unable(s, legs, a))
  {
    EntryErrorExact(legs, s.accounts);
    DeltasDecide(legs, |legs|);
    LedgerTheorems.DeltasErrors(legs, |legs|);
    if Acceptable(legs, s.accounts) && NetsFit(legs, |legs|) {
      CaptureRefusals(s, reference, holdId, legs);
      if HoldRefusal(s, reference, holdId, legs).None? {
        BalanceRefusals(s, reference, holdId, legs);
      }
    }
  }

  lemma CaptureRefusals(s: State, reference: Reference, holdId: Option<Uuid>, legs: seq<Posting>)
    requires HoldsOk(s) && Deltas(legs, |legs|).Ok?
    ensures var r := Capture(s, reference, holdId, Deltas(legs, |legs|).value);
            && (HoldRefusal(s, reference, holdId, legs).Some? ==> r == Err(HoldRefusal(s, reference, holdId, legs).value))
            && (HoldRefusal(s, reference, holdId, legs).None? ==> r.Ok?)
  {
    DeltasExact(legs, |legs|);
    assert legs[..|legs|] == legs;
    CaptureDecides(s, reference, holdId, legs);
    if holdId.Some? && holdId.value in s.holds {
      var h := s.holds[holdId.value];
      assert AccountSum(legs, h.account) == GetOr(Deltas(legs, |legs|).value, h.account, 0);
    }
  }

  /** A post for which only the balances are left to ask: it is refused for the first account, in the
      order they are locked, that cannot bear its net change, for overflow or for want of funds. */
  lemma BalanceRefusals(s: State, reference: Reference, holdId: Option<Uuid>, legs: seq<Posting>)
    requires WellFormed(s) && HoldsOk(s) && HeldOk(s) && LegsKnown(s, legs)
    requires Acceptable(legs, s.accounts) && NetsFit(legs, |legs|) && HoldRefusal(s, reference, holdId, legs).None?
    ensures var r := PlanPost(s, reference, holdId, legs);
            r.Err? ==> exists a: Uuid :: FirstUnable(s, holdId, legs, a) && r == Err(Unable(s, legs, a))
  {
    EntryErrorExact(legs, s.accounts);
    DeltasDecide(legs, |legs|);
    CaptureRefusals(s, reference, holdId, legs);
    CaptureDecides(s, reference, holdId, legs);
    var delta := Deltas(legs, |legs|).value;
    var captured := Capture(s, reference, holdId, delta).value;
    IdsKnown(s, legs);
    AffectedUnable(s, reference, holdId, legs, captured);
  }

  /** No account with a lesser id is unable. */
  ghost predicate FirstUnable(s: State, holdId: Option<Uuid>, legs: seq<Posting>, a: Uuid) {
    && Touches(legs, a) && a in s.balances && !Bears(s, holdId, legs, a)
    && forall b: Uuid :: Touches(legs, b) && b < a ==> Bears(s, holdId, legs, b)
  }

  ghost function Unable(s: State, legs: seq<Posting>, a: Uuid): Error
    requires a in s.balances
  {
    if Fits(s.balances[a].balance + AccountSum(legs, a)) then InsufficientFunds else Overflow
  }

  lemma AffectedUnable(s: State, reference: Reference, holdId: Option<Uuid>, legs: seq<Posting>, captured: Option<Hold>)
    requires WellFormed(s) && HoldsOk(s) && HeldOk(s) && LegsKnown(s, legs) && Deltas(legs, |legs|).Ok?
    requires PlanHold(s, reference, holdId, Plan(map[], captured, [], map[]))
    requires forall a :: HeldAdjust(captured, a) == -Freeing(s, holdId, a)
    ensures var delta := Deltas(legs, |legs|).value;
            var ids := Sums.Sorted(delta.Keys);
            && (forall i :: 0 <= i < |ids| ==> ids[i] in delta && ids[i] in s.accounts)
            && var r := ApplyAll(s, captured, delta, ids, |ids|);
               r.Err? ==> exists a: Uuid :: FirstUnable(s, holdId, legs, a) && r == Err(Unable(s, legs, a))
  {
    var delta := Deltas(legs, |legs|).value;
    var ids := Sums.Sorted(delta.Keys);
    IdsKnown(s, legs);
    if ApplyAll(s, captured, delta, ids, |ids|).Err? {
      AffectedBear(s, reference, holdId, legs, captured);
      var k := FirstRefused(s, captured, delta, ids, |ids|);
      assert ids[k] in ids;
      OneUnable(s, reference, holdId, legs, captured, ids[k]);
      EarlierBear(s, holdId, legs, captured, delta, ids, k);
    }
  }

  lemma EarlierBear(s: State, holdId: Option<Uuid>, legs: seq<Posting>, captured: Option<Hold>, delta: map<Uuid, int64>,
                    ids: seq<Uuid>, k: nat)
    requires WellFormed(s) && Sums.Ascending(ids) && k < |ids| && forall a :: a in ids <==> Touches(legs, a)
    requires forall i :: 0 <= i < |ids| ==> ids[i] in delta && ids[i] in s.accounts
    requires forall a :: a in delta && a in s.accounts ==>
               (ApplyOne(s.balances[a], s.accounts[a].kind, captured, a, delta[a]).Ok? <==> Bears(s, holdId, legs, a))
    requires forall i :: 0 <= i < k ==>
               ApplyOne(s.balances[ids[i]], s.accounts[ids[i]].kind, captured, ids[i], delta[ids[i]]).Ok?
    requires ApplyOne(s.balances[ids[k]], s.accounts[ids[k]].kind, captured, ids[k], delta[ids[k]]).Err?
    ensures FirstUnable(s, holdId, legs, ids[k])
  {
    assert ids[k] in ids;
    forall b | Touches(legs, b) && b < ids[k] ensures Bears(s, holdId, legs, b) {
      assert b in ids;
      var j :| 0 <= j < |ids| && ids[j] == b;
      assert j < k;
    }
  }

  lemma {:induction false} FirstRefused(s: State, captured: Option<Hold>, delta: map<Uuid, int64>, ids: seq<Uuid>, n: nat)
    returns (k: nat)
    requires WellFormed(s) && n <= |ids|
    requires forall i :: 0 <= i < |ids| ==> ids[i] in delta && ids[i] in s.accounts
    requires ApplyAll(s, captured, delta, ids, n).Err?
    ensures k < n
    ensures var r := ApplyOne(s.balances[ids[k]], s.accounts[ids[k]].kind, captured, ids[k], delta[ids[k]]);
            r.Err? && r.error == ApplyAll(s, captured, delta, ids, n).error
    ensures forall i :: 0 <= i < k ==>
              ApplyOne(s.balances[ids[i]], s.accounts[ids[i]].kind, captured, ids[i], delta[ids[i]]).Ok?
  {
    if ApplyAll(s, captured, delta, ids, n - 1).Err? {
      k := FirstRefused(s, captured, delta, ids, n - 1);
    } else {
      k := n - 1;
      ApplyAllDecides(s, captured, delta, ids, n - 1);
    }
  }

  lemma OneUnable(s: State, reference: Reference, holdId: Option<Uuid>, legs: seq<Posting>, captured: Option<Hold>, a: Uuid)
    requires WellFormed(s) && HoldsOk(s) && HeldOk(s) && a in s.accounts && Touches(legs, a)
    requires Deltas(legs, |legs|).Ok? && a in Deltas(legs, |legs|).value
    requires PlanHold(s, reference, holdId, Plan(map[], captured, [], map[]))
    requires ApplyOne(s.balances[a], s.accounts[a].kind, captured, a, Deltas(legs, |legs|).value[a]).Err?
    ensures ApplyOne(s.balances[a], s.accounts[a].kind, captured, a, Deltas(legs, |legs|).value[a]) == Err(Unable(s, legs, a))
  {
    DeltasExact(legs, |legs|);
    assert legs[..|legs|] == legs;
    var d := Deltas(legs, |legs|).value[a];
    assert AccountSum(legs, a) == GetOr(Deltas(legs, |legs|).value, a, 0) == d;
    AdjustWithin(s, reference, holdId, Plan(map[], captured, [], map[]), a);
    OneShort(s.balances[a], s.accounts[a].kind, captured, a, d);
  }

  lemma OneShort(b: Balance, kind: AccountType, captured: Option<Hold>, a: Uuid, delta: int64)
    requires 0 <= b.held + HeldAdjust(captured, a) <= b.held && ApplyOne(b, kind, captured, a, delta).Err?
    ensures ApplyOne(b, kind, captured, a, delta) == Err(if Fits(b.balance + delta) then InsufficientFunds else Overflow)
  {
  }

  /** A post that every touched account could bear, if only its new balance fits, is refused for
      overflow or not at all. */
  lemma PlanOverflows(s: State, reference: Reference, holdId: Option<Uuid>, legs: seq<Posting>)
    requires WellFormed(s) && HoldsOk(s) && HeldOk(s) && LegsKnown(s, legs)
    requires Acceptable(legs, s.accounts) && NetsFit(legs, |legs|) && HoldCovers(s, reference, holdId, legs)
    requires forall a :: Touches(legs, a) && a in s.balances && Fits(s.balances[a].balance + AccountSum(legs, a)) ==>
               Bears(s, holdId, legs, a)
    ensures PlanPost(s, reference, holdId, legs).Err? ==> PlanPost(s, reference, holdId, legs) == Err(Overflow)
  {
    BalanceRefusals(s, reference, holdId, legs);
  }

  // ---------------------------------------------------------------- announcements

  /** An accepted post announces each touched account once, in ascending order, under the account's own
      key, with its currency, its new balance and version, and the entry's id. */
  lemma PostAnnounces(s: State, reference: Reference, holdId: Option<Uuid>, specs: seq<PostingSpec>)
    requires WellFormed(s) && HoldsOk(s) && HeldOk(s) && reference !in s.entryRefs && Post(s, reference, holdId, specs).1.Ok?
    ensures var t := Post(s, reference, holdId, specs).0;
            var legs := t.journal[|t.journal| - 1].legs;
            && s.outbox <= t.outbox
            && (forall i :: |s.outbox| <= i < |t.outbox| ==> Tells(t, t.outbox[i]))
            && (forall i, j :: |s.outbox| <= i < j < |t.outbox| ==> t.outbox[i].account < t.outbox[j].account)
            && (forall a :: Touches(legs, a) <==> exists i :: |s.outbox| <= i < |t.outbox| && t.outbox[i].account == a)
  {
    PostEffect(s, reference, holdId, specs);
    PostCommits(s, reference, holdId, specs);
    var t := Post(s, reference, holdId, specs).0;
    var legs := ResolveLegs(s, specs, |specs|).value;
    var p := PlanPost(s, reference, holdId, legs).value;
    PlanFacts(s, reference, holdId, legs);
    Announced(s, t, legs, p);
  }

  /** The event tells the account as it is now, and names the newest entry. */
  ghost predicate Tells(t: State, e: TransactionPosted) {
    && e.account in t.accounts && e.account in t.balances && t.journal != []
    && e.externalId == t.accounts[e.account].externalId && e.currency == t.accounts[e.account].currency
    && e.key == (if e.externalId != "" then e.externalId else t.accounts[e.account].internalCode)
    && e.balanceAfter == t.balances[e.account].balance && e.version == t.balances[e.account].version
    && e.entry == |t.journal| - 1
  }

  /** The outbox grew by one event for each of these accounts. */
  ghost predicate Grown(s: State, t: State, p: Plan) {
    && |t.outbox| == |s.outbox| + |p.ids|
    && (forall i :: 0 <= i < |s.outbox| ==> t.outbox[i] == s.outbox[i])
    && (forall k :: 0 <= k < |p.ids| ==> p.ids[k] in p.after && p.ids[k] in s.accounts
                                         && t.outbox[|s.outbox| + k] == AnnounceOne(s, p.ids[k], p.after[p.ids[k]]))
  }

  lemma GrownAt(s: State, t: State, p: Plan, i: nat)
    requires Grown(s, t, p) && |s.outbox| <= i < |t.outbox|
    ensures var a := p.ids[i - |s.outbox|];
            a in p.after && a in s.accounts && t.outbox[i] == AnnounceOne(s, a, p.after[a]) && t.outbox[i].account == a
  {
    assert t.outbox[|s.outbox| + (i - |s.outbox|)] == t.outbox[i];
  }

  lemma AllTell(s: State, t: State, legs: seq<Posting>, p: Plan)
    requires PlanBalances(s, legs, p) && t.accounts == s.accounts && t.balances == s.balances + p.after
    requires |t.journal| == |s.journal| + 1 && Grown(s, t, p)
    ensures forall i :: |s.outbox| <= i < |t.outbox| ==> Tells(t, t.outbox[i])
  {
    forall i | |s.outbox| <= i < |t.outbox| ensures Tells(t, t.outbox[i]) {
      GrownAt(s, t, p, i);
      TellsOne(s, t, legs, p, p.ids[i - |s.outbox|]);
    }
  }

  lemma Announced(s: State, t: State, legs: seq<Posting>, p: Plan)
    requires PlanBalances(s, legs, p) && t.accounts == s.accounts && t.balances == s.balances + p.after
    requires |t.journal| == |s.journal| + 1 && Grown(s, t, p)
    ensures s.outbox <= t.outbox
    ensures forall i :: |s.outbox| <= i < |t.outbox| ==> Tells(t, t.outbox[i])
    ensures forall i, j :: |s.outbox| <= i < j < |t.outbox| ==> t.outbox[i].account < t.outbox[j].account
    ensures forall a :: Touches(legs, a) <==> exists i :: |s.outbox| <= i < |t.outbox| && t.outbox[i].account == a
  {
    AllTell(s, t, legs, p);
    forall i | |s.outbox| <= i < |t.outbox| ensures t.outbox[i].account == p.ids[i - |s.outbox|] {
      GrownAt(s, t, p, i);
    }
    AnnouncedAscending(s, t, p.ids);
    forall a ensures Touches(legs, a) <==> exists i :: |s.outbox| <= i < |t.outbox| && t.outbox[i].account == a {
      AnnouncedOnce(s, t, legs, p, a);
    }
  }

  lemma AnnouncedAscending(s: State, t: State, ids: seq<Uuid>)
    requires Sums.Ascending(ids) && |t.outbox| == |s.outbox| + |ids|
    requires forall i :: |s.outbox| <= i < |t.outbox| ==> t.outbox[i].account == ids[i - |s.outbox|]
    ensures forall i, j :: |s.outbox| <= i < j < |t.outbox| ==> t.outbox[i].account < t.outbox[j].account
  {
  }

  lemma AnnouncedOnce(s: State, t: State, legs: seq<Posting>, p: Plan, a: Uuid)
    requires forall x :: x in p.ids <==> Touches(legs, x)
    requires |t.outbox| == |s.outbox| + |p.ids|
    requires forall i :: |s.outbox| <= i < |t.outbox| ==> t.outbox[i].account == p.ids[i - |s.outbox|]
    ensures Touches(legs, a) <==> exists i :: |s.outbox| <= i < |t.outbox| && t.outbox[i].account == a
  {
    if Touches(legs, a) {
      var k :| 0 <= k < |p.ids| && p.ids[k] == a;
      assert t.outbox[|s.outbox| + k].account == a;
    }
    if i :| |s.outbox| <= i < |t.outbox| && t.outbox[i].account == a {
      assert p.ids[i - |s.outbox|] in p.ids;
    }
  }

  lemma TellsOne(s: State, t: State, legs: seq<Posting>, p: Plan, a: Uuid)
    requires PlanBalances(s, legs, p) && t.accounts == s.accounts && t.balances == s.balances + p.after
    requires |t.journal| == |s.journal| + 1 && a in p.after && a in s.accounts
    ensures Tells(t, AnnounceOne(s, a, p.after[a]))
  {
    assert PlanBalance(s, legs, p, a);
  }
}

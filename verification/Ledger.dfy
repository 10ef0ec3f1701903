/** The ledger's tables and its transactions, each as one function from the tables before to the
    tables after. A transaction that returns an error leaves the tables as they were. */
module Ledger {
  import opened Int64
  import Sums
  import opened LedgerDomain

  /** Exactly one identity addresses an account; the first one present wins. */
  datatype AccountRef = AccountRef(externalId: string, internalCode: string, ledgerId: Option<Uuid>)

  datatype PostingSpec = PostingSpec(ref: AccountRef, amount: int64, currency: string)

  datatype Entry = Entry(reference: Reference, legs: seq<Posting>)

  datatype TransactionPosted = TransactionPosted(account: Uuid, externalId: string, key: string, currency: string,
                                                 balanceAfter: int64, version: nat, entry: nat)

  /** byExternal, byCode, holdRefs and entryRefs are the unique indexes. An entry's id is its
      position in the journal. */
  datatype State = State(accounts: map<Uuid, Account>, byExternal: map<string, Uuid>, byCode: map<string, Uuid>,
                         balances: map<Uuid, Balance>,
                         holds: map<Uuid, Hold>, holdRefs: map<Reference, Uuid>,
                         journal: seq<Entry>, entryRefs: map<Reference, nat>,
                         outbox: seq<TransactionPosted>)

  /** The foreign keys: every stored identifier names a row. */
  predicate WellFormed(s: State) {
    && s.balances.Keys == s.accounts.Keys
    && (forall x :: x in s.byExternal ==> s.byExternal[x] in s.accounts)
    && (forall x :: x in s.byCode ==> s.byCode[x] in s.accounts)
    && (forall h :: h in s.holds ==> s.holds[h].account in s.accounts)
    && (forall r :: r in s.holdRefs ==> s.holdRefs[r] in s.holds)
    && (forall r :: r in s.entryRefs ==> s.entryRefs[r] < |s.journal|)
  }

  function Resolve(s: State, ref: AccountRef): Result<Uuid> {
    if ref.externalId != "" then
      if ref.externalId in s.byExternal then Ok(s.byExternal[ref.externalId]) else Err(AccountNotFound)
    else if ref.internalCode != "" then
      if ref.internalCode in s.byCode then Ok(s.byCode[ref.internalCode]) else Err(AccountNotFound)
    else if ref.ledgerId.Some? then
      if ref.ledgerId.value in s.accounts then Ok(ref.ledgerId.value) else Err(AccountNotFound)
    else Err(AccountNotFound)
  }

  // ---------------------------------------------------------------- accounts

  /** Idempotent by external id. */
  function CreateAccount(s: State, externalId: string, currency: string, newId: Uuid): (State, Result<Uuid>)
    requires WellFormed(s)
  {
    if externalId == "" then (s, Err(InvalidArgument))
    else if !ValidCurrency(currency) then (s, Err(CurrencyMismatch))
    else if externalId in s.byExternal then
      var id := s.byExternal[externalId];
      (s, if s.accounts[id].currency == currency then Ok(id) else Err(AlreadyExists))
    else if newId in s.accounts then (s, Err(AlreadyExists))
    else
      var acct := Account(newId, externalId, "", Customer, currency, Active);
      (s.(accounts := s.accounts[newId := acct],
          byExternal := s.byExternal[externalId := newId],
          balances := s.balances[newId := Balance(0, 0, 0)]),
       Ok(newId))
  }

  /** All a new account ever writes. */
  lemma CreateAccountWrites(s: State, externalId: string, currency: string, newId: Uuid)
    requires WellFormed(s)
    ensures var t := CreateAccount(s, externalId, currency, newId).0;
            t != s ==> && newId !in s.accounts && externalId !in s.byExternal
                       && t == s.(accounts := s.accounts[newId := Account(newId, externalId, "", Customer, currency, Active)],
                                  byExternal := s.byExternal[externalId := newId],
                                  balances := s.balances[newId := Balance(0, 0, 0)])
  {
  }

  // ---------------------------------------------------------------- holds

  /** Why a new hold is refused, when it is; the last test is the table's CHECK (held >= 0), which
      the wrapped sum of the unchecked addition meets exactly when it did not overflow. */
  function PlaceHoldError(acct: Account, b: Balance, amount: int64, currency: string): Option<Error> {
    if currency != acct.currency then Some(CurrencyMismatch)
    else if acct.kind == Customer && acct.status != Active then Some(AccountFrozen)
    else if HoldError(b, acct.kind, amount).Some? then HoldError(b, acct.kind, amount)
    else if Wrap(b.held + amount) < 0 then Some(HeldCheckViolated)
    else None
  }

  /** A granted hold fits: for a customer because the balance covers it, for an internal account
      because the CHECK refuses the wrapped sum. */
  lemma PlaceHoldGrant(acct: Account, b: Balance, amount: int64, currency: string)
    requires 0 <= b.held && (acct.kind == Customer ==> Sound(b))
    requires PlaceHoldError(acct, b, amount, currency).None?
    ensures 0 < amount && Wrap(b.held + amount) == b.held + amount
    ensures acct.kind == Customer ==> b.held + amount <= b.balance
  {
    WrapOnce(b.held + amount);
    if acct.kind == Customer {
      HoldErrorExact(b, amount);
    }
  }

  function PlaceHold(s: State, ref: AccountRef, amount: int64, currency: string, reference: Reference,
                     expiresAt: int, newId: Uuid): (State, Result<Uuid>)
    requires WellFormed(s)
  {
    if reference.kind == "" || reference.id == "" then (s, Err(InvalidArgument))
    else
      match Resolve(s, ref)
      case Err(e) => (s, Err(e))
      case Ok(a) =>
        if reference in s.holdRefs then
          var existing := s.holds[s.holdRefs[reference]];
          (s, if existing.account != a || existing.amount != amount then Err(DuplicateReference)
              else Ok(s.holdRefs[reference]))
        else GrantHold(s, a, amount, currency, reference, expiresAt, newId)
  }

  /** A hold under a new reference. */
  function GrantHold(s: State, a: Uuid, amount: int64, currency: string, reference: Reference,
                     expiresAt: int, newId: Uuid): (State, Result<Uuid>)
    requires a in s.accounts && a in s.balances
  {
    match PlaceHoldError(s.accounts[a], s.balances[a], amount, currency)
    case Some(e) => (s, Err(e))
    case None =>
      if newId in s.holds then (s, Err(AlreadyExists))
      else (WriteHold(s, newId, Hold(a, amount, currency, reference, HoldActive, expiresAt)), Ok(newId))
  }

  function WriteHold(s: State, id: Uuid, h: Hold): State
    requires h.account in s.balances
  {
    var b := s.balances[h.account];
    s.(holds := s.holds[id := h],
       holdRefs := s.holdRefs[h.reference := id],
       balances := s.balances[h.account := b.(held := Wrap(b.held + h.amount))])
  }

  lemma PlaceHoldWrites(s: State, ref: AccountRef, amount: int64, currency: string, reference: Reference,
                        expiresAt: int, newId: Uuid)
    requires WellFormed(s)
    ensures var (t, r) := PlaceHold(s, ref, amount, currency, reference, expiresAt, newId);
            t != s ==> && Resolve(s, ref).Ok? && Resolve(s, ref).value in s.accounts
                       && var a := Resolve(s, ref).value;
                       && reference !in s.holdRefs && newId !in s.holds && r == Ok(newId)
                       && PlaceHoldError(s.accounts[a], s.balances[a], amount, currency).None?
                       && t == WriteHold(s, newId, Hold(a, amount, currency, reference, HoldActive, expiresAt))
  {
  }

  function Release(s: State, holdId: Uuid): (State, Result<Hold>)
    requires WellFormed(s)
  {
    if holdId !in s.holds then (s, Err(NotFound))
    else
      var h := s.holds[holdId];
      match ReleaseHold(h)
      case Err(e) => (s, Err(e))
      case Ok((released, changed)) =>
        if !changed then (s, Ok(released))
        else
          var b := s.balances[h.account];
          var held := Wrap(b.held - h.amount);
          if held < 0 then (s, Err(HeldUnderflow))
          else
            (s.(balances := s.balances[h.account := b.(held := held)], holds := s.holds[holdId := released]),
             Ok(released))
  }

  /** All a release ever writes: an active hold becomes released, and its account's held falls. */
  lemma ReleaseWrites(s: State, holdId: Uuid)
    requires WellFormed(s)
    ensures var t := Release(s, holdId).0;
            t != s ==> && holdId in s.holds && s.holds[holdId].status == HoldActive
                       && t.holds == s.holds[holdId := s.holds[holdId].(status := HoldReleased)]
                       && t.accounts == s.accounts && t.byExternal == s.byExternal && t.byCode == s.byCode
                       && t.journal == s.journal && t.entryRefs == s.entryRefs
  {
  }

  // ---------------------------------------------------------------- posting

  /** The first n legs with their accounts resolved. */
  function ResolveLegs(s: State, specs: seq<PostingSpec>, n: nat): Result<seq<Posting>>
    requires n <= |specs|
  {
    if n == 0 then Ok([])
    else
      var legs :- ResolveLegs(s, specs, n - 1);
      var a :- Resolve(s, specs[n - 1].ref);
      Ok(legs + [Posting(a, specs[n - 1].amount, specs[n - 1].currency)])
  }

  /** Net change per account over the first n legs, with 64-bit running sums. */
  function Deltas(legs: seq<Posting>, n: nat): Result<map<Uuid, int64>>
    requires n <= |legs|
  {
    if n == 0 then Ok(map[])
    else
      var delta :- Deltas(legs, n - 1);
      var p := legs[n - 1];
      match AddChecked(GetOr(delta, p.account, 0), p.amount)
      case None => Err(Overflow)
      case Some(d) => Ok(delta[p.account := d])
  }

  /** The hold the entry captures, if the request names one. */
  function Capture(s: State, reference: Reference, holdId: Option<Uuid>, delta: map<Uuid, int64>): Result<Option<Hold>> {
    match holdId
    case None => Ok(None)
    case Some(id) =>
      if id !in s.holds then Err(HoldNotActive)
      else
        var h := s.holds[id];
        if h.reference != reference then Err(HoldAccountMismatch)
        else
          var d := GetOr(delta, h.account, 0);
          var captured :- CaptureHold(h, if d > 0 then 0 else d);
          Ok(Some(captured))
  }

  function HeldAdjust(captured: Option<Hold>, a: Uuid): int {
    if captured.Some? && captured.value.account == a then -(captured.value.amount as int) else 0
  }

  /** One locked balance: the captured reservation leaves held, then the net delta is applied. */
  function ApplyOne(b: Balance, kind: AccountType, captured: Option<Hold>, a: Uuid, delta: int64): Result<Balance> {
    var held := Wrap(b.held + HeldAdjust(captured, a));
    if held < 0 then Err(HeldUnderflow) else ApplyPosting(b.(held := held), kind, delta)
  }

  lemma ApplyOneExact(b: Balance, kind: AccountType, captured: Option<Hold>, a: Uuid, delta: int64)
    requires 0 <= b.held + HeldAdjust(captured, a) <= b.held
    ensures ApplyOne(b, kind, captured, a, delta) != Err(HeldUnderflow)
    ensures ApplyOne(b, kind, captured, a, delta).Ok? ==>
              && ApplyOne(b, kind, captured, a, delta).value.held == b.held + HeldAdjust(captured, a)
              && (kind == Customer && Sound(b) ==> Sound(ApplyOne(b, kind, captured, a, delta).value))
  {
    if kind == Customer && Sound(b) {
      ApplyPostingExact(b, b.held + HeldAdjust(captured, a), delta);
    }
  }

  /** The first n affected balances, taken in the given order. */
  function ApplyAll(s: State, captured: Option<Hold>, delta: map<Uuid, int64>, ids: seq<Uuid>, n: nat):
    Result<map<Uuid, Balance>>
    requires WellFormed(s) && n <= |ids|
    requires forall i :: 0 <= i < |ids| ==> ids[i] in delta && ids[i] in s.accounts
  {
    if n == 0 then Ok(map[])
    else
      var done :- ApplyAll(s, captured, delta, ids, n - 1);
      var a := ids[n - 1];
      var nb :- ApplyOne(s.balances[a], s.accounts[a].kind, captured, a, delta[a]);
      Ok(done[a := nb])
  }

  function Announce(s: State, ids: seq<Uuid>, after: map<Uuid, Balance>): (r: seq<TransactionPosted>)
    requires forall i :: 0 <= i < |ids| ==> ids[i] in s.accounts && ids[i] in after
    ensures |r| == |ids|
  {
    seq(|ids|, i requires 0 <= i < |ids| => AnnounceOne(s, ids[i], after[ids[i]]))
  }

  function AnnounceOne(s: State, a: Uuid, after: Balance): TransactionPosted
    requires a in s.accounts
  {
    var acct := s.accounts[a];
    TransactionPosted(a, acct.externalId, if acct.externalId == "" then acct.internalCode else acct.externalId,
                      acct.currency, after.balance, after.version, |s.journal|)
  }

  lemma {:induction false} ResolveLegsKnown(s: State, specs: seq<PostingSpec>, n: nat)
    requires WellFormed(s) && n <= |specs|
    requires ResolveLegs(s, specs, n).Ok?
    ensures var legs := ResolveLegs(s, specs, n).value;
            && |legs| == n
            && LegsKnown(s, legs)
            && (forall i :: 0 <= i < n ==> Resolve(s, specs[i].ref) == Ok(legs[i].account)
                                           && legs[i].amount == specs[i].amount
                                           && legs[i].currency == specs[i].currency)
  {
    if n > 0 {
      ResolveLegsKnown(s, specs, n - 1);
    }
  }

  lemma {:induction false} DeltasExact(legs: seq<Posting>, n: nat)
    requires n <= |legs|
    requires Deltas(legs, n).Ok?
    ensures var d := Deltas(legs, n).value;
            && (forall a :: a in d <==> Touches(legs[..n], a))
            && (forall a :: AccountSum(legs[..n], a) == GetOr(d, a, 0))
  {
    if n > 0 {
      DeltasExact(legs, n - 1);
      var p := legs[n - 1];
      assert legs[..n] == legs[..n - 1] + [p];
      assert legs[..n][..n - 1] == legs[..n - 1];
      var before, d := Deltas(legs, n - 1).value, Deltas(legs, n).value;
      forall a ensures a in d <==> Touches(legs[..n], a) {
        if Touches(legs[..n - 1], a) {
          var i :| 0 <= i < n - 1 && legs[..n - 1][i].account == a;
          assert legs[..n][i].account == a;
        }
        if p.account == a {
          assert legs[..n][n - 1].account == a;
        }
        if Touches(legs[..n], a) && p.account != a {
          var i :| 0 <= i < n && legs[..n][i].account == a;
          assert legs[..n - 1][i].account == a;
        }
      }
    }
  }

  /** Everything postOnce computes before it writes: net deltas, the captured hold, the affected
      accounts in lock order and their new balances. */
  datatype Plan = Plan(delta: map<Uuid, int64>, captured: Option<Hold>, ids: seq<Uuid>, after: map<Uuid, Balance>)

  predicate LegsKnown(s: State, legs: seq<Posting>) {
    forall i :: 0 <= i < |legs| ==> legs[i].account in s.accounts
  }

  function PlanPost(s: State, reference: Reference, holdId: Option<Uuid>, legs: seq<Posting>): (r: Result<Plan>)
    requires WellFormed(s) && LegsKnown(s, legs)
  {
    if EntryError(legs, s.accounts).Some? then Err(EntryError(legs, s.accounts).value)
    else
      var delta :- Deltas(legs, |legs|);
      var captured :- Capture(s, reference, holdId, delta);
      var ids := Sums.Sorted(delta.Keys);
      IdsKnown(s, legs);
      var after :- ApplyAll(s, captured, delta, ids, |ids|);
      Ok(Plan(delta, captured, ids, after))
  }

  lemma IdsKnown(s: State, legs: seq<Posting>)
    requires LegsKnown(s, legs)
    requires Deltas(legs, |legs|).Ok?
    ensures var delta := Deltas(legs, |legs|).value;
            var ids := Sums.Sorted(delta.Keys);
            && Sums.Ascending(ids)
            && (forall a :: a in ids <==> Touches(legs, a))
            && (forall i :: 0 <= i < |ids| ==> ids[i] in delta && ids[i] in s.accounts)
  {
    var delta := Deltas(legs, |legs|).value;
    DeltasExact(legs, |legs|);
    assert legs[..|legs|] == legs;
    Sums.SortedExact(delta.Keys);
    var ids := Sums.Sorted(delta.Keys);
    forall i | 0 <= i < |ids| ensures ids[i] in delta && ids[i] in s.accounts {
      assert ids[i] in ids;
      assert Touches(legs, ids[i]);
    }
  }

  /** The map holds the new balance of each of the given accounts. */
  ghost predicate Applied(s: State, captured: Option<Hold>, delta: map<Uuid, int64>, after: map<Uuid, Balance>) {
    forall a :: a in after ==> && a in delta && a in s.accounts && a in s.balances
                               && ApplyOne(s.balances[a], s.accounts[a].kind, captured, a, delta[a]) == Ok(after[a])
  }

  lemma AppliedNext(s: State, captured: Option<Hold>, delta: map<Uuid, int64>, before: map<Uuid, Balance>, a: Uuid, nb: Balance)
    requires Applied(s, captured, delta, before) && a in delta && a in s.accounts && a in s.balances
    requires ApplyOne(s.balances[a], s.accounts[a].kind, captured, a, delta[a]) == Ok(nb)
    ensures Applied(s, captured, delta, before[a := nb])
  {
  }

  lemma {:induction false} ApplyAllKeys(s: State, captured: Option<Hold>, delta: map<Uuid, int64>, ids: seq<Uuid>, n: nat)
    requires WellFormed(s) && n <= |ids|
    requires forall i :: 0 <= i < |ids| ==> ids[i] in delta && ids[i] in s.accounts
    requires ApplyAll(s, captured, delta, ids, n).Ok?
    ensures forall a :: a in ApplyAll(s, captured, delta, ids, n).value <==> a in ids[..n]
  {
    if n > 0 {
      ApplyAllKeys(s, captured, delta, ids, n - 1);
      assert ids[..n] == ids[..n - 1] + [ids[n - 1]];
    }
  }

  lemma {:induction false} ApplyAllExact(s: State, captured: Option<Hold>, delta: map<Uuid, int64>, ids: seq<Uuid>, n: nat)
    requires WellFormed(s) && n <= |ids|
    requires forall i :: 0 <= i < |ids| ==> ids[i] in delta && ids[i] in s.accounts
    requires ApplyAll(s, captured, delta, ids, n).Ok?
    ensures Applied(s, captured, delta, ApplyAll(s, captured, delta, ids, n).value)
  {
    if n > 0 {
      ApplyAllExact(s, captured, delta, ids, n - 1);
      var a, before := ids[n - 1], ApplyAll(s, captured, delta, ids, n - 1).value;
      var nb := ApplyOne(s.balances[a], s.accounts[a].kind, captured, a, delta[a]).value;
      AppliedNext(s, captured, delta, before, a, nb);
      assert ApplyAll(s, captured, delta, ids, n).value == before[a := nb];
    }
  }

  /** What the plan of an accepted entry says about the balances. */
  ghost predicate PlanBalances(s: State, legs: seq<Posting>, p: Plan) {
    && Sums.Ascending(p.ids)
    && (forall a :: a in p.ids <==> Touches(legs, a))
    && (forall a :: a in p.after <==> Touches(legs, a))
    && (forall a :: a in p.after ==> PlanBalance(s, legs, p, a))
  }

  ghost predicate PlanBalance(s: State, legs: seq<Posting>, p: Plan, a: Uuid)
    requires a in p.after
  {
    && a in s.accounts && a in s.balances && Fits(AccountSum(legs, a))
    && ApplyOne(s.balances[a], s.accounts[a].kind, p.captured, a, AccountSum(legs, a)) == Ok(p.after[a])
  }

  /** What it says about the hold. */
  ghost predicate PlanHold(s: State, reference: Reference, holdId: Option<Uuid>, p: Plan) {
    && p.captured.Some? == holdId.Some?
    && (holdId.Some? ==> && holdId.value in s.holds
                         && s.holds[holdId.value].reference == reference
                         && s.holds[holdId.value].status == HoldActive
                         && p.captured.value == s.holds[holdId.value].(status := HoldCaptured))
  }

  /** The steps of a plan that succeeded. */
  lemma PlanParts(s: State, reference: Reference, holdId: Option<Uuid>, legs: seq<Posting>)
    requires WellFormed(s) && LegsKnown(s, legs) && PlanPost(s, reference, holdId, legs).Ok?
    ensures EntryError(legs, s.accounts).None? && Deltas(legs, |legs|).Ok?
    ensures var p := PlanPost(s, reference, holdId, legs).value;
            && p.delta == Deltas(legs, |legs|).value && p.ids == Sums.Sorted(p.delta.Keys)
            && Capture(s, reference, holdId, p.delta) == Ok(p.captured)
            && (forall i :: 0 <= i < |p.ids| ==> p.ids[i] in p.delta && p.ids[i] in s.accounts)
            && ApplyAll(s, p.captured, p.delta, p.ids, |p.ids|) == Ok(p.after)
  {
    IdsKnown(s, legs);
  }

  lemma CaptureFacts(s: State, reference: Reference, holdId: Option<Uuid>, p: Plan)
    requires Capture(s, reference, holdId, p.delta) == Ok(p.captured)
    ensures PlanHold(s, reference, holdId, p)
  {
  }

  /** The net changes of all legs. */
  lemma NetChanges(legs: seq<Posting>)
    requires Deltas(legs, |legs|).Ok?
    ensures var delta := Deltas(legs, |legs|).value;
            forall a :: a in delta ==> Touches(legs, a) && delta[a] == AccountSum(legs, a)
  {
    DeltasExact(legs, |legs|);
    assert legs[..|legs|] == legs;
    var delta := Deltas(legs, |legs|).value;
    forall a | a in delta ensures Touches(legs, a) && delta[a] == AccountSum(legs, a) {
      assert AccountSum(legs, a) == GetOr(delta, a, 0);
    }
  }

  lemma BalanceFacts(s: State, legs: seq<Posting>, p: Plan)
    requires WellFormed(s) && LegsKnown(s, legs) && Deltas(legs, |legs|).Ok?
    requires p.delta == Deltas(legs, |legs|).value && p.ids == Sums.Sorted(p.delta.Keys)
    requires forall a :: a in p.after <==> a in p.ids
    requires Applied(s, p.captured, p.delta, p.after)
    ensures PlanBalances(s, legs, p)
  {
    IdsKnown(s, legs);
    NetChanges(legs);
    forall a | a in p.after ensures PlanBalance(s, legs, p, a) {
      assert p.delta[a] == AccountSum(legs, a);
    }
  }

  lemma PlanFacts(s: State, reference: Reference, holdId: Option<Uuid>, legs: seq<Posting>)
    requires WellFormed(s) && LegsKnown(s, legs) && PlanPost(s, reference, holdId, legs).Ok?
    ensures Acceptable(legs, s.accounts)
    ensures PlanHold(s, reference, holdId, PlanPost(s, reference, holdId, legs).value)
    ensures PlanBalances(s, legs, PlanPost(s, reference, holdId, legs).value)
  {
    PlanParts(s, reference, holdId, legs);
    EntryErrorExact(legs, s.accounts);
    var p := PlanPost(s, reference, holdId, legs).value;
    CaptureFacts(s, reference, holdId, p);
    ApplyAllKeys(s, p.captured, p.delta, p.ids, |p.ids|);
    ApplyAllExact(s, p.captured, p.delta, p.ids, |p.ids|);
    assert p.ids[..|p.ids|] == p.ids;
    BalanceFacts(s, legs, p);
  }

  /** The writes of an accepted entry. */
  function Commit(s: State, reference: Reference, holdId: Option<Uuid>, legs: seq<Posting>, p: Plan): State
    requires PlanHold(s, reference, holdId, p) && PlanBalances(s, legs, p)
  {
    assert forall i :: 0 <= i < |p.ids| ==> p.ids[i] in p.ids;
    s.(holds := if holdId.Some? then s.holds[holdId.value := p.captured.value] else s.holds,
       balances := s.balances + p.after,
       journal := s.journal + [Entry(reference, legs)],
       entryRefs := s.entryRefs[reference := |s.journal|],
       outbox := s.outbox + Announce(s, p.ids, p.after))
  }

  function Post(s: State, reference: Reference, holdId: Option<Uuid>, specs: seq<PostingSpec>): (State, Result<nat>)
    requires WellFormed(s)
  {
    if reference.kind == "" || reference.id == "" then (s, Err(InvalidArgument))
    else
      match ResolveLegs(s, specs, |specs|)
      case Err(e) => (s, Err(e))
      case Ok(legs) =>
        if reference in s.entryRefs then
          var i := s.entryRefs[reference];
          (s, if multiset(s.journal[i].legs) == multiset(legs) then Ok(i) else Err(DuplicateReference))
        else
          ResolveLegsKnown(s, specs, |specs|);
          match PlanPost(s, reference, holdId, legs)
          case Err(e) => (s, Err(e))
          case Ok(p) =>
            PlanFacts(s, reference, holdId, legs);
            (Commit(s, reference, holdId, legs, p), Ok(|s.journal|))
  }

  // ---------------------------------------------------------------- concurrent duplicates

  /** The entry under a taken reference, if it was posted with this payload. */
  function ReplayByReference(s: State, reference: Reference, specs: seq<PostingSpec>): Result<nat>
    requires WellFormed(s) && reference in s.entryRefs
  {
    var legs :- ResolveLegs(s, specs, |specs|);
    var i := s.entryRefs[reference];
    if multiset(s.journal[i].legs) == multiset(legs) then Ok(i) else Err(DuplicateReference)
  }

  /** The post of a transaction that still saw its reference free, and finds it taken when it inserts
      it: everything in between is validated against the locked rows, the insert conflicts, the
      transaction is rolled back, and the answer comes from the winner's entry. */
  function PostRaced(s: State, reference: Reference, holdId: Option<Uuid>, specs: seq<PostingSpec>): (State, Result<nat>)
    requires WellFormed(s) && reference in s.entryRefs
  {
    if reference.kind == "" || reference.id == "" then (s, Err(InvalidArgument))
    else
      match ResolveLegs(s, specs, |specs|)
      case Err(e) => (s, Err(e))
      case Ok(legs) =>
        ResolveLegsKnown(s, specs, |specs|);
        match PlanPost(s, reference, holdId, legs)
        case Err(e) => (s, Err(e))
        case Ok(_) => (s, ReplayByReference(s, reference, specs))
  }

  // ---------------------------------------------------------------- runs

  /** One committed or refused transaction. SetStatus is the operator's update of an account row;
      newId ids stand for generated UUIDs, and a collision is refused by the primary key. */
  datatype Op =
    | OpCreateAccount(externalId: string, currency: string, newId: Uuid)
    | OpPlaceHold(ref: AccountRef, amount: int64, currency: string, reference: Reference, expiresAt: int, newId: Uuid)
    | OpRelease(hold: Uuid)
    | OpPost(reference: Reference, holdId: Option<Uuid>, specs: seq<PostingSpec>)
    | OpSetStatus(account: Uuid, status: AccountStatus)

  function SetStatus(s: State, a: Uuid, status: AccountStatus): State {
    if a in s.accounts then s.(accounts := s.accounts[a := s.accounts[a].(status := status)]) else s
  }

  function Step(s: State, op: Op): State
    requires WellFormed(s)
  {
    match op
    case OpCreateAccount(x, c, f) => CreateAccount(s, x, c, f).0
    case OpPlaceHold(ref, amount, c, r, e, f) => PlaceHold(s, ref, amount, c, r, e, f).0
    case OpRelease(h) => Release(s, h).0
    case OpPost(r, h, specs) => Post(s, r, h, specs).0
    case OpSetStatus(a, st) => SetStatus(s, a, st)
  }

  /** The seeded chart of internal accounts. */
  function Seed(): State {
    State(map[0 := Account(0, "", "cash_in_kzt", Internal, "KZT", Active),
              1 := Account(1, "", "cash_in_usd", Internal, "USD", Active),
              2 := Account(2, "", "fx_position_kzt", Internal, "KZT", Active),
              3 := Account(3, "", "fx_position_usd", Internal, "USD", Active)],
          map[],
          map["cash_in_kzt" := 0, "cash_in_usd" := 1, "fx_position_kzt" := 2, "fx_position_usd" := 3],
          map[0 := Balance(0, 0, 0), 1 := Balance(0, 0, 0), 2 := Balance(0, 0, 0), 3 := Balance(0, 0, 0)],
          map[], map[], [], map[], [])
  }
}

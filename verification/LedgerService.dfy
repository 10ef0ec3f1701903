/** The ledger service: each transaction reads and writes the tables step by step, and is proved to
    be the corresponding function of Ledger. */
module LedgerService {
  import opened Int64
  import Sums
  import opened LedgerDomain
  import opened Ledger
  import LedgerLaws
  import opened Locking

  // ---------------------------------------------------------------- loops of postOnce

  lemma {:induction false} ResolveStops(s: State, specs: seq<PostingSpec>, n: nat, m: nat)
    requires n <= m <= |specs| && ResolveLegs(s, specs, n).Err?
    ensures ResolveLegs(s, specs, m) == ResolveLegs(s, specs, n)
  {
    if n < m {
      ResolveStops(s, specs, n, m - 1);
    }
  }

  method ResolveAll(s: State, specs: seq<PostingSpec>) returns (r: Result<seq<Posting>>)
    requires WellFormed(s)
    ensures r == ResolveLegs(s, specs, |specs|)
  {
    var legs: seq<Posting> := [];
    for i := 0 to |specs|
      invariant ResolveLegs(s, specs, i) == Ok(legs)
    {
      var a := Resolve(s, specs[i].ref);
      if a.Err? {
        ResolveStops(s, specs, i + 1, |specs|);
        return Err(a.error);
      }
      legs := legs + [Posting(a.value, specs[i].amount, specs[i].currency)];
    }
    return Ok(legs);
  }

  lemma {:induction false} DeltasStop(legs: seq<Posting>, n: nat, m: nat)
    requires n <= m <= |legs| && Deltas(legs, n).Err?
    ensures Deltas(legs, m) == Deltas(legs, n)
  {
    if n < m {
      DeltasStop(legs, n, m - 1);
    }
  }

  method NetDeltas(legs: seq<Posting>) returns (r: Result<map<Uuid, int64>>)
    ensures r == Deltas(legs, |legs|)
    ensures r.Ok? ==> forall a :: AccountSum(legs, a) == GetOr(r.value, a, 0)
  {
    var delta: map<Uuid, int64> := map[];
    for i := 0 to |legs|
      invariant Deltas(legs, i) == Ok(delta)
    {
      var p := legs[i];
      var d := AddChecked(GetOr(delta, p.account, 0), p.amount);
      if d.None? {
        DeltasStop(legs, i + 1, |legs|);
        return Err(Overflow);
      }
      delta := delta[p.account := d.value];
    }
    DeltasExact(legs, |legs|);
    assert legs[..|legs|] == legs;
    return Ok(delta);
  }

  /** The map holds how many more legs of each shape were counted up than down. */
  ghost predicate Tally(count: map<Posting, int>, up: multiset<Posting>, down: multiset<Posting>) {
    forall p :: GetOr(count, p, 0) + down[p] == up[p]
  }

  lemma TallyUp(count: map<Posting, int>, up: multiset<Posting>, p: Posting)
    requires Tally(count, up, multiset{})
    ensures Tally(count[p := GetOr(count, p, 0) + 1], up + multiset{p}, multiset{})
  {
  }

  lemma TallyDown(count: map<Posting, int>, up: multiset<Posting>, down: multiset<Posting>, p: Posting)
    requires Tally(count, up, down)
    ensures Tally(count[p := GetOr(count, p, 0) - 1], up, down + multiset{p})
  {
  }

  method CountUp(legs: seq<Posting>) returns (count: map<Posting, int>)
    ensures Tally(count, multiset(legs), multiset{})
  {
    count := map[];
    for i := 0 to |legs|
      invariant Tally(count, multiset(legs[..i]), multiset{})
    {
      PrefixBag(legs, i);
      TallyUp(count, multiset(legs[..i]), legs[i]);
      count := count[legs[i] := GetOr(count, legs[i], 0) + 1];
    }
    assert legs[..|legs|] == legs;
  }

  method CountDown(up: map<Posting, int>, ghost counted: multiset<Posting>, legs: seq<Posting>)
    returns (count: map<Posting, int>)
    requires Tally(up, counted, multiset{})
    ensures Tally(count, counted, multiset(legs))
  {
    count := up;
    for i := 0 to |legs|
      invariant Tally(count, counted, multiset(legs[..i]))
    {
      PrefixBag(legs, i);
      TallyDown(count, counted, multiset(legs[..i]), legs[i]);
      count := count[legs[i] := GetOr(count, legs[i], 0) - 1];
    }
    assert legs[..|legs|] == legs;
  }

  lemma PrefixBag(legs: seq<Posting>, i: nat)
    requires i < |legs|
    ensures multiset(legs[..i + 1]) == multiset(legs[..i]) + multiset{legs[i]}
  {
    assert legs[..i + 1] == legs[..i] + [legs[i]];
  }

  method AllZero(count: map<Posting, int>) returns (zero: bool)
    ensures zero <==> forall p :: GetOr(count, p, 0) == 0
  {
    var left := count.Keys;
    while left != {}
      invariant left <= count.Keys
      invariant forall p :: p in count && p !in left ==> count[p] == 0
    {
      var p :| p in left;
      if count[p] != 0 {
        assert GetOr(count, p, 0) != 0;
        return false;
      }
      left := left - {p};
    }
    return true;
  }

  lemma TallyZero(count: map<Posting, int>, up: multiset<Posting>, down: multiset<Posting>)
    requires Tally(count, up, down)
    ensures (forall p :: GetOr(count, p, 0) == 0) <==> up == down
  {
    if forall p :: GetOr(count, p, 0) == 0 {
      assert forall p :: up[p] == down[p];
    } else {
      var p :| GetOr(count, p, 0) != 0;
      assert up[p] != down[p];
    }
  }

  /** Payloads are compared as bags of legs by counting up and down in one map. */
  method SamePayload(existing: seq<Posting>, requested: seq<Posting>) returns (same: bool)
    ensures same <==> multiset(existing) == multiset(requested)
  {
    if |existing| != |requested| {
      assert |multiset(existing)| != |multiset(requested)|;
      return false;
    }
    var up := CountUp(existing);
    var count := CountDown(up, multiset(existing), requested);
    TallyZero(count, multiset(existing), multiset(requested));
    same := AllZero(count);
  }

  lemma {:induction false} ApplyStops(s: State, captured: Option<Hold>, delta: map<Uuid, int64>, ids: seq<Uuid>, n: nat, m: nat)
    requires WellFormed(s) && n <= m <= |ids|
    requires forall i :: 0 <= i < |ids| ==> ids[i] in delta && ids[i] in s.accounts
    requires ApplyAll(s, captured, delta, ids, n).Err?
    ensures ApplyAll(s, captured, delta, ids, m) == ApplyAll(s, captured, delta, ids, n)
  {
    if n < m {
      ApplyStops(s, captured, delta, ids, n, m - 1);
    }
  }

  /** At most one hold row first, then balance rows by ascending id. */
  lemma {:induction false} RowsIncreasing(before: seq<Lock>, ids: seq<Uuid>, n: nat)
    requires Sums.Ascending(ids) && n <= |ids| && (before == [] || exists h :: before == [HoldRow(h)])
    ensures var locks := before + BalanceRows(ids, n);
            Increasing(locks) && (locks != [] ==> Class(locks[|locks| - 1]) <= 2)
  {
    if n == 0 {
      assert before + [] == before;
    } else {
      RowsIncreasing(before, ids, n - 1);
      var locks := before + BalanceRows(ids, n - 1);
      assert before + BalanceRows(ids, n) == locks + [BalanceRow(ids[n - 1])];
      if n > 1 {
        assert locks[|locks| - 1] == BalanceRow(ids[n - 2]);
      }
      IncreasingAppend(locks, BalanceRow(ids[n - 1]));
    }
  }

  lemma {:induction false} ApplyNext(s: State, captured: Option<Hold>, delta: map<Uuid, int64>, ids: seq<Uuid>, i: nat,
                                     after: map<Uuid, Balance>)
    requires WellFormed(s) && i < |ids|
    requires forall k :: 0 <= k < |ids| ==> ids[k] in delta && ids[k] in s.accounts
    requires ApplyAll(s, captured, delta, ids, i) == Ok(after)
    ensures ApplyAll(s, captured, delta, ids, i + 1) ==
              match ApplyOne(s.balances[ids[i]], s.accounts[ids[i]].kind, captured, ids[i], delta[ids[i]])
              case Ok(nb) => Ok(after[ids[i] := nb])
              case Err(e) => Err(e)
  {
  }

  /** Lock and change the affected balances in the given order; locked counts the rows locked before
      the end or the first refusal. */
  method ApplyBalances(s: State, captured: Option<Hold>, delta: map<Uuid, int64>, ids: seq<Uuid>)
    returns (r: Result<map<Uuid, Balance>>, ghost locked: nat)
    requires WellFormed(s)
    requires forall i :: 0 <= i < |ids| ==> ids[i] in delta && ids[i] in s.accounts
    ensures r == ApplyAll(s, captured, delta, ids, |ids|)
    ensures locked <= |ids| && (r.Ok? ==> locked == |ids|)
    ensures r.Err? ==> 0 < locked && ApplyAll(s, captured, delta, ids, locked - 1).Ok?
                       && ApplyAll(s, captured, delta, ids, locked).Err?
  {
    var after: map<Uuid, Balance> := map[];
    for i := 0 to |ids|
      invariant ApplyAll(s, captured, delta, ids, i) == Ok(after)
    {
      var a := ids[i];
      ApplyNext(s, captured, delta, ids, i, after);
      var nb := ApplyOne(s.balances[a], s.accounts[a].kind, captured, a, delta[a]);
      if nb.Err? {
        ApplyStops(s, captured, delta, ids, i + 1, |ids|);
        return Err(nb.error), i + 1;
      }
      after := after[a := nb.value];
    }
    return Ok(after), |ids|;
  }

  ghost function BalanceRows(ids: seq<Uuid>, n: nat): seq<Lock>
    requires n <= |ids|
  {
    if n == 0 then [] else BalanceRows(ids, n - 1) + [BalanceRow(ids[n - 1])]
  }

  /** Balance rows after the first n updates. */
  ghost function Written(b: map<Uuid, Balance>, p: Plan, n: nat): map<Uuid, Balance>
    requires n <= |p.ids|
  {
    if n == 0 then b
    else
      var a := p.ids[n - 1];
      if a in p.after then Written(b, p, n - 1)[a := p.after[a]] else Written(b, p, n - 1)
  }

  lemma {:induction false} WrittenAll(b: map<Uuid, Balance>, p: Plan, n: nat)
    requires n <= |p.ids|
    ensures forall a :: a in Written(b, p, n) <==> a in b || (a in p.ids[..n] && a in p.after)
    ensures forall a :: a in Written(b, p, n) ==>
                          Written(b, p, n)[a] == if a in p.ids[..n] && a in p.after then p.after[a] else b[a]
  {
    if n > 0 {
      WrittenAll(b, p, n - 1);
      assert p.ids[..n] == p.ids[..n - 1] + [p.ids[n - 1]];
    }
  }

  /** Nothing is written without its lock: every row that differs, and every unique key that is new, was
      locked. */
  ghost predicate Guarded(s: State, t: State, locks: seq<Lock>) {
    && (forall x :: x in t.byExternal && x !in s.byExternal ==> ExternalIdKey(x) in locks)
    && (forall h :: h in s.holds && (h !in t.holds || t.holds[h] != s.holds[h]) ==> HoldRow(h) in locks)
    && (forall a :: a in s.balances && (a !in t.balances || t.balances[a] != s.balances[a]) ==> BalanceRow(a) in locks)
    && (forall r :: r in t.holdRefs && r !in s.holdRefs ==> HoldRefKey(r) in locks)
    && (forall r :: r in t.entryRefs && r !in s.entryRefs ==> EntryRefKey(r) in locks)
  }

  lemma {:induction false} BalanceRowsHave(ids: seq<Uuid>, n: nat, a: Uuid)
    requires n <= |ids| && a in ids[..n]
    ensures BalanceRow(a) in BalanceRows(ids, n)
  {
    if ids[n - 1] != a {
      assert ids[..n] == ids[..n - 1] + [ids[n - 1]];
      BalanceRowsHave(ids, n - 1, a);
    }
  }

  lemma BalancesGuarded(s: State, t: State, p: Plan, before: seq<Lock>, after: seq<Lock>, a: Uuid)
    requires t.balances == s.balances + p.after && (a in p.after ==> a in p.ids)
    requires a in s.balances && (a !in t.balances || t.balances[a] != s.balances[a])
    ensures BalanceRow(a) in before + BalanceRows(p.ids, |p.ids|) + after
  {
    assert p.ids[..|p.ids|] == p.ids;
    BalanceRowsHave(p.ids, |p.ids|, a);
  }

  lemma CommitGuarded(s: State, t: State, reference: Reference, holdId: Option<Uuid>, legs: seq<Posting>, p: Plan,
                      locks: seq<Lock>)
    requires t.balances == s.balances + p.after && forall a :: a in p.after ==> a in p.ids
    requires t.byExternal == s.byExternal && t.holdRefs == s.holdRefs
    requires p.captured.Some? == holdId.Some?
    requires t.holds == if holdId.Some? then s.holds[holdId.value := p.captured.value] else s.holds
    requires t.entryRefs == s.entryRefs[reference := |s.journal|]
    requires locks == (if holdId.Some? then [HoldRow(holdId.value)] else []) + BalanceRows(p.ids, |p.ids|) + [EntryRefKey(reference)]
    ensures Guarded(s, t, locks)
  {
    var first := if holdId.Some? then [HoldRow(holdId.value)] else [];
    forall a | a in s.balances && (a !in t.balances || t.balances[a] != s.balances[a]) ensures BalanceRow(a) in locks {
      BalancesGuarded(s, t, p, first, [EntryRefKey(reference)], a);
    }
    assert holdId.Some? ==> HoldRow(holdId.value) in first;
  }

  // ---------------------------------------------------------------- the service

  class Service {
    var accounts: map<Uuid, Account>
    var byExternal: map<string, Uuid>
    var byCode: map<string, Uuid>
    var balances: map<Uuid, Balance>
    var holds: map<Uuid, Hold>
    var holdRefs: map<Reference, Uuid>
    var journal: seq<Entry>
    var entryRefs: map<Reference, nat>
    var outbox: seq<TransactionPosted>

    /** The locks the last transaction took, in order. */
    ghost var locks: seq<Lock>

    function Tables(): State
      reads this
    {
      State(accounts, byExternal, byCode, balances, holds, holdRefs, journal, entryRefs, outbox)
    }

    ghost predicate Valid()
      reads this
    {
      LedgerLaws.Inv(Tables())
    }

    constructor ()
      ensures Valid() && Tables() == Seed()
    {
      var s := Seed();
      accounts, byExternal, byCode, balances := s.accounts, s.byExternal, s.byCode, s.balances;
      holds, holdRefs, journal, entryRefs, outbox := s.holds, s.holdRefs, s.journal, s.entryRefs, s.outbox;
      locks := [];
      new;
      LedgerLaws.SeedInv();
    }

    method CreateAccount(externalId: string, currency: string, newId: Uuid) returns (r: Result<Uuid>)
      requires Valid()
      modifies this
      ensures Valid()
      ensures (Tables(), r) == Ledger.CreateAccount(old(Tables()), externalId, currency, newId)
      ensures Increasing(locks)
      ensures Guarded(old(Tables()), Tables(), locks)
    {
      LedgerLaws.CreateAccountInv(Tables(), externalId, currency, newId);
      r := UpsertAccount(externalId, currency, newId);
    }

    method UpsertAccount(externalId: string, currency: string, newId: Uuid) returns (r: Result<Uuid>)
      requires WellFormed(Tables())
      modifies this
      ensures (Tables(), r) == Ledger.CreateAccount(old(Tables()), externalId, currency, newId)
      ensures Increasing(locks)
      ensures Guarded(old(Tables()), Tables(), locks)
    {
      locks := [];
      if externalId == "" {
        return Err(InvalidArgument);
      }
      if !ValidCurrency(currency) {
        return Err(CurrencyMismatch);
      }
      locks := [ExternalIdKey(externalId)];
      if externalId in byExternal {
        var id := byExternal[externalId];
        if accounts[id].currency != currency {
          return Err(AlreadyExists);
        }
        return Ok(id);
      }
      if newId in accounts {
        return Err(AlreadyExists);
      }
      accounts := accounts[newId := Account(newId, externalId, "", Customer, currency, Active)];
      byExternal := byExternal[externalId := newId];
      locks := locks + [BalanceRow(newId)];
      balances := balances[newId := Balance(0, 0, 0)];
      return Ok(newId);
    }

    method PlaceHold(ref: AccountRef, amount: int64, currency: string, reference: Reference, expiresAt: int, newId: Uuid)
      returns (r: Result<Uuid>)
      requires Valid()
      modifies this
      ensures Valid()
      ensures (Tables(), r) == Ledger.PlaceHold(old(Tables()), ref, amount, currency, reference, expiresAt, newId)
      ensures Increasing(locks)
      ensures Guarded(old(Tables()), Tables(), locks)
    {
      LedgerLaws.PlaceHoldInv(Tables(), ref, amount, currency, reference, expiresAt, newId);
      r := PlaceHoldTx(ref, amount, currency, reference, expiresAt, newId);
    }

    method PlaceHoldTx(ref: AccountRef, amount: int64, currency: string, reference: Reference, expiresAt: int, newId: Uuid)
      returns (r: Result<Uuid>)
      requires WellFormed(Tables())
      modifies this
      ensures (Tables(), r) == Ledger.PlaceHold(old(Tables()), ref, amount, currency, reference, expiresAt, newId)
      ensures Increasing(locks)
      ensures Guarded(old(Tables()), Tables(), locks)
    {
      locks := [];
      if reference.kind == "" || reference.id == "" {
        return Err(InvalidArgument);
      }
      var found := Resolve(Tables(), ref);
      if found.Err? {
        return found;
      }
      var a := found.value;
      if reference in holdRefs {
        var existing := holds[holdRefs[reference]];
        if existing.account != a || existing.amount != amount {
          return Err(DuplicateReference);
        }
        return Ok(holdRefs[reference]);
      }
      r := Grant(a, amount, currency, reference, expiresAt, newId);
    }

    method Grant(a: Uuid, amount: int64, currency: string, reference: Reference, expiresAt: int, newId: Uuid)
      returns (r: Result<Uuid>)
      requires a in accounts && a in balances && locks == []
      modifies this
      ensures (Tables(), r) == GrantHold(old(Tables()), a, amount, currency, reference, expiresAt, newId)
      ensures Increasing(locks)
      ensures Guarded(old(Tables()), Tables(), locks)
    {
      if currency != accounts[a].currency {
        return Err(CurrencyMismatch);
      }
      if accounts[a].kind == Customer && accounts[a].status != Active {
        return Err(AccountFrozen);
      }
      locks := [BalanceRow(a)];
      var b := balances[a];
      var refused := HoldError(b, accounts[a].kind, amount);
      if refused.Some? {
        return Err(refused.value);
      }
      locks := locks + [HoldRefKey(reference)];
      b := b.(held := Wrap(b.held + amount));
      if b.held < 0 {
        return Err(HeldCheckViolated);
      }
      if newId in holds {
        return Err(AlreadyExists);
      }
      holds := holds[newId := Hold(a, amount, currency, reference, HoldActive, expiresAt)];
      holdRefs := holdRefs[reference := newId];
      balances := balances[a := b];
      return Ok(newId);
    }

    method ReleaseHold(holdId: Uuid) returns (r: Result<Hold>)
      requires Valid()
      modifies this
      ensures Valid()
      ensures (Tables(), r) == Release(old(Tables()), holdId)
      ensures Increasing(locks)
      ensures Guarded(old(Tables()), Tables(), locks)
    {
      LedgerLaws.ReleaseInv(Tables(), holdId);
      r := ReleaseTx(holdId);
    }

    method ReleaseTx(holdId: Uuid) returns (r: Result<Hold>)
      requires WellFormed(Tables())
      modifies this
      ensures (Tables(), r) == Release(old(Tables()), holdId)
      ensures Increasing(locks)
      ensures Guarded(old(Tables()), Tables(), locks)
    {
      locks := [];
      if holdId !in holds {
        return Err(NotFound);
      }
      locks := [HoldRow(holdId)];
      var h := holds[holdId];
      var freed := LedgerDomain.ReleaseHold(h);
      if freed.Err? {
        return Err(freed.error);
      }
      var (released, changed) := freed.value;
      if !changed {
        return Ok(released);
      }
      locks := locks + [BalanceRow(h.account)];
      var b := balances[h.account];
      b := b.(held := Wrap(b.held - h.amount));
      if b.held < 0 {
        return Err(HeldUnderflow);
      }
      balances := balances[h.account := b];
      holds := holds[holdId := released];
      return Ok(released);
    }

    method PostTransaction(reference: Reference, holdId: Option<Uuid>, specs: seq<PostingSpec>) returns (r: Result<nat>)
      requires Valid()
      modifies this
      ensures Valid()
      ensures (Tables(), r) == Post(old(Tables()), reference, holdId, specs)
      ensures Increasing(locks)
      ensures Guarded(old(Tables()), Tables(), locks)
    {
      locks := [];
      var s := Tables();
      LedgerLaws.PostInv(s, reference, holdId, specs);
      if reference.kind == "" || reference.id == "" {
        return Err(InvalidArgument);
      }
      var resolved := ResolveAll(s, specs);
      if resolved.Err? {
        return Err(resolved.error);
      }
      var legs := resolved.value;
      if reference in entryRefs {
        var same := SamePayload(journal[entryRefs[reference]].legs, legs);
        return if same then Ok(entryRefs[reference]) else Err(DuplicateReference);
      }
      ResolveLegsKnown(s, specs, |specs|);
      var plan, taken := MakePlan(s, reference, holdId, legs);
      locks := taken;
      if plan.Err? {
        return Err(plan.error);
      }
      PlanFacts(s, reference, holdId, legs);
      Enter(reference, holdId, legs, plan.value);
      return Ok(|s.journal|);
    }

    /** Lost the race for the reference: answer from the entry that won it. */
    method ReplayByReference(reference: Reference, specs: seq<PostingSpec>) returns (r: Result<nat>)
      requires WellFormed(Tables()) && reference in entryRefs
      ensures r == Ledger.ReplayByReference(Tables(), reference, specs)
    {
      var resolved := ResolveAll(Tables(), specs);
      if resolved.Err? {
        return Err(resolved.error);
      }
      var same := SamePayload(journal[entryRefs[reference]].legs, resolved.value);
      return if same then Ok(entryRefs[reference]) else Err(DuplicateReference);
    }

    /** PostTransaction when its first look at the reference came too early. */
    method PostOnStaleRead(reference: Reference, holdId: Option<Uuid>, specs: seq<PostingSpec>) returns (r: Result<nat>)
      requires WellFormed(Tables()) && reference in entryRefs
      modifies `locks
      ensures Tables() == old(Tables())
      ensures (Tables(), r) == PostRaced(old(Tables()), reference, holdId, specs)
      ensures Increasing(locks)
    {
      locks := [];
      if reference.kind == "" || reference.id == "" {
        return Err(InvalidArgument);
      }
      var s := Tables();
      var resolved := ResolveAll(s, specs);
      if resolved.Err? {
        return Err(resolved.error);
      }
      ResolveLegsKnown(s, specs, |specs|);
      var plan, taken := MakePlan(s, reference, holdId, resolved.value);
      locks := taken;
      if plan.Err? {
        return Err(plan.error);
      }
      r := ReplayByReference(reference, specs);
    }

    /** Validation, net deltas, the hold, then the balances: everything that can refuse the entry. */
    method MakePlan(s: State, reference: Reference, holdId: Option<Uuid>, legs: seq<Posting>)
      returns (r: Result<Plan>, ghost taken: seq<Lock>)
      requires WellFormed(s) && LegsKnown(s, legs)
      ensures r == PlanPost(s, reference, holdId, legs)
      ensures Increasing(taken)
      ensures r.Ok? ==> taken == (if holdId.Some? then [HoldRow(holdId.value)] else [])
                                 + BalanceRows(r.value.ids, |r.value.ids|) + [EntryRefKey(reference)]
    {
      taken := [];
      var bad := ValidateEntry(legs, s.accounts);
      if bad.Some? {
        return Err(bad.value), taken;
      }
      var net := NetDeltas(legs);
      if net.Err? {
        return Err(net.error), taken;
      }
      if holdId.Some? && holdId.value in s.holds {
        taken := [HoldRow(holdId.value)];
      }
      var captured := Capture(s, reference, holdId, net.value);
      if captured.Err? {
        return Err(captured.error), taken;
      }
      IdsKnown(s, legs);
      var ids := Sums.Sorted(net.value.Keys);
      var after, locked := ApplyBalances(s, captured.value, net.value, ids);
      ghost var all := taken + BalanceRows(ids, locked);
      RowsIncreasing(taken, ids, locked);
      if after.Err? {
        return Err(after.error), all;
      }
      IncreasingAppend(all, EntryRefKey(reference));
      return Ok(Plan(net.value, captured.value, ids, after.value)), all + [EntryRefKey(reference)];
    }

    method Enter(reference: Reference, holdId: Option<Uuid>, legs: seq<Posting>, p: Plan)
      requires PlanHold(Tables(), reference, holdId, p) && PlanBalances(Tables(), legs, p)
      requires locks == (if holdId.Some? then [HoldRow(holdId.value)] else [])
                        + BalanceRows(p.ids, |p.ids|) + [EntryRefKey(reference)]
      modifies this
      ensures Tables() == Commit(old(Tables()), reference, holdId, legs, p)
      ensures locks == old(locks) && Guarded(old(Tables()), Tables(), locks)
    {
      ghost var s := Tables();
      Write(reference, holdId, legs, p);
      CommitGuarded(s, Tables(), reference, holdId, legs, p, locks);
    }

    /** The writes of an accepted entry: journal, hold, balances and one event per affected account. */
    method Write(reference: Reference, holdId: Option<Uuid>, legs: seq<Posting>, p: Plan)
      requires PlanHold(Tables(), reference, holdId, p) && PlanBalances(Tables(), legs, p)
      modifies this
      ensures Tables() == Commit(old(Tables()), reference, holdId, legs, p)
      ensures locks == old(locks)
    {
      assert forall i :: 0 <= i < |p.ids| ==> p.ids[i] in p.ids;
      WriteEvents(p);
      if holdId.Some? {
        holds := holds[holdId.value := p.captured.value];
      }
      entryRefs := entryRefs[reference := |journal|];
      journal := journal + [Entry(reference, legs)];
      WriteBalances(p);
    }

    method WriteBalances(p: Plan)
      requires forall a :: a in p.ids <==> a in p.after
      modifies `balances
      ensures balances == old(balances) + p.after
    {
      for i := 0 to |p.ids|
        invariant balances == Written(old(balances), p, i)
      {
        assert p.ids[i] in p.ids;
        balances := balances[p.ids[i] := p.after[p.ids[i]]];
      }
      WrittenAll(old(balances), p, |p.ids|);
      assert p.ids[..|p.ids|] == p.ids;
    }

    method WriteEvents(p: Plan)
      requires forall i :: 0 <= i < |p.ids| ==> p.ids[i] in accounts && p.ids[i] in p.after
      modifies `outbox
      ensures outbox == old(outbox) + Announce(old(Tables()), p.ids, p.after)
    {
      var s := Tables();
      ghost var events := Announce(s, p.ids, p.after);
      for i := 0 to |p.ids|
        invariant outbox == s.outbox + events[..i]
      {
        assert events[..i + 1] == events[..i] + [events[i]];
        outbox := outbox + [AnnounceOne(s, p.ids[i], p.after[p.ids[i]])];
      }
    }

    /** The sweeper's pass over the expired holds it listed: each is released unless it was captured
        in the meantime, and nothing else changes. */
    method Sweep(listed: seq<Uuid>)
      requires Valid()
      modifies this
      ensures Valid()
      ensures Tables() == SweepAll(old(Tables()), listed, |listed|)
      ensures Settled(Tables(), listed, |listed|)
    {
      ghost var s := Tables();
      for i := 0 to |listed|
        invariant Valid() && Tables() == SweepAll(s, listed, i)
        invariant Settled(Tables(), listed, i)
      {
        SweepStep(s, listed, i);
        var _ := ReleaseHold(listed[i]);
      }
    }
  }

  ghost function SweepAll(s: State, listed: seq<Uuid>, n: nat): (t: State)
    requires LedgerLaws.Inv(s) && n <= |listed|
    ensures LedgerLaws.Inv(t)
  {
    if n == 0 then s
    else
      var before := SweepAll(s, listed, n - 1);
      LedgerLaws.ReleaseInv(before, listed[n - 1]);
      Release(before, listed[n - 1]).0
  }

  /** None of the first n listed holds is still active. */
  ghost predicate Settled(s: State, listed: seq<Uuid>, n: nat)
    requires n <= |listed|
  {
    forall i :: 0 <= i < n && listed[i] in s.holds ==> s.holds[listed[i]].status != HoldActive
  }

  lemma ReleaseSettles(s: State, listed: seq<Uuid>, i: nat)
    requires WellFormed(s) && i < |listed| && Settled(s, listed, i)
    requires Release(s, listed[i]).1 != Err(HeldUnderflow)
    ensures Settled(Release(s, listed[i]).0, listed, i + 1)
  {
  }

  lemma SweepStep(s: State, listed: seq<Uuid>, i: nat)
    requires LedgerLaws.Inv(s) && i < |listed| && Settled(SweepAll(s, listed, i), listed, i)
    ensures Settled(SweepAll(s, listed, i + 1), listed, i + 1)
  {
    LedgerLaws.ReleaseShape(SweepAll(s, listed, i), listed[i]);
    ReleaseSettles(SweepAll(s, listed, i), listed, i);
  }
}

/** Exactly when the ledger grants a hold and accepts a post, and exactly what it then writes. */
module LedgerExact {
  import opened Int64
  import Sums
  import opened LedgerDomain
  import opened Ledger
  import opened LedgerLaws
  import LedgerTheorems

  // ---------------------------------------------------------------- holds

  /** The account can carry the hold: for a customer its free funds cover it, for an internal account
      the sum of its holds stays a 64-bit number. */
  ghost predicate Carries(s: State, a: Uuid, amount: int64, currency: string) {
    && a in s.accounts && a in s.balances && 0 < amount && currency == s.accounts[a].currency
    && (if s.accounts[a].kind == Customer then
          s.accounts[a].status == Active && s.balances[a].held + amount <= s.balances[a].balance
        else s.balances[a].held + amount <= MAX)
  }

  lemma HoldDecides(acct: Account, b: Balance, amount: int64, currency: string)
    requires 0 <= b.held && (acct.kind == Customer ==> Sound(b))
    ensures PlaceHoldError(acct, b, amount, currency).None? <==>
              && 0 < amount && currency == acct.currency
              && (if acct.kind == Customer then acct.status == Active && b.held + amount <= b.balance else b.held + amount <= MAX)
  {
    WrapOnce(b.held + amount);
    if acct.kind == Customer {
      HoldErrorExact(b, amount);
    }
  }

  /** A hold under a new reference is granted if and only if its account can carry it. It is then
      active, its amount is added to held, and nothing else changes; a refusal changes nothing. */
  lemma PlaceHoldExact(s: State, ref: AccountRef, amount: int64, currency: string, reference: Reference, e: int, newId: Uuid)
    requires WellFormed(s) && HoldsOk(s) && HeldOk(s) && reference !in s.holdRefs && newId !in s.holds
    ensures var (t, r) := PlaceHold(s, ref, amount, currency, reference, e, newId);
            && (r.Ok? <==> reference.kind != "" && reference.id != "" && Resolve(s, ref).Ok?
                           && Carries(s, Resolve(s, ref).value, amount, currency))
            && (r.Ok? ==> r.value == newId && Granted(s, t, newId)
                          && t.holds[newId] == Hold(Resolve(s, ref).value, amount, currency, reference, HoldActive, e))
            && (r.Err? ==> t == s)
  {
    if Resolve(s, ref).Ok? {
      var a := Resolve(s, ref).value;
      HeldNonNegative(s, a);
      HoldDecides(s.accounts[a], s.balances[a], amount, currency);
    }
    var (t, r) := PlaceHold(s, ref, amount, currency, reference, e, newId);
    if r.Ok? {
      assert t != s by {
        assert newId in t.holds;
      }
      PlaceHoldShape(s, ref, amount, currency, reference, e, newId);
    }
  }

  // ---------------------------------------------------------------- posts

  ghost predicate NetsFit(legs: seq<Posting>, n: nat)
    requires n <= |legs|
  {
    forall k, a :: 0 <= k <= n ==> Fits(AccountSum(legs[..k], a))
  }

  lemma {:induction false} DeltasDecide(legs: seq<Posting>, n: nat)
    requires n <= |legs|
    ensures Deltas(legs, n).Ok? <==> NetsFit(legs, n)
  {
    if n == 0 {
      assert legs[..0] == [];
    } else {
      DeltasDecide(legs, n - 1);
      var p := legs[n - 1];
      assert legs[..n][..n - 1] == legs[..n - 1];
      assert forall a :: AccountSum(legs[..n], a) == AccountSum(legs[..n - 1], a) + if p.account == a then p.amount else 0;
      if Deltas(legs, n - 1).Ok? {
        DeltasExact(legs, n - 1);
        assert Deltas(legs, n).Ok? <==> Fits(AccountSum(legs[..n], p.account));
        if Deltas(legs, n).Ok? {
          forall k, a | 0 <= k <= n ensures Fits(AccountSum(legs[..k], a)) {
            assert NetsFit(legs, n - 1);
          }
        }
      }
    }
  }

  /** The hold the post names is active, was placed under the same reference, and covers the net debit
      on its account; the most negative debit slips through the unchecked negation. */
  ghost predicate HoldCovers(s: State, reference: Reference, holdId: Option<Uuid>, legs: seq<Posting>) {
    holdId.Some? ==>
      && holdId.value in s.holds
      && var h := s.holds[holdId.value];
      && h.reference == reference && h.status == HoldActive
      && (-(h.amount as int) <= AccountSum(legs, h.account) || AccountSum(legs, h.account) == MIN)
  }

  /** What the post takes out of held on the account. */
  ghost function Freeing(s: State, holdId: Option<Uuid>, a: Uuid): int {
    if holdId.Some? && holdId.value in s.holds && s.holds[holdId.value].account == a then s.holds[holdId.value].amount else 0
  }

  /** The account can bear its net change. */
  ghost predicate Bears(s: State, holdId: Option<Uuid>, legs: seq<Posting>, a: Uuid) {
    && a in s.accounts && a in s.balances
    && Fits(s.balances[a].balance + AccountSum(legs, a))
    && (s.accounts[a].kind == Customer ==>
          s.balances[a].held - Freeing(s, holdId, a) <= s.balances[a].balance + AccountSum(legs, a))
  }

  ghost predicate Postable(s: State, reference: Reference, holdId: Option<Uuid>, legs: seq<Posting>) {
    && Acceptable(legs, s.accounts) && NetsFit(legs, |legs|) && HoldCovers(s, reference, holdId, legs)
    && forall a :: Touches(legs, a) ==> Bears(s, holdId, legs, a)
  }

  lemma CaptureDecides(s: State, reference: Reference, holdId: Option<Uuid>, legs: seq<Posting>)
    requires HoldsOk(s) && Deltas(legs, |legs|).Ok?
    ensures var r := Capture(s, reference, holdId, Deltas(legs, |legs|).value);
            && (r.Ok? <==> HoldCovers(s, reference, holdId, legs))
            && (r.Ok? ==> PlanHold(s, reference, holdId, Plan(map[], r.value, [], map[])))
            && (r.Ok? ==> forall a :: HeldAdjust(r.value, a) == -Freeing(s, holdId, a))
  {
    DeltasExact(legs, |legs|);
    assert legs[..|legs|] == legs;
    if holdId.Some? && holdId.value in s.holds {
      var h := s.holds[holdId.value];
      assert AccountSum(legs, h.account) == GetOr(Deltas(legs, |legs|).value, h.account, 0);
    }
  }

  lemma ApplyDecides(b: Balance, kind: AccountType, captured: Option<Hold>, a: Uuid, delta: int64)
    requires 0 <= b.held + HeldAdjust(captured, a) <= b.held && (kind == Customer ==> Sound(b))
    ensures var r := ApplyOne(b, kind, captured, a, delta);
            && (r.Ok? <==> Fits(b.balance + delta)
                           && (kind == Customer ==> b.held + HeldAdjust(captured, a) <= b.balance + delta))
            && (r.Ok? ==> r.value == Balance(b.balance + delta, b.held + HeldAdjust(captured, a), b.version + 1))
  {
    if kind == Customer {
      ApplyPostingExact(b, b.held + HeldAdjust(captured, a), delta);
    }
  }

  lemma {:induction false} ApplyAllDecides(s: State, captured: Option<Hold>, delta: map<Uuid, int64>, ids: seq<Uuid>, n: nat)
    requires WellFormed(s) && n <= |ids|
    requires forall i :: 0 <= i < |ids| ==> ids[i] in delta && ids[i] in s.accounts
    ensures ApplyAll(s, captured, delta, ids, n).Ok? <==>
              forall i :: 0 <= i < n ==> ApplyOne(s.balances[ids[i]], s.accounts[ids[i]].kind, captured, ids[i], delta[ids[i]]).Ok?
  {
    if n > 0 {
      ApplyAllDecides(s, captured, delta, ids, n - 1);
    }
  }

  lemma AffectedBear(s: State, reference: Reference, holdId: Option<Uuid>, legs: seq<Posting>, captured: Option<Hold>)
    requires WellFormed(s) && HoldsOk(s) && HeldOk(s) && LegsKnown(s, legs) && Deltas(legs, |legs|).Ok?
    requires PlanHold(s, reference, holdId, Plan(map[], captured, [], map[]))
    requires forall a :: HeldAdjust(captured, a) == -Freeing(s, holdId, a)
    ensures var delta := Deltas(legs, |legs|).value;
            forall a :: a in delta && a in s.accounts ==>
              (ApplyOne(s.balances[a], s.accounts[a].kind, captured, a, delta[a]).Ok? <==> Bears(s, holdId, legs, a))
  {
    var delta := Deltas(legs, |legs|).value;
    DeltasExact(legs, |legs|);
    assert legs[..|legs|] == legs;
    forall a | a in delta && a in s.accounts
      ensures ApplyOne(s.balances[a], s.accounts[a].kind, captured, a, delta[a]).Ok? <==> Bears(s, holdId, legs, a)
    {
      AdjustWithin(s, reference, holdId, Plan(map[], captured, [], map[]), a);
      assert AccountSum(legs, a) == GetOr(delta, a, 0);
      OneBears(s, holdId, legs, captured, a, delta[a]);
    }
  }

  lemma OneBears(s: State, holdId: Option<Uuid>, legs: seq<Posting>, captured: Option<Hold>, a: Uuid, delta: int64)
    requires a in s.accounts && a in s.balances && delta == AccountSum(legs, a)
    requires HeldAdjust(captured, a) == -Freeing(s, holdId, a)
    requires 0 <= s.balances[a].held + HeldAdjust(captured, a) <= s.balances[a].held
    requires s.accounts[a].kind == Customer ==> Sound(s.balances[a])
    ensures ApplyOne(s.balances[a], s.accounts[a].kind, captured, a, delta).Ok? <==> Bears(s, holdId, legs, a)
  {
    ApplyDecides(s.balances[a], s.accounts[a].kind, captured, a, delta);
  }

  lemma PlanDecides(s: State, reference: Reference, holdId: Option<Uuid>, legs: seq<Posting>)
    requires WellFormed(s) && HoldsOk(s) && HeldOk(s) && LegsKnown(s, legs)
    ensures PlanPost(s, reference, holdId, legs).Ok? <==> Postable(s, reference, holdId, legs)
  {
    EntryErrorExact(legs, s.accounts);
    DeltasDecide(legs, |legs|);
    if EntryError(legs, s.accounts).None? && Deltas(legs, |legs|).Ok? {
      CaptureDecides(s, reference, holdId, legs);
      var delta := Deltas(legs, |legs|).value;
      var captured := Capture(s, reference, holdId, delta);
      if captured.Ok? {
        IdsKnown(s, legs);
        AffectedBear(s, reference, holdId, legs, captured.value);
        ApplyAllDecides(s, captured.value, delta, Sums.Sorted(delta.Keys), |Sums.Sorted(delta.Keys)|);
        EveryAffected(s, holdId, legs, captured.value);
      }
    }
  }

  /** The affected ids are the touched accounts. */
  lemma EveryAffected(s: State, holdId: Option<Uuid>, legs: seq<Posting>, captured: Option<Hold>)
    requires WellFormed(s) && LegsKnown(s, legs) && Deltas(legs, |legs|).Ok?
    requires var delta := Deltas(legs, |legs|).value;
             forall a :: a in delta && a in s.accounts ==>
               (ApplyOne(s.balances[a], s.accounts[a].kind, captured, a, delta[a]).Ok? <==> Bears(s, holdId, legs, a))
    ensures var delta := Deltas(legs, |legs|).value;
            var ids := Sums.Sorted(delta.Keys);
            && (forall i :: 0 <= i < |ids| ==> ids[i] in delta && ids[i] in s.accounts)
            && ((forall a :: Touches(legs, a) ==> Bears(s, holdId, legs, a)) <==>
                (forall i :: 0 <= i < |ids| ==> ApplyOne(s.balances[ids[i]], s.accounts[ids[i]].kind, captured, ids[i], delta[ids[i]]).Ok?))
  {
    IdsKnown(s, legs);
    var delta := Deltas(legs, |legs|).value;
    var ids := Sums.Sorted(delta.Keys);
    assert forall i :: 0 <= i < |ids| ==> Touches(legs, ids[i]) by {
      assert forall i :: 0 <= i < |ids| ==> ids[i] in ids;
    }
    forall a | Touches(legs, a) ensures exists i :: 0 <= i < |ids| && ids[i] == a {
      assert a in ids;
    }
  }

  /** A post under a new reference is accepted if and only if its accounts resolve, the entry is
      acceptable, its hold covers the debit and every touched account can bear its net change. */
  lemma PostExact(s: State, reference: Reference, holdId: Option<Uuid>, specs: seq<PostingSpec>)
    requires WellFormed(s) && HoldsOk(s) && HeldOk(s) && reference !in s.entryRefs
    ensures Post(s, reference, holdId, specs).1.Ok? <==>
              && reference.kind != "" && reference.id != "" && ResolveLegs(s, specs, |specs|).Ok?
              && Postable(s, reference, holdId, ResolveLegs(s, specs, |specs|).value)
    ensures Post(s, reference, holdId, specs).1.Err? ==> Post(s, reference, holdId, specs).0 == s
  {
    if ResolveLegs(s, specs, |specs|).Ok? {
      ResolveLegsKnown(s, specs, |specs|);
      PlanDecides(s, reference, holdId, ResolveLegs(s, specs, |specs|).value);
    }
  }

  lemma PostCommits(s: State, reference: Reference, holdId: Option<Uuid>, specs: seq<PostingSpec>)
    requires WellFormed(s) && reference !in s.entryRefs && Post(s, reference, holdId, specs).1.Ok?
    ensures ResolveLegs(s, specs, |specs|).Ok?
    ensures var legs := ResolveLegs(s, specs, |specs|).value;
            && LegsKnown(s, legs) && PlanPost(s, reference, holdId, legs).Ok?
            && Committed(s, reference, holdId, legs, PlanPost(s, reference, holdId, legs).value, Post(s, reference, holdId, specs).0)
  {
    PostShape(s, reference, holdId, specs);
    assert reference in Post(s, reference, holdId, specs).0.entryRefs;
  }

  /** What an accepted post leaves: one more entry with exactly its legs, every touched balance moved by
      its net sum, freed of the hold and one version on, every other balance as it was. */
  lemma PostEffect(s: State, reference: Reference, holdId: Option<Uuid>, specs: seq<PostingSpec>)
    requires WellFormed(s) && HoldsOk(s) && HeldOk(s) && reference !in s.entryRefs && Post(s, reference, holdId, specs).1.Ok?
    ensures ResolveLegs(s, specs, |specs|).Ok?
    ensures var t := Post(s, reference, holdId, specs).0;
            var legs := ResolveLegs(s, specs, |specs|).value;
            && t.journal == s.journal + [Entry(reference, legs)] && t.accounts == s.accounts
            && t.holds == HoldsAfter(s, holdId)
            && (forall a :: a in s.balances ==> a in t.balances && BalanceMoved(s, holdId, legs, a, t.balances[a]))
  {
    PostCommits(s, reference, holdId, specs);
    var t := Post(s, reference, holdId, specs).0;
    var legs := ResolveLegs(s, specs, |specs|).value;
    var p := PlanPost(s, reference, holdId, legs).value;
    forall a | a in s.balances ensures a in t.balances && BalanceMoved(s, holdId, legs, a, t.balances[a]) {
      MovedOne(s, reference, holdId, legs, p, t, a);
    }
  }

  ghost function HoldsAfter(s: State, holdId: Option<Uuid>): map<Uuid, Hold> {
    if holdId.Some? && holdId.value in s.holds then s.holds[holdId.value := s.holds[holdId.value].(status := HoldCaptured)]
    else s.holds
  }

  ghost predicate BalanceMoved(s: State, holdId: Option<Uuid>, legs: seq<Posting>, a: Uuid, after: Balance)
    requires a in s.balances
  {
    var b := s.balances[a];
    if Touches(legs, a) then
      && after.balance == b.balance + AccountSum(legs, a) && after.held == b.held - Freeing(s, holdId, a)
      && after.version == b.version + 1
    else after == b
  }

  lemma MovedOne(s: State, reference: Reference, holdId: Option<Uuid>, legs: seq<Posting>, p: Plan, t: State, a: Uuid)
    requires PlanHold(s, reference, holdId, p) && PlanBalances(s, legs, p) && t.balances == s.balances + p.after
    requires WellFormed(s) && HoldsOk(s) && HeldOk(s) && a in s.balances
    ensures a in t.balances && BalanceMoved(s, holdId, legs, a, t.balances[a])
  {
    if Touches(legs, a) {
      AdjustWithin(s, reference, holdId, p, a);
      MovedTouched(s, reference, holdId, legs, p, a);
    }
  }

  lemma MovedTouched(s: State, reference: Reference, holdId: Option<Uuid>, legs: seq<Posting>, p: Plan, a: Uuid)
    requires PlanHold(s, reference, holdId, p) && a in s.balances && a in s.accounts && a in p.after && Touches(legs, a)
    requires Fits(AccountSum(legs, a))
    requires ApplyOne(s.balances[a], s.accounts[a].kind, p.captured, a, AccountSum(legs, a)) == Ok(p.after[a])
    requires 0 <= s.balances[a].held + HeldAdjust(p.captured, a) <= s.balances[a].held
    requires s.accounts[a].kind == Customer ==> Sound(s.balances[a])
    ensures BalanceMoved(s, holdId, legs, a, p.after[a])
  {
    ApplyDecides(s.balances[a], s.accounts[a].kind, p.captured, a, AccountSum(legs, a));
  }

  // ---------------------------------------------------------------- stranding

  /** A post strands a hold exactly if it captures it with no leg on its account, and frees none. */
  lemma PostStrands(s: State, reference: Reference, holdId: Option<Uuid>, specs: seq<PostingSpec>, h: Uuid)
    requires WellFormed(s) && HoldsOk(s) && HeldOk(s) && reference !in s.entryRefs && h in s.holds
    requires Post(s, reference, holdId, specs).1.Ok?
    ensures ResolveLegs(s, specs, |specs|).Ok? && h in Post(s, reference, holdId, specs).0.holds
    ensures LedgerTheorems.Stranded(Post(s, reference, holdId, specs).0, h) <==>
              || LedgerTheorems.Stranded(s, h)
              || (holdId == Some(h) && !Touches(ResolveLegs(s, specs, |specs|).value, s.holds[h].account))
  {
    PostCommits(s, reference, holdId, specs);
    var legs := ResolveLegs(s, specs, |specs|).value;
    var p := PlanPost(s, reference, holdId, legs).value;
    CommitStrands(s, reference, holdId, legs, p, Post(s, reference, holdId, specs).0, h);
  }

  lemma CommitStrands(s: State, reference: Reference, holdId: Option<Uuid>, legs: seq<Posting>, p: Plan, t: State, h: Uuid)
    requires Committed(s, reference, holdId, legs, p, t) && WellFormed(s) && HoldsOk(s) && h in s.holds
    ensures h in t.holds
    ensures LedgerTheorems.Stranded(t, h) <==>
              LedgerTheorems.Stranded(s, h) || (holdId == Some(h) && !Touches(legs, s.holds[h].account))
  {
    assert t.journal[|s.journal|] == Entry(reference, legs);
    assert forall i :: 0 <= i < |s.journal| ==> t.journal[i] == s.journal[i];
  }

  /** One unit there and back on a single account. */
  function ThereAndBack(a: Uuid, c: string): seq<PostingSpec> {
    [PostingSpec(AccountRef("", "", Some(a)), 1, c), PostingSpec(AccountRef("", "", Some(a)), -1, c)]
  }

  function BackLegs(a: Uuid, c: string): seq<Posting> {
    [Posting(a, 1, c), Posting(a, -1, c)]
  }

  lemma BackPrefixes(a: Uuid, c: string)
    ensures BackLegs(a, c)[..0] == [] && BackLegs(a, c)[..1] == [Posting(a, 1, c)] && BackLegs(a, c)[..2] == BackLegs(a, c)
  {
  }

  lemma BackSums(a: Uuid, c: string)
    ensures forall x :: AccountSum(BackLegs(a, c), x) == 0
    ensures forall x :: CurrencySum(BackLegs(a, c), x) == 0
    ensures forall x :: 0 <= AccountSum(BackLegs(a, c)[..1], x) <= 1
    ensures forall x :: 0 <= CurrencySum(BackLegs(a, c)[..1], x) <= 1
  {
    BackPrefixes(a, c);
    var there := [Posting(a, 1, c)];
    assert there[..0] == [];
    forall x ensures AccountSum(there, x) == (if x == a then 1 else 0) && AccountSum(BackLegs(a, c), x) == 0 {
    }
    forall x ensures CurrencySum(there, x) == (if x == c then 1 else 0) && CurrencySum(BackLegs(a, c), x) == 0 {
    }
  }

  lemma BackFits(a: Uuid, c: string)
    ensures NetsFit(BackLegs(a, c), 2) && PrefixesFit(BackLegs(a, c), 2)
  {
    BackPrefixes(a, c);
    BackSums(a, c);
  }

  lemma BackResolves(s: State, a: Uuid, c: string)
    requires a in s.accounts
    ensures ResolveLegs(s, ThereAndBack(a, c), 2) == Ok(BackLegs(a, c))
  {
    var specs := ThereAndBack(a, c);
    assert Resolve(s, specs[0].ref) == Ok(a) && Resolve(s, specs[1].ref) == Ok(a);
    assert ResolveLegs(s, specs, 0) == Ok([]);
    assert ResolveLegs(s, specs, 1) == Ok([] + [Posting(a, 1, c)]);
    assert [] + [Posting(a, 1, c)] + [Posting(a, -1, c)] == BackLegs(a, c);
  }

  /** Entries can be made on the account. */
  ghost predicate Open(s: State, a: Uuid) {
    a in s.accounts && (s.accounts[a].kind == Customer ==> s.accounts[a].status == Active)
  }

  lemma BackAcceptable(s: State, a: Uuid)
    requires AccountsOk(s) && Open(s, a)
    ensures Acceptable(BackLegs(a, s.accounts[a].currency), s.accounts)
  {
    BackSums(a, s.accounts[a].currency);
    BackFits(a, s.accounts[a].currency);
    var legs := BackLegs(a, s.accounts[a].currency);
    assert forall i :: 0 <= i < |legs| ==> SoundLeg(legs[i], s.accounts);
  }

  lemma BackBears(s: State, h: Uuid, a: Uuid)
    requires WellFormed(s) && HoldsOk(s) && HeldOk(s) && a in s.accounts && h in s.holds && s.holds[h].account != a
    ensures var legs := BackLegs(a, s.accounts[a].currency);
            forall x :: Touches(legs, x) ==> Bears(s, Some(h), legs, x)
  {
    BackSums(a, s.accounts[a].currency);
  }

  lemma BackPostable(s: State, h: Uuid, a: Uuid)
    requires WellFormed(s) && AccountsOk(s) && HoldsOk(s) && HeldOk(s) && Open(s, a)
    requires h in s.holds && s.holds[h].status == HoldActive && s.holds[h].account != a
    ensures Postable(s, s.holds[h].reference, Some(h), BackLegs(a, s.accounts[a].currency))
  {
    BackSums(a, s.accounts[a].currency);
    BackFits(a, s.accounts[a].currency);
    BackAcceptable(s, a);
    BackBears(s, h, a);
  }

  lemma CapturedElsewhere(s: State, h: Uuid, specs: seq<PostingSpec>, legs: seq<Posting>)
    requires WellFormed(s) && HoldsOk(s) && HeldOk(s) && h in s.holds && s.holds[h].reference !in s.entryRefs
    requires s.holds[h].reference.kind != "" && s.holds[h].reference.id != "" && ResolveLegs(s, specs, |specs|) == Ok(legs)
    requires Postable(s, s.holds[h].reference, Some(h), legs) && !Touches(legs, s.holds[h].account)
    ensures var (t, r) := Post(s, s.holds[h].reference, Some(h), specs);
            r.Ok? && h in t.holds && LedgerTheorems.Stranded(t, h)
  {
    PostExact(s, s.holds[h].reference, Some(h), specs);
    PostStrands(s, s.holds[h].reference, Some(h), specs, h);
  }

  /** Any active hold can be stranded, by any open account but its own: a post under its reference that
      captures it with legs only there goes through. */
  lemma AnyHoldCanStrand(s: State, h: Uuid, a: Uuid)
    requires WellFormed(s) && AccountsOk(s) && HoldsOk(s) && HeldOk(s) && Open(s, a)
    requires h in s.holds && s.holds[h].status == HoldActive && s.holds[h].account != a
    requires var r := s.holds[h].reference; r.kind != "" && r.id != "" && r !in s.entryRefs
    ensures exists specs :: var (t, r) := Post(s, s.holds[h].reference, Some(h), specs);
                            r.Ok? && h in t.holds && LedgerTheorems.Stranded(t, h)
  {
    BackResolves(s, a, s.accounts[a].currency);
    BackPostable(s, h, a);
    CapturedElsewhere(s, h, ThereAndBack(a, s.accounts[a].currency), BackLegs(a, s.accounts[a].currency));
  }

  lemma PostIsStep(s: State, reference: Reference, h: Uuid, specs: seq<PostingSpec>)
    requires WellFormed(s)
    ensures Step(s, OpPost(reference, Some(h), specs)) == Post(s, reference, Some(h), specs).0
  {
  }

  lemma PostReachable(s: State, reference: Reference, h: Uuid, specs: seq<PostingSpec>)
    requires LedgerTheorems.Reachable(s) && WellFormed(s)
    ensures LedgerTheorems.Reachable(Post(s, reference, Some(h), specs).0)
  {
    LedgerTheorems.ReachableNext(s, OpPost(reference, Some(h), specs));
    PostIsStep(s, reference, h, specs);
  }

  lemma SeedCarries()
    ensures var s := Seed();
            && Resolve(s, AccountRef("", "cash_in_kzt", None)) == Ok(0) && Carries(s, 0, 1, "KZT") && Open(s, 2)
            && s.holds == map[] && s.holdRefs == map[] && s.entryRefs == map[]
  {
  }

  lemma HoldStep(s: State, ref: AccountRef, amount: int64, currency: string, reference: Reference, newId: Uuid)
    requires WellFormed(s) && HoldsOk(s) && HeldOk(s) && reference !in s.holdRefs && newId !in s.holds
    requires reference.kind != "" && reference.id != ""
    requires Resolve(s, ref).Ok? && Carries(s, Resolve(s, ref).value, amount, currency)
    ensures var t := Step(s, OpPlaceHold(ref, amount, currency, reference, 0, newId));
            && newId in t.holds && t.holds[newId] == Hold(Resolve(s, ref).value, amount, currency, reference, HoldActive, 0)
            && t.accounts == s.accounts && t.entryRefs == s.entryRefs
  {
    PlaceHoldExact(s, ref, amount, currency, reference, 0, newId);
  }

  lemma EarmarkedByHold() returns (s: State)
    ensures LedgerTheorems.Reachable(s) && 0 in s.holds && s.holds[0] == Hold(0, 1, "KZT", Reference("order", "1"), HoldActive, 0)
    ensures Open(s, 2) && Reference("order", "1") !in s.entryRefs
  {
    LedgerTheorems.SeedReachable();
    LedgerTheorems.ReachableTables(Seed());
    SeedCarries();
    var cash, reference := AccountRef("", "cash_in_kzt", None), Reference("order", "1");
    HoldStep(Seed(), cash, 1, "KZT", reference, 0);
    LedgerTheorems.ReachableNext(Seed(), OpPlaceHold(cash, 1, "KZT", reference, 0, 0));
    s := Step(Seed(), OpPlaceHold(cash, 1, "KZT", reference, 0, 0));
  }

  /** So two operations from the seeded chart on strand a hold. */
  lemma StrandedReachable()
    ensures exists s, h :: LedgerTheorems.Reachable(s) && h in s.holds && LedgerTheorems.Stranded(s, h)
  {
    var s := EarmarkedByHold();
    LedgerTheorems.ReachableTables(s);
    AnyHoldCanStrand(s, 0, 2);
    var specs :| var (t, r) := Post(s, s.holds[0].reference, Some(0), specs);
                 r.Ok? && 0 in t.holds && LedgerTheorems.Stranded(t, 0);
    PostReachable(s, s.holds[0].reference, 0, specs);
  }

  // ---------------------------------------------------------------- concurrent duplicates

  /** A duplicate that lost the race changes nothing and gets the winner's entry if and only if the same
      post would still be accepted on today's balances and holds and has the winner's payload; that is
      then the answer of a sequential replay. */
  lemma RacedExact(s: State, reference: Reference, holdId: Option<Uuid>, specs: seq<PostingSpec>)
    requires WellFormed(s) && HoldsOk(s) && HeldOk(s) && reference in s.entryRefs && reference.kind != "" && reference.id != ""
    ensures PostRaced(s, reference, holdId, specs).0 == s
    ensures PostRaced(s, reference, holdId, specs).1.Ok? <==>
              && ResolveLegs(s, specs, |specs|).Ok?
              && var legs := ResolveLegs(s, specs, |specs|).value;
              && Postable(s, reference, holdId, legs)
              && multiset(s.journal[s.entryRefs[reference]].legs) == multiset(legs)
    ensures PostRaced(s, reference, holdId, specs).1.Ok? ==>
              PostRaced(s, reference, holdId, specs) == Post(s, reference, holdId, specs)
  {
    if ResolveLegs(s, specs, |specs|).Ok? {
      ResolveLegsKnown(s, specs, |specs|);
      PlanDecides(s, reference, holdId, ResolveLegs(s, specs, |specs|).value);
    }
  }

  /** So a duplicate that names the hold its winner captured is refused, where a later replay of the same
      request is answered with the entry. */
  lemma RacedHoldRefused(s: State, reference: Reference, h: Uuid, specs: seq<PostingSpec>)
    requires WellFormed(s) && HoldsOk(s) && HeldOk(s) && reference in s.entryRefs && reference.kind != "" && reference.id != ""
    requires h in s.holds && s.holds[h].status == HoldCaptured
    requires ResolveLegs(s, specs, |specs|).Ok?
    requires multiset(s.journal[s.entryRefs[reference]].legs) == multiset(ResolveLegs(s, specs, |specs|).value)
    ensures PostRaced(s, reference, Some(h), specs).1.Err?
    ensures Post(s, reference, Some(h), specs) == (s, Ok(s.entryRefs[reference]))
  {
    RacedExact(s, reference, Some(h), specs);
  }
}

/** The account service's balance read model, fed by the ledger's events in any order. */
module Projection {
  import Int64
  import LedgerDomain
  import opened Ledger
  import opened LedgerLaws

  datatype Snapshot = Snapshot(balance: Int64.int64, version: nat)

  type Table = map<string, Snapshot>

  /** One delivery: internal accounts are skipped, and only a strictly newer version overwrites. */
  function Project(t: Table, e: TransactionPosted): Table {
    if e.externalId == "" then t
    else if e.externalId in t && e.version <= t[e.externalId].version then t
    else t[e.externalId := Snapshot(e.balanceAfter, e.version)]
  }

  function ProjectAll(t: Table, es: seq<TransactionPosted>): Table {
    if es == [] then t else Project(ProjectAll(t, es[..|es| - 1]), es[|es| - 1])
  }

  class ReadModel {
    var balances: Table

    constructor ()
      ensures balances == map[]
    {
      balances := map[];
    }

    method ApplyProjection(e: TransactionPosted) returns (written: nat)
      modifies this
      ensures balances == Project(old(balances), e)
      ensures written == if balances == old(balances) then 0 else 1
    {
      if e.externalId == "" {
        return 0;
      }
      written := UpsertBalanceGuarded(e.externalId, e.balanceAfter, e.version);
    }

    method UpsertBalanceGuarded(account: string, balance: Int64.int64, version: nat) returns (n: nat)
      modifies this
      ensures n == if account in old(balances) && version <= old(balances)[account].version then 0 else 1
      ensures balances == if n == 0 then old(balances) else old(balances)[account := Snapshot(balance, version)]
      ensures n == 1 ==> balances != old(balances)
    {
      if account !in balances {
        balances := balances[account := Snapshot(balance, version)];
        return 1;
      }
      if balances[account].version < version {
        balances := balances[account := Snapshot(balance, version)];
        assert balances[account] != old(balances)[account];
        return 1;
      }
      return 0;
    }

    method Consume(es: seq<TransactionPosted>)
      modifies this
      ensures balances == ProjectAll(old(balances), es)
    {
      for i := 0 to |es|
        invariant balances == ProjectAll(old(balances), es[..i])
      {
        var written := ApplyProjection(es[i]);
        assert es[..i + 1][..i] == es[..i];
      }
      assert es[..|es|] == es;
    }
  }

  // ---------------------------------------------------------------- the newest delivered event wins

  predicate Delivered(es: seq<TransactionPosted>, e: TransactionPosted) {
    exists i :: 0 <= i < |es| && es[i] == e
  }

  /** The row is one of the delivered events of the account, and none of them is newer. */
  ghost predicate Newest(es: seq<TransactionPosted>, x: string, row: Snapshot) {
    && (exists e :: Delivered(es, e) && e.externalId == x && e.balanceAfter == row.balance && e.version == row.version)
    && (forall e :: Delivered(es, e) && e.externalId == x ==> e.version <= row.version)
  }

  lemma {:induction false} NewestWins(es: seq<TransactionPosted>, x: string)
    requires x != ""
    ensures x in ProjectAll(map[], es) <==> exists e :: Delivered(es, e) && e.externalId == x
    ensures x in ProjectAll(map[], es) ==> Newest(es, x, ProjectAll(map[], es)[x])
  {
    if es != [] {
      var init, last := es[..|es| - 1], es[|es| - 1];
      NewestWins(init, x);
      DeliveredSnoc(es);
      assert Delivered(es, last);
    }
  }

  lemma DeliveredSnoc(es: seq<TransactionPosted>)
    requires es != []
    ensures forall e :: Delivered(es, e) <==> Delivered(es[..|es| - 1], e) || e == es[|es| - 1]
  {
    forall e ensures Delivered(es, e) <==> Delivered(es[..|es| - 1], e) || e == es[|es| - 1] {
      var init := es[..|es| - 1];
      if Delivered(init, e) {
        var i :| 0 <= i < |init| && init[i] == e;
        assert es[i] == e;
      }
      if Delivered(es, e) && e != es[|es| - 1] {
        var i :| 0 <= i < |es| && es[i] == e;
        assert init[i] == e;
      }
    }
  }

  lemma OnlyCustomers(es: seq<TransactionPosted>)
    ensures "" !in ProjectAll(map[], es)
  {
  }

  /** A version never goes back, whatever is delivered next. */
  lemma NeverBackwards(t: Table, e: TransactionPosted, x: string)
    requires x in t
    ensures x in Project(t, e) && t[x].version <= Project(t, e)[x].version
    ensures Project(t, e)[x].version == t[x].version ==> Project(t, e)[x] == t[x]
  {
  }

  /** Over any further deliveries a row stays, its version never falls, and the row only changes with
      its version. */
  lemma {:induction false} VersionsNeverFall(t: Table, es: seq<TransactionPosted>, x: string)
    requires x in t
    ensures x in ProjectAll(t, es) && t[x].version <= ProjectAll(t, es)[x].version
    ensures ProjectAll(t, es)[x].version == t[x].version ==> ProjectAll(t, es)[x] == t[x]
  {
    if es != [] {
      VersionsNeverFall(t, es[..|es| - 1], x);
      NeverBackwards(ProjectAll(t, es[..|es| - 1]), es[|es| - 1], x);
    }
  }

  // ---------------------------------------------------------------- agreement with the ledger

  /** Every delivery is of an event the ledger has announced. */
  ghost predicate FromLedger(es: seq<TransactionPosted>, s: State) {
    forall e :: Delivered(es, e) ==> e in s.outbox
  }

  function Current(s: State, a: LedgerDomain.Uuid): Snapshot
    requires a in s.balances
  {
    Snapshot(s.balances[a].balance, s.balances[a].version)
  }

  /** The ledger's tables from the seed on, one transaction after the other. */
  ghost predicate Trace(states: seq<State>) {
    && states != [] && states[0] == Seed()
    && forall i :: 0 < i < |states| ==> Follows(states[i - 1], states[i])
  }

  ghost predicate Follows(s: State, t: State) {
    WellFormed(s) && exists op :: t == Step(s, op)
  }

  /** At most one entry is appended; without one, no version moves, and a new row has none. */
  ghost predicate OneEntry(s: State, t: State) {
    && (t.journal == s.journal || (|t.journal| == |s.journal| + 1 && t.journal == s.journal + [t.journal[|s.journal|]]
                                   && t.balances.Keys == s.balances.Keys))
    && (t.journal == s.journal ==> forall a :: a in t.balances ==>
          if a in s.balances then t.balances[a].version == s.balances[a].version else t.balances[a].version == 0)
  }

  lemma PostOneEntry(s: State, r: LedgerDomain.Reference, h: Int64.Option<LedgerDomain.Uuid>, specs: seq<PostingSpec>)
    requires WellFormed(s)
    ensures OneEntry(s, Post(s, r, h, specs).0)
  {
    PostShape(s, r, h, specs);
  }

  lemma OpenOneEntry(s: State, x: string, c: string, newId: LedgerDomain.Uuid)
    requires WellFormed(s)
    ensures OneEntry(s, CreateAccount(s, x, c, newId).0)
  {
    CreateAccountWrites(s, x, c, newId);
  }

  lemma ReleaseOneEntry(s: State, h: LedgerDomain.Uuid)
    requires WellFormed(s)
    ensures OneEntry(s, Release(s, h).0)
  {
  }

  lemma HoldOneEntry(s: State, ref: AccountRef, amount: Int64.int64, c: string, r: LedgerDomain.Reference, e: int,
                     newId: LedgerDomain.Uuid)
    requires WellFormed(s)
    ensures OneEntry(s, PlaceHold(s, ref, amount, c, r, e, newId).0)
  {
    PlaceHoldWrites(s, ref, amount, c, r, e, newId);
  }

  lemma StepOneEntry(s: State, op: Op)
    requires WellFormed(s)
    ensures OneEntry(s, Step(s, op))
  {
    match op
    case OpCreateAccount(x, c, f) => OpenOneEntry(s, x, c, f);
    case OpPlaceHold(ref, amount, c, r, e, f) => HoldOneEntry(s, ref, amount, c, r, e, f);
    case OpRelease(h) => ReleaseOneEntry(s, h);
    case OpPost(r, h, specs) => PostOneEntry(s, r, h, specs);
    case OpSetStatus(a, st) =>
  }

  /** One transaction adds at most one version to an account and rewrites no older one. */
  lemma HistoryStep(s: State, t: State, a: LedgerDomain.Uuid, v: nat)
    requires BalancesOk(s) && BalancesOk(t) && OneEntry(s, t) && a in t.balances && v <= t.balances[a].version
    ensures v == t.balances[a].version
            || (a in s.balances && v <= s.balances[a].version && BalanceAt(t.journal, a, v) == BalanceAt(s.journal, a, v))
  {
    if t.journal != s.journal && v != t.balances[a].version {
      Appended(s.journal, t.journal[|s.journal|]);
      HistoryStable(s.journal, t.journal[|s.journal|], a, v);
    }
  }

  lemma {:induction false} TraceInv(states: seq<State>, n: nat)
    requires Trace(states) && n < |states|
    ensures Inv(states[n])
  {
    if n == 0 {
      SeedInv();
    } else {
      TraceInv(states, n - 1);
      assert Follows(states[n - 1], states[n]);
      var op :| states[n] == Step(states[n - 1], op);
      StepInv(states[n - 1], op);
    }
  }

  /** What matters here of a trace: the balance rows and how they change. */
  ghost predicate Recorded(states: seq<State>) {
    && states != []
    && (forall i :: 0 <= i < |states| ==> BalancesOk(states[i]))
    && (forall i :: 0 < i < |states| ==> OneEntry(states[i - 1], states[i]))
    && (forall a :: a in states[0].balances ==> states[0].balances[a].version == 0)
  }

  lemma TraceRecorded(states: seq<State>)
    requires Trace(states)
    ensures Recorded(states)
  {
    forall i | 0 <= i < |states| ensures BalancesOk(states[i]) {
      TraceInv(states, i);
    }
    forall i | 0 < i < |states| ensures OneEntry(states[i - 1], states[i]) {
      assert Follows(states[i - 1], states[i]);
      var op :| states[i] == Step(states[i - 1], op);
      StepOneEntry(states[i - 1], op);
    }
  }

  /** The pair was the account's balance row at some moment. */
  ghost predicate Had(states: seq<State>, a: LedgerDomain.Uuid, row: Snapshot) {
    exists k :: 0 <= k < |states| && a in states[k].balances && Current(states[k], a) == row
  }

  lemma CurrentIsHistory(s: State, a: LedgerDomain.Uuid)
    requires BalancesOk(s) && a in s.balances
    ensures s.balances[a].balance == BalanceAt(s.journal, a, s.balances[a].version)
  {
  }

  /** Every version an account has gone through was its row at some moment. */
  lemma {:induction false} EveryVersionWasReal(states: seq<State>, n: nat, a: LedgerDomain.Uuid, v: nat)
    requires Recorded(states) && n < |states| && a in states[n].balances && v <= states[n].balances[a].version
    ensures Int64.Fits(BalanceAt(states[n].journal, a, v))
    ensures Had(states, a, Snapshot(BalanceAt(states[n].journal, a, v), v))
  {
    if v == states[n].balances[a].version {
      CurrentIsHistory(states[n], a);
      assert Current(states[n], a) == Snapshot(BalanceAt(states[n].journal, a, v), v);
    } else {
      HistoryStep(states[n - 1], states[n], a, v);
      EveryVersionWasReal(states, n - 1, a, v);
    }
  }

  /** What the read model shows of a customer is always a pair the ledger really had. */
  lemma AlwaysReal(states: seq<State>, es: seq<TransactionPosted>, x: string)
    requires Trace(states) && FromLedger(es, states[|states| - 1]) && x in ProjectAll(map[], es)
    ensures var s := states[|states| - 1];
            x in s.byExternal && Had(states, s.byExternal[x], ProjectAll(map[], es)[x])
  {
    OnlyCustomers(es);
    NewestWins(es, x);
    var row := ProjectAll(map[], es)[x];
    var e :| Delivered(es, e) && e.externalId == x && e.balanceAfter == row.balance && e.version == row.version;
    TraceInv(states, |states| - 1);
    TraceRecorded(states);
    EventWasReal(states, e);
    assert row == Snapshot(e.balanceAfter, e.version);
  }

  lemma EventWasReal(states: seq<State>, e: TransactionPosted)
    requires Recorded(states)
    requires var s := states[|states| - 1]; OutboxOk(s) && AccountsOk(s) && e in s.outbox && e.externalId != ""
    ensures var s := states[|states| - 1];
            && e.externalId in s.byExternal
            && Had(states, s.byExternal[e.externalId], Snapshot(e.balanceAfter, e.version))
  {
    AnnouncedFacts(states[|states| - 1], e);
    EveryVersionWasReal(states, |states| - 1, e.account, e.version);
  }

  lemma AnnouncedFacts(s: State, e: TransactionPosted)
    requires OutboxOk(s) && AccountsOk(s) && e in s.outbox
    ensures EventOk(s, e)
    ensures e.externalId != "" ==> e.externalId in s.byExternal && s.byExternal[e.externalId] == e.account
  {
    assert Indexed(s, e.account);
  }

  /** The read model shows the ledger's current pair exactly if the account's newest event has been
      delivered, however late, however often, and whatever came around it. */
  lemma CurrentIffNewestDelivered(s: State, es: seq<TransactionPosted>, x: string)
    requires Inv(s) && FromLedger(es, s) && x in s.byExternal && s.byExternal[x] in s.balances && x != ""
    ensures var a := s.byExternal[x];
            && (x in ProjectAll(map[], es) ==> ProjectAll(map[], es)[x].version <= Current(s, a).version)
            && ((x in ProjectAll(map[], es) && ProjectAll(map[], es)[x] == Current(s, a)) <==>
                exists e :: Delivered(es, e) && e.account == a && e.version == s.balances[a].version)
  {
    NewestWins(es, x);
    ShownIffDelivered(s, es, x, s.byExternal[x]);
  }

  lemma ShownIffDelivered(s: State, es: seq<TransactionPosted>, x: string, a: LedgerDomain.Uuid)
    requires OutboxOk(s) && AccountsOk(s) && BalancesOk(s) && FromLedger(es, s)
    requires x in s.byExternal && s.byExternal[x] == a && a in s.balances
    requires x in ProjectAll(map[], es) <==> exists e :: Delivered(es, e) && e.externalId == x
    requires x in ProjectAll(map[], es) ==> Newest(es, x, ProjectAll(map[], es)[x])
    ensures x in ProjectAll(map[], es) ==> ProjectAll(map[], es)[x].version <= Current(s, a).version
    ensures (x in ProjectAll(map[], es) && ProjectAll(map[], es)[x] == Current(s, a)) <==>
            exists e :: Delivered(es, e) && e.account == a && e.version == s.balances[a].version
  {
    forall e | Delivered(es, e)
      ensures EventOk(s, e) && (e.externalId == x <==> e.account == a)
    {
      AnnouncedFacts(s, e);
    }
    CurrentIsHistory(s, a);
  }

  /** Once everything announced has been delivered, the read model is the ledger's customer side. */
  lemma CaughtUp(s: State, es: seq<TransactionPosted>, x: string)
    requires Inv(s) && FromLedger(es, s) && (forall e :: e in s.outbox ==> Delivered(es, e))
    requires x in s.byExternal && s.byExternal[x] in s.balances && x != "" && 0 < s.balances[s.byExternal[x]].version
    ensures x in ProjectAll(map[], es) && ProjectAll(map[], es)[x] == Current(s, s.byExternal[x])
  {
    var a := s.byExternal[x];
    CurrentIffNewestDelivered(s, es, x);
    assert Announced(s, a, s.balances[a].version);
    var i :| 0 <= i < |s.outbox| && s.outbox[i].account == a && s.outbox[i].version == s.balances[a].version;
    assert Delivered(es, s.outbox[i]);
  }
}

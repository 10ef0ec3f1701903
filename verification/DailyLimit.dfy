/** The daily cap on outgoing transfers, when creations, validations and failures interleave freely.
    A validator reads the clock, reads the day's sum and moves its transfer on in separate steps. */
module DailyLimit {
  import Int64
  import Sums
  import opened TransferDomain

  datatype Row = Row(customer: string, currency: string, outgoing: bool, amount: Int64.int64, day: nat, phase: Phase)

  /** A validator's reading: the start of the day it took from the clock and the sum it then got. */
  datatype Reading = Reading(id: nat, since: nat, used: Int64.int64)

  datatype Limits = Limits(perTx: Int64.int64, daily: Int64.int64)

  /** approvals records the reading each outgoing transfer was approved on. */
  datatype World = World(rows: map<nat, Row>, readings: set<Reading>, approvals: map<nat, Reading>, today: nat)

  type Tiers = map<string, Limits>

  datatype Action =
    | Insert(id: nat, customer: string, currency: string, outgoing: bool, amount: Int64.int64)
    | Read(id: nat, since: nat)
    | Approve(reading: Reading)
    | Move(id: nat, e: Trigger)
    | NextDay

  // ---------------------------------------------------------------- sums

  /** The rows the query adds up. */
  predicate Counted(r: Row, customer: string, currency: string, since: nat) {
    r.customer == customer && r.currency == currency && r.outgoing && r.phase != Failed && since <= r.day
  }

  ghost function Outgoing(rows: map<nat, Row>, customer: string, currency: string, since: nat): int {
    Sums.Total(map id | id in rows && Counted(rows[id], customer, currency, since) :: rows[id].amount as int)
  }

  predicate PastValidation(p: Phase) {
    p in {Held, Phase.Posting, Completed, Releasing}
  }

  /** The rows of one customer, currency and day that passed validation and did not fail. */
  predicate Spent(r: Row, customer: string, currency: string, day: nat) {
    r.customer == customer && r.currency == currency && r.outgoing && r.day == day && PastValidation(r.phase)
  }

  ghost function SpentOn(rows: map<nat, Row>, customer: string, currency: string, day: nat): int {
    Sums.Total(SpentRows(rows, customer, currency, day))
  }

  ghost function SpentRows(rows: map<nat, Row>, customer: string, currency: string, day: nat): map<nat, int> {
    map id | id in rows && Spent(rows[id], customer, currency, day) :: rows[id].amount as int
  }

  // ---------------------------------------------------------------- steps

  predicate Passes(r: Row, used: Int64.int64, tiers: Tiers) {
    r.currency in tiers && WithinLimits(r.amount, tiers[r.currency].perTx, Int64.Wrap(used - r.amount), tiers[r.currency].daily)
  }

  /** The check on the wrapped differences is the check on the sum itself, with the transfer counted. */
  lemma CheckExact(r: Row, used: Int64.int64, tiers: Tiers)
    requires 0 < r.amount && 0 <= used && r.currency in tiers && 0 <= tiers[r.currency].daily
    ensures Passes(r, used, tiers) <==> r.amount <= tiers[r.currency].perTx && used <= tiers[r.currency].daily
  {
  }

  /** The sum is cast to 64 bits: a larger one is an error, and then there is no reading. */
  ghost predicate Enabled(w: World, a: Action, tiers: Tiers) {
    match a
    case Insert(id, customer, currency, outgoing, amount) => id !in w.rows && 0 < amount
    case Read(id, since) => && id in w.rows && w.rows[id].outgoing && since <= w.today
                            && Int64.Fits(Outgoing(w.rows, w.rows[id].customer, w.rows[id].currency, since))
    case Approve(g) => && g in w.readings && g.id in w.rows && w.rows[g.id].phase == Validating
                       && Passes(w.rows[g.id], g.used, tiers)
    case Move(id, e) => id in w.rows && Next(w.rows[id].phase, e).Some? && (e == EvValidated ==> !w.rows[id].outgoing)
    case NextDay => true
  }

  ghost function Do(w: World, a: Action, tiers: Tiers): World
    requires Enabled(w, a, tiers)
  {
    match a
    case Insert(id, customer, currency, outgoing, amount) =>
      w.(rows := w.rows[id := Row(customer, currency, outgoing, amount, w.today, Created)])
    case Read(id, since) =>
      w.(readings := w.readings + {Reading(id, since, Outgoing(w.rows, w.rows[id].customer, w.rows[id].currency, since))})
    case Approve(g) =>
      w.(rows := w.rows[g.id := w.rows[g.id].(phase := Held)], approvals := w.approvals[g.id := g])
    case Move(id, e) => w.(rows := w.rows[id := w.rows[id].(phase := Next(w.rows[id].phase, e).value)])
    case NextDay => w.(today := w.today + 1)
  }

  /** How a step changes the sum the query returns: an outgoing transfer counts from its creation on, for
      every day's start up to the day it was created, until it fails, and nothing else counts. */
  ghost function Change(w: World, a: Action, customer: string, currency: string, since: nat): int {
    match a
    case Insert(id, c, cur, outgoing, amount) =>
      if c == customer && cur == currency && outgoing && since <= w.today then amount else 0
    case Move(id, e) =>
      if id in w.rows && e in {EvValidationFailed, EvReleased} && w.rows[id].outgoing && w.rows[id].customer == customer
         && w.rows[id].currency == currency && since <= w.rows[id].day then -(w.rows[id].amount as int) else 0
    case _ => 0
  }

  ghost function CountedRows(rows: map<nat, Row>, customer: string, currency: string, since: nat): map<nat, int> {
    map id | id in rows && Counted(rows[id], customer, currency, since) :: rows[id].amount as int
  }

  lemma RowChanges(rows: map<nat, Row>, id: nat, r: Row, customer: string, currency: string, since: nat)
    requires id in rows ==> r.amount == rows[id].amount
    ensures Outgoing(rows[id := r], customer, currency, since) == Outgoing(rows, customer, currency, since)
              + (if Counted(r, customer, currency, since) then r.amount else 0)
              - (if id in rows && Counted(rows[id], customer, currency, since) then r.amount else 0)
  {
    var before, after := CountedRows(rows, customer, currency, since), CountedRows(rows[id := r], customer, currency, since);
    if Counted(r, customer, currency, since) {
      assert after == before[id := r.amount as int];
      Sums.TotalUpdate(before, id, r.amount);
    } else if id in before {
      assert before == after[id := r.amount as int];
      Sums.TotalUpdate(after, id, r.amount);
    } else {
      assert after == before;
    }
  }

  lemma OutgoingChanges(w: World, a: Action, tiers: Tiers, customer: string, currency: string, since: nat)
    requires Enabled(w, a, tiers)
    ensures Outgoing(Do(w, a, tiers).rows, customer, currency, since) ==
              Outgoing(w.rows, customer, currency, since) + Change(w, a, customer, currency, since)
  {
    match a
    case Insert(id, c, cur, outgoing, amount) =>
      RowChanges(w.rows, id, Row(c, cur, outgoing, amount, w.today, Created), customer, currency, since);
    case Approve(g) => RowChanges(w.rows, g.id, w.rows[g.id].(phase := Held), customer, currency, since);
    case Move(id, e) =>
      TableExact(w.rows[id].phase, e, Next(w.rows[id].phase, e).value);
      RowChanges(w.rows, id, w.rows[id].(phase := Next(w.rows[id].phase, e).value), customer, currency, since);
    case _ =>
  }

  // ---------------------------------------------------------------- the invariant

  /** The row has a passing reading that looked back to its own day. */
  ghost predicate Reserved(w: World, tiers: Tiers, id: nat)
    requires id in w.rows
  {
    exists g :: g in w.readings && g.id == id && g.since <= w.rows[id].day && Passes(w.rows[id], g.used, tiers)
  }

  /** Unfailed rows of the group with such a reading. */
  ghost function Reservations(w: World, tiers: Tiers, customer: string, currency: string, day: nat): map<nat, int> {
    map id | id in w.rows && Counted(w.rows[id], customer, currency, day) && w.rows[id].day == day && Reserved(w, tiers, id)
      :: w.rows[id].amount as int
  }

  ghost predicate RowsOk(w: World) {
    forall id :: id in w.rows ==> 0 < w.rows[id].amount && w.rows[id].day <= w.today
  }

  ghost predicate ReadingsOk(w: World) {
    forall g :: g in w.readings ==> g.id in w.rows && 0 <= g.used
  }

  /** An outgoing transfer past validation was approved on a reading that passed. */
  ghost predicate ApprovalsOk(w: World, tiers: Tiers) {
    forall id :: id in w.rows && w.rows[id].outgoing && PastValidation(w.rows[id].phase) ==>
      id in w.approvals && w.approvals[id] in w.readings && w.approvals[id].id == id
      && Passes(w.rows[id], w.approvals[id].used, tiers)
  }

  ghost predicate CapOk(w: World, tiers: Tiers, customer: string, currency: string, day: nat) {
    currency in tiers && 0 <= tiers[currency].daily ==>
      Sums.Total(Reservations(w, tiers, customer, currency, day)) <= tiers[currency].daily
  }

  ghost predicate Inv(w: World, tiers: Tiers) {
    && RowsOk(w) && ReadingsOk(w) && ApprovalsOk(w, tiers)
    && forall customer, currency, day {:trigger CapOk(w, tiers, customer, currency, day)} :: CapOk(w, tiers, customer, currency, day)
  }

  /** Where nothing is newly reserved and only amounts drop out, the cap stays. */
  lemma CapShrinks(w: World, w': World, tiers: Tiers, customer: string, currency: string, day: nat)
    requires RowsOk(w) && CapOk(w, tiers, customer, currency, day)
    requires forall id :: id in Reservations(w', tiers, customer, currency, day) ==>
               id in Reservations(w, tiers, customer, currency, day)
               && Reservations(w', tiers, customer, currency, day)[id] == Reservations(w, tiers, customer, currency, day)[id]
    ensures CapOk(w', tiers, customer, currency, day)
  {
    Sums.TotalMonotone(Reservations(w', tiers, customer, currency, day), Reservations(w, tiers, customer, currency, day));
  }

  /** A passing reading that looked back to this day counted every reservation of the day. */
  lemma CapRead(w: World, w': World, tiers: Tiers, g: Reading, customer: string, currency: string, day: nat)
    requires RowsOk(w) && CapOk(w, tiers, customer, currency, day) && w' == w.(readings := w.readings + {g}) && g.id in w.rows
    requires g.used == Outgoing(w.rows, w.rows[g.id].customer, w.rows[g.id].currency, g.since)
    ensures CapOk(w', tiers, customer, currency, day)
  {
    var r := w.rows[g.id];
    if Counted(r, customer, currency, day) && r.day == day && g.since <= day && Passes(r, g.used, tiers)
       && currency in tiers && 0 <= tiers[currency].daily {
      var counted := map id | id in w.rows && Counted(w.rows[id], customer, currency, g.since) :: w.rows[id].amount as int;
      Sums.TotalMonotone(Reservations(w', tiers, customer, currency, day), counted);
      Sums.TotalNonNegative(counted);
      CheckExact(r, g.used, tiers);
    } else if currency in tiers && 0 <= tiers[currency].daily {
      CapShrinks(w, w', tiers, customer, currency, day);
    }
  }

  /** One row moves to another phase. */
  lemma CapMove(w: World, w': World, tiers: Tiers, id: nat, p: Phase, customer: string, currency: string, day: nat)
    requires RowsOk(w) && CapOk(w, tiers, customer, currency, day) && id in w.rows && w.rows[id].phase != Failed
    requires w'.rows == w.rows[id := w.rows[id].(phase := p)] && w'.readings == w.readings
    ensures CapOk(w', tiers, customer, currency, day)
  {
    forall k | k in w'.rows && Reserved(w', tiers, k) ensures k in w.rows && Reserved(w, tiers, k) {
      var g :| g in w'.readings && g.id == k && g.since <= w'.rows[k].day && Passes(w'.rows[k], g.used, tiers);
      assert Passes(w.rows[k], g.used, tiers);
    }
    CapShrinks(w, w', tiers, customer, currency, day);
  }

  lemma CapInsert(w: World, w': World, tiers: Tiers, id: nat, r: Row, customer: string, currency: string, day: nat)
    requires RowsOk(w) && ReadingsOk(w) && CapOk(w, tiers, customer, currency, day) && id !in w.rows
    requires w'.rows == w.rows[id := r] && w'.readings == w.readings
    ensures CapOk(w', tiers, customer, currency, day)
  {
    CapShrinks(w, w', tiers, customer, currency, day);
  }

  lemma CapStep(w: World, a: Action, tiers: Tiers, customer: string, currency: string, day: nat)
    requires RowsOk(w) && ReadingsOk(w) && CapOk(w, tiers, customer, currency, day) && Enabled(w, a, tiers)
    ensures CapOk(Do(w, a, tiers), tiers, customer, currency, day)
  {
    var w' := Do(w, a, tiers);
    match a
    case Insert(id, c, k, o, amount) => CapInsert(w, w', tiers, id, w'.rows[id], customer, currency, day);
    case Read(id, since) =>
      CapRead(w, w', tiers, Reading(id, since, Outgoing(w.rows, w.rows[id].customer, w.rows[id].currency, since)),
              customer, currency, day);
    case Approve(g) => CapMove(w, w', tiers, g.id, Held, customer, currency, day);
    case Move(id, e) =>
      assert w.rows[id].phase != Failed by {
        TableDescends(w.rows[id].phase, e);
      }
      CapMove(w, w', tiers, id, w'.rows[id].phase, customer, currency, day);
    case NextDay => CapShrinks(w, w', tiers, customer, currency, day);
  }

  lemma ApprovalsMove(w: World, w': World, tiers: Tiers, id: nat, e: Trigger)
    requires ApprovalsOk(w, tiers) && Enabled(w, Move(id, e), tiers) && w' == Do(w, Move(id, e), tiers)
    ensures ApprovalsOk(w', tiers)
  {
    MovesIntoValidated(w.rows[id].phase, e);
    forall k | k in w'.rows && w'.rows[k].outgoing && PastValidation(w'.rows[k].phase)
      ensures k in w'.approvals && w'.approvals[k] in w'.readings && w'.approvals[k].id == k
      ensures Passes(w'.rows[k], w'.approvals[k].used, tiers)
    {
      assert PastValidation(w.rows[k].phase);
    }
  }

  /** Only EvValidated enters the validated phases from outside. */
  lemma MovesIntoValidated(p: Phase, e: Trigger)
    requires Next(p, e).Some?
    ensures PastValidation(Next(p, e).value) ==> e == EvValidated || PastValidation(p)
  {
  }

  lemma TablesStep(w: World, a: Action, tiers: Tiers)
    requires RowsOk(w) && ReadingsOk(w) && ApprovalsOk(w, tiers) && Enabled(w, a, tiers)
    ensures RowsOk(Do(w, a, tiers)) && ReadingsOk(Do(w, a, tiers)) && ApprovalsOk(Do(w, a, tiers), tiers)
  {
    match a
    case Read(id, since) =>
      Sums.TotalNonNegative(map k | k in w.rows && Counted(w.rows[k], w.rows[id].customer, w.rows[id].currency, since)
                         :: w.rows[k].amount as int);
    case Move(id, e) => ApprovalsMove(w, Do(w, a, tiers), tiers, id, e);
    case Insert(_, _, _, _, _) =>
    case Approve(_) =>
    case NextDay =>
  }

  lemma StepInv(w: World, a: Action, tiers: Tiers)
    requires Inv(w, tiers) && Enabled(w, a, tiers)
    ensures Inv(Do(w, a, tiers), tiers)
  {
    TablesStep(w, a, tiers);
    forall customer, currency, day ensures CapOk(Do(w, a, tiers), tiers, customer, currency, day) {
      assert CapOk(w, tiers, customer, currency, day);
      CapStep(w, a, tiers, customer, currency, day);
    }
  }

  // ---------------------------------------------------------------- runs

  function Empty(): World {
    World(map[], {}, map[], 0)
  }

  lemma EmptyInv(tiers: Tiers)
    ensures Inv(Empty(), tiers)
  {
    forall customer, currency, day ensures CapOk(Empty(), tiers, customer, currency, day) {
      assert Reservations(Empty(), tiers, customer, currency, day) == map[];
      Sums.TotalEmpty();
    }
  }

  /** The world after a sequence of actions; one that is not enabled does not happen. */
  ghost function Perform(w: World, acts: seq<Action>, tiers: Tiers): World {
    if acts == [] then w
    else
      var v := Perform(w, acts[..|acts| - 1], tiers);
      var a := acts[|acts| - 1];
      if Enabled(v, a, tiers) then Do(v, a, tiers) else v
  }

  ghost predicate Occurs(w: World, tiers: Tiers) {
    exists acts :: w == Perform(Empty(), acts, tiers)
  }

  lemma OccursNext(w: World, a: Action, tiers: Tiers)
    requires Occurs(w, tiers) && Enabled(w, a, tiers)
    ensures Occurs(Do(w, a, tiers), tiers)
  {
    var acts :| w == Perform(Empty(), acts, tiers);
    assert (acts + [a])[..|acts|] == acts;
    assert Do(w, a, tiers) == Perform(Empty(), acts + [a], tiers);
  }

  lemma {:induction false} PerformInv(acts: seq<Action>, tiers: Tiers)
    ensures Inv(Perform(Empty(), acts, tiers), tiers)
  {
    if acts == [] {
      EmptyInv(tiers);
    } else {
      PerformInv(acts[..|acts| - 1], tiers);
      var v := Perform(Empty(), acts[..|acts| - 1], tiers);
      if Enabled(v, acts[|acts| - 1], tiers) {
        StepInv(v, acts[|acts| - 1], tiers);
      }
    }
  }

  /** Every transfer the day has spent was approved by a validator that looked back to that day. */
  ghost predicate ValidatedSameDay(w: World, customer: string, currency: string, day: nat) {
    forall id :: id in w.rows && Spent(w.rows[id], customer, currency, day) ==> id in w.approvals && w.approvals[id].since <= day
  }

  /** In every run, the outgoing transfers a customer created on a day, past validation and not
      failed, never total more than the daily cap, if each was validated on the day it was created. */
  lemma DailyCap(w: World, tiers: Tiers, customer: string, currency: string, day: nat)
    requires Occurs(w, tiers) && currency in tiers && 0 <= tiers[currency].daily
    requires ValidatedSameDay(w, customer, currency, day)
    ensures SpentOn(w.rows, customer, currency, day) <= tiers[currency].daily
  {
    var acts :| w == Perform(Empty(), acts, tiers);
    PerformInv(acts, tiers);
    assert CapOk(w, tiers, customer, currency, day);
    SpentReserved(w, tiers, customer, currency, day);
  }

  lemma SpentReserved(w: World, tiers: Tiers, customer: string, currency: string, day: nat)
    requires RowsOk(w) && ApprovalsOk(w, tiers) && ValidatedSameDay(w, customer, currency, day)
    ensures SpentOn(w.rows, customer, currency, day) <= Sums.Total(Reservations(w, tiers, customer, currency, day))
  {
    var spent := SpentRows(w.rows, customer, currency, day);
    forall id | id in spent ensures id in Reservations(w, tiers, customer, currency, day) {
      assert w.approvals[id] in w.readings;
    }
    Sums.TotalMonotone(spent, Reservations(w, tiers, customer, currency, day));
  }

  // ---------------------------------------------------------------- validation past midnight

  /** n outgoing transfers of one unit each, created on the same day; the first m have been approved. */
  function Queue(customer: string, currency: string, day: nat, n: nat, m: nat): map<nat, Row> {
    if n == 0 then map[] else Queue(customer, currency, day, n - 1, m)[n - 1 := QueuedRow(customer, currency, day, n <= m)]
  }

  function QueuedRow(customer: string, currency: string, day: nat, approved: bool): Row {
    Row(customer, currency, true, 1, day, if approved then Held else Validating)
  }

  lemma {:induction false} QueueExact(customer: string, currency: string, day: nat, n: nat, m: nat)
    ensures forall id: nat :: id in Queue(customer, currency, day, n, m) <==> id < n
    ensures forall id: nat :: id in Queue(customer, currency, day, n, m) ==>
              Queue(customer, currency, day, n, m)[id] == QueuedRow(customer, currency, day, id < m)
  {
    if n > 0 {
      QueueExact(customer, currency, day, n - 1, m);
    }
  }

  lemma {:induction false} DayReached(tiers: Tiers, day: nat) returns (w: World)
    ensures Occurs(w, tiers) && w == Empty().(today := day)
  {
    if day == 0 {
      w := Empty();
      assert w == Perform(Empty(), [], tiers);
    } else {
      w := DayReached(tiers, day - 1);
      OccursNext(w, NextDay, tiers);
      w := Do(w, NextDay, tiers);
    }
  }

  /** They are all created and started before midnight. */
  lemma {:induction false} AllWaiting(tiers: Tiers, customer: string, currency: string, day: nat, n: nat) returns (w: World)
    ensures Occurs(w, tiers) && w.today == day && w.rows == Queue(customer, currency, day, n, 0)
  {
    if n == 0 {
      w := DayReached(tiers, day);
    } else {
      w := AllWaiting(tiers, customer, currency, day, n - 1);
      QueueExact(customer, currency, day, n - 1, 0);
      OccursNext(w, Insert(n - 1, customer, currency, true, 1), tiers);
      w := Do(w, Insert(n - 1, customer, currency, true, 1), tiers);
      OccursNext(w, Move(n - 1, EvStart), tiers);
      w := Do(w, Move(n - 1, EvStart), tiers);
    }
  }

  lemma NothingSince(rows: map<nat, Row>, customer: string, currency: string, since: nat)
    requires forall id :: id in rows ==> rows[id].day < since
    ensures Outgoing(rows, customer, currency, since) == 0
  {
    var none := map id | id in rows && Counted(rows[id], customer, currency, since) :: rows[id].amount as int;
    assert none == map[];
    Sums.TotalEmpty();
  }

  /** After midnight each in turn reads an empty day and passes. */
  lemma {:induction false} ManyApproved(tiers: Tiers, customer: string, currency: string, day: nat, n: nat, m: nat)
    returns (w: World)
    requires currency in tiers && 0 < tiers[currency].perTx && 0 <= tiers[currency].daily && m <= n
    ensures Occurs(w, tiers) && w.today == day + 1 && w.rows == Queue(customer, currency, day, n, m)
    ensures forall id: nat :: id < m ==> id in w.approvals && w.approvals[id].since == day + 1
  {
    if m == 0 {
      w := AllWaiting(tiers, customer, currency, day, n);
      OccursNext(w, NextDay, tiers);
      w := Do(w, NextDay, tiers);
    } else {
      w := ManyApproved(tiers, customer, currency, day, n, m - 1);
      w := OneApproved(w, tiers, customer, currency, day, n, m);
    }
  }

  lemma QueueMoves(customer: string, currency: string, day: nat, n: nat, m: nat)
    requires 0 < m <= n
    ensures m - 1 in Queue(customer, currency, day, n, m - 1)
    ensures Queue(customer, currency, day, n, m - 1)[m - 1] == QueuedRow(customer, currency, day, false)
    ensures Queue(customer, currency, day, n, m) ==
            Queue(customer, currency, day, n, m - 1)[m - 1 := QueuedRow(customer, currency, day, true)]
  {
    QueueExact(customer, currency, day, n, m - 1);
    QueueExact(customer, currency, day, n, m);
  }

  /** A reading of an empty day lets a waiting transfer within the per-transfer limit pass. */
  lemma PassesOnEmpty(w: World, tiers: Tiers, id: nat, since: nat) returns (w': World)
    requires Occurs(w, tiers) && id in w.rows && since <= w.today
    requires var r := w.rows[id];
             && r.outgoing && r.phase == Validating && r.currency in tiers && 0 <= tiers[r.currency].daily
             && 0 < r.amount <= tiers[r.currency].perTx && Outgoing(w.rows, r.customer, r.currency, since) == 0
    ensures Occurs(w', tiers) && w'.today == w.today && w'.rows == w.rows[id := w.rows[id].(phase := Held)]
    ensures w'.approvals == w.approvals[id := Reading(id, since, 0)]
  {
    OccursNext(w, Read(id, since), tiers);
    w' := Do(w, Read(id, since), tiers);
    CheckExact(w.rows[id], 0, tiers);
    OccursNext(w', Approve(Reading(id, since, 0)), tiers);
    w' := Do(w', Approve(Reading(id, since, 0)), tiers);
  }

  lemma OneApproved(w: World, tiers: Tiers, customer: string, currency: string, day: nat, n: nat, m: nat) returns (w': World)
    requires currency in tiers && 0 < tiers[currency].perTx && 0 <= tiers[currency].daily && 0 < m <= n
    requires Occurs(w, tiers) && w.today == day + 1 && w.rows == Queue(customer, currency, day, n, m - 1)
    ensures Occurs(w', tiers) && w'.today == day + 1 && w'.rows == Queue(customer, currency, day, n, m)
    ensures w'.approvals == w.approvals[m - 1 := Reading(m - 1, day + 1, 0)]
  {
    QueueMoves(customer, currency, day, n, m);
    QueueExact(customer, currency, day, n, m - 1);
    NothingSince(w.rows, customer, currency, day + 1);
    w' := PassesOnEmpty(w, tiers, m - 1, day + 1);
  }

  lemma {:induction false} UnitsSum(m: map<nat, int>, n: nat)
    requires forall id: nat :: id < n ==> id in m && m[id] == 1
    ensures Sums.SumBelow(m, n) == n
  {
    if n > 0 {
      UnitsSum(m, n - 1);
    }
  }

  lemma QueueSpent(customer: string, currency: string, day: nat, n: nat)
    ensures SpentOn(Queue(customer, currency, day, n, n), customer, currency, day) == n
  {
    QueueExact(customer, currency, day, n, n);
    var spent := SpentRows(Queue(customer, currency, day, n, n), customer, currency, day);
    Sums.TotalIs(spent, n);
    UnitsSum(spent, n);
  }

  /** A transfer created before midnight and validated after it is not in the sum it is subtracted from,
      so any number of them pass: the day's total has no bound at all. */
  lemma PastMidnight(tiers: Tiers, customer: string, currency: string, day: nat, n: nat)
    requires currency in tiers && 0 < tiers[currency].perTx && 0 <= tiers[currency].daily
    ensures exists w :: Occurs(w, tiers) && SpentOn(w.rows, customer, currency, day) == n
                        && (0 < n ==> !ValidatedSameDay(w, customer, currency, day))
  {
    var w := ManyApproved(tiers, customer, currency, day, n, n);
    QueueSpent(customer, currency, day, n);
    QueueExact(customer, currency, day, n, n);
    if 0 < n {
      assert Spent(w.rows[0], customer, currency, day) && day < w.approvals[0].since;
    }
  }

  /** Where no transfer passes the per-transfer limit, nothing is ever spent. */
  lemma NothingPasses(w: World, tiers: Tiers, customer: string, currency: string, day: nat)
    requires Occurs(w, tiers) && currency in tiers && tiers[currency].perTx <= 0
    ensures SpentOn(w.rows, customer, currency, day) == 0
  {
    var acts :| w == Perform(Empty(), acts, tiers);
    PerformInv(acts, tiers);
    assert SpentRows(w.rows, customer, currency, day) == map[];
    Sums.TotalEmpty();
  }

  /** So without same-day validation the cap of a currency can be exceeded if and only if its
      per-transfer limit lets any transfer through, on every day and whatever the cap. */
  lemma CapBreaks(tiers: Tiers, customer: string, currency: string, day: nat)
    requires currency in tiers && 0 <= tiers[currency].daily
    ensures (exists w :: Occurs(w, tiers) && tiers[currency].daily < SpentOn(w.rows, customer, currency, day)) <==>
            0 < tiers[currency].perTx
  {
    if 0 < tiers[currency].perTx {
      PastMidnight(tiers, customer, currency, day, tiers[currency].daily + 1);
    } else {
      forall w | Occurs(w, tiers) ensures SpentOn(w.rows, customer, currency, day) == 0 {
        NothingPasses(w, tiers, customer, currency, day);
      }
    }
  }
}

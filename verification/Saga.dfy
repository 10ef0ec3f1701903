/** The transfer saga as concurrent processes over one table and an unreliable ledger link.

    Any number of drivers and recovery workers hold stale snapshots of rows. Requests to the ledger
    stay in flight forever: each may be executed any number of times, at any time, or never. A
    success is only ever reported for an execution that succeeded; a failure may be reported at any
    moment, whether or not the request was or will be executed. The one failure a driver acts on as a
    fact, a release answered "hold unknown", is like a success only reported for an execution that
    found no such hold. Other clients and the hold sweeper work on the same ledger. A row is written
    only where its phase is still the snapshot's. */
module Saga {
  import opened Int64
  import LedgerDomain
  import opened Ledger
  import LedgerLaws
  import opened TransferDomain

  const MAX_ATTEMPTS: nat := 5

  datatype Hop = Hop(before: Phase, after: Phase)

  /** A transfer row with its transfer_events and the status events of its key in the outbox. */
  datatype Record = Record(row: Transfer, hops: seq<Hop>, published: seq<Phase>)

  datatype Request =
    | HoldReq(id: string, ref: AccountRef, amount: int64, currency: string)
    | PostReq(id: string, holdId: Option<LedgerDomain.Uuid>, specs: seq<PostingSpec>)
    | ReleaseReq(hold: LedgerDomain.Uuid)
    | ProbeReq(id: string)

  datatype Reply =
    | HoldPlaced(id: string, hold: LedgerDomain.Uuid)
    | PostDone(id: string)
    | HoldFreed(hold: LedgerDomain.Uuid)
    | HoldUnknown(hold: LedgerDomain.Uuid)
    | EntryFound(id: string)

  /** Where a driver or recovery worker is, with the row it last read. */
  datatype Driver =
    | Idle
    | Loaded(t: Transfer)
    | AwaitHold(t: Transfer)
    | AwaitPost(t: Transfer)
    | AwaitRelease(t: Transfer)
    | Recovering(t: Transfer)
    | AwaitProbe(t: Transfer)
    | Unresolved(t: Transfer)

  datatype World = World(store: map<string, Record>, drivers: map<nat, Driver>,
                         requests: set<Request>, replies: set<Reply>, ledger: State)

  // ---------------------------------------------------------------- steps

  /** The guarded update, the event append and the terminal status event of one transition. Only
      the columns the update names are taken from the snapshot. */
  function Transition(rec: Record, t: Transfer, next: Phase): Record {
    if rec.row.phase != t.phase then rec
    else
      Record(rec.row.(phase := next, to := t.to, counterAmount := t.counterAmount, counterCurrency := t.counterCurrency,
                      rateMicros := t.rateMicros, ratePair := t.ratePair, reason := t.reason, holdId := t.holdId),
             rec.hops + [Hop(t.phase, next)],
             rec.published + if IsTerminal(next) then [next] else [])
  }

  datatype Action =
    | Create(id: string, kind: Kind, customer: string, from: string, to: string, toNumber: string, amount: int64, currency: string)
    | Load(d: nat, id: string)
    | Start(d: nat)
    | Validate(d: nat, answers: Answers)
    | SendHold(d: nat) | HoldOk(d: nat, hold: LedgerDomain.Uuid) | HoldRefused(d: nat, reason: string) | AdvanceHeld(d: nat)
    | SendPost(d: nat) | PostOk(d: nat) | PostRefused(d: nat, reason: string)
    | SendRelease(d: nat) | ReleaseOk(d: nat) | ReleaseNothing(d: nat)
    | Leave(d: nat)
    | Claim(id: string)
    | RecoverLoad(d: nat, id: string) | SendProbe(d: nat) | ProbeFound(d: nat) | ProbeOpen(d: nat) | Exhaust(d: nat)
    | Exec(req: Request, expiresAt: int, newId: LedgerDomain.Uuid)
    | Foreign(op: Op)

  ghost function At(w: World, d: nat): Driver {
    if d in w.drivers then w.drivers[d] else Idle
  }

  ghost predicate Enabled(w: World, a: Action) {
    match a
    case Create(id, kind, customer, from, to, number, amount, currency) =>
      id != "" && id !in w.store && ValidateSpec(kind, from, to, number, amount, currency).None?
    case Load(d, id) => At(w, d).Idle? && id in w.store
    case Start(d) => At(w, d).Loaded? && At(w, d).t.phase == Created
    case Validate(d, answers) => At(w, d).Loaded? && At(w, d).t.phase == Validating
    case SendHold(d) => At(w, d).Loaded? && At(w, d).t.phase == Held && At(w, d).t.holdId.None?
    case HoldOk(d, h) => At(w, d).AwaitHold? && HoldPlaced(At(w, d).t.id, h) in w.replies
    case HoldRefused(d, reason) => At(w, d).AwaitHold?
    case AdvanceHeld(d) => At(w, d).Loaded? && At(w, d).t.phase == Held && At(w, d).t.holdId.Some?
    case SendPost(d) => At(w, d).Loaded? && At(w, d).t.phase == Phase.Posting
    case PostOk(d) => At(w, d).AwaitPost? && PostDone(At(w, d).t.id) in w.replies
    case PostRefused(d, reason) => At(w, d).AwaitPost?
    case SendRelease(d) => At(w, d).Loaded? && At(w, d).t.phase == Releasing && At(w, d).t.holdId.Some?
    case ReleaseOk(d) => At(w, d).AwaitRelease? && At(w, d).t.holdId.Some?
                         && (HoldFreed(At(w, d).t.holdId.value) in w.replies || HoldUnknown(At(w, d).t.holdId.value) in w.replies)
    case ReleaseNothing(d) => At(w, d).Loaded? && At(w, d).t.phase == Releasing && At(w, d).t.holdId.None?
    case Leave(d) => true
    case Claim(id) => id in w.store && w.store[id].row.phase in {Held, Phase.Posting, Releasing}
    case RecoverLoad(d, id) => At(w, d).Idle? && id in w.store
    case SendProbe(d) => At(w, d).Recovering? && At(w, d).t.phase == Phase.Posting
    case ProbeFound(d) => At(w, d).AwaitProbe? && EntryFound(At(w, d).t.id) in w.replies
    case ProbeOpen(d) => At(w, d).AwaitProbe?
    case Exhaust(d) => && (At(w, d).Unresolved? || (At(w, d).Recovering? && At(w, d).t.phase == Held))
                       && At(w, d).t.attempts > MAX_ATTEMPTS
    case Exec(req, expiresAt, newId) => req in w.requests
    case Foreign(op) => op.OpPost? ==> op.reference.kind != "transfer"
  }

  function NewTransfer(id: string, kind: Kind, customer: string, from: string, to: string, toNumber: string,
                       amount: int64, currency: string): Transfer {
    Transfer(id, kind, Created, customer, from, to, toNumber, amount, currency, None, None, None, None, None, None, 0)
  }

  ghost function Park(w: World, d: nat, s: Driver): World {
    w.(drivers := w.drivers[d := s])
  }

  ghost function Send(w: World, d: nat, s: Driver, q: Request): World {
    w.(drivers := w.drivers[d := s], requests := w.requests + {q})
  }

  /** A driver makes a transition from its snapshot t, whose columns it may have changed. */
  ghost function Move(w: World, d: nat, t: Transfer, e: Trigger): World {
    if t.id in w.store && Next(t.phase, e).Some? then
      w.(store := w.store[t.id := Transition(w.store[t.id], t, Next(t.phase, e).value)], drivers := w.drivers[d := Idle])
    else Park(w, d, Idle)
  }

  /** What a driver does with the outcome of validation. */
  ghost function Settle(w: World, d: nat, t: Transfer, v: Verdict): World {
    match v
    case Postpone => Park(w, d, Idle)
    case Abort => Park(w, d, Idle)
    case Reject(reason) => Move(w, d, t.(reason := Some(reason)), EvValidationFailed)
    case Accept(_, _, _, _, _) => Move(w, d, Accepted(t, v), EvValidated)
  }

  /** The recovery worker's claim counts an attempt on the row. */
  ghost function Claimed(w: World, id: string): World
    requires id in w.store
  {
    w.(store := w.store[id := CountAttempt(w.store[id])])
  }

  function CountAttempt(rec: Record): Record {
    rec.(row := rec.row.(attempts := rec.row.attempts + 1))
  }

  ghost function Execute(w: World, q: Request, expiresAt: int, newId: LedgerDomain.Uuid): World
    requires WellFormed(w.ledger)
  {
    match q
    case HoldReq(id, ref, amount, currency) =>
      var (s, r) := PlaceHold(w.ledger, ref, amount, currency, TransferRef(id), expiresAt, newId);
      w.(ledger := s, replies := w.replies + if r.Ok? then {HoldPlaced(id, r.value)} else {})
    case PostReq(id, hold, specs) =>
      var (s, r) := Post(w.ledger, TransferRef(id), hold, specs);
      w.(ledger := s, replies := w.replies + if r.Ok? then {PostDone(id)} else {})
    case ReleaseReq(h) =>
      var (s, r) := Release(w.ledger, h);
      w.(ledger := s,
         replies := w.replies + if r.Ok? then {HoldFreed(h)}
                                else if r.error == LedgerDomain.NotFound then {HoldUnknown(h)} else {})
    case ProbeReq(id) =>
      w.(replies := w.replies + if TransferRef(id) in w.ledger.entryRefs then {EntryFound(id)} else {})
  }

  ghost function Do(w: World, a: Action): World
    requires WellFormed(w.ledger) && Enabled(w, a)
  {
    match a
    case Create(id, kind, customer, from, to, number, amount, currency) =>
      w.(store := w.store[id := Record(NewTransfer(id, kind, customer, from, to, number, amount, currency),
                                       [Hop(Created, Created)], [])])
    case Load(d, id) => Park(w, d, Loaded(w.store[id].row))
    case Start(d) => Move(w, d, At(w, d).t, EvStart)
    case Validate(d, answers) => Settle(w, d, At(w, d).t, Judge(At(w, d).t, answers))
    case SendHold(d) =>
      var t := At(w, d).t;
      Send(w, d, AwaitHold(t), HoldReq(t.id, SourceRef(t), t.amount, t.currency))
    case HoldOk(d, h) => Move(w, d, At(w, d).t.(holdId := Some(h)), EvPostingStarted)
    case HoldRefused(d, reason) => Move(w, d, At(w, d).t.(reason := Some(reason)), EvHoldFailed)
    case AdvanceHeld(d) => Move(w, d, At(w, d).t, EvPostingStarted)
    case SendPost(d) =>
      var t := At(w, d).t;
      Send(w, d, AwaitPost(t), PostReq(t.id, t.holdId, BuildPostings(t)))
    case PostOk(d) => Move(w, d, At(w, d).t, EvPosted)
    case PostRefused(d, reason) => Move(w, d, At(w, d).t.(reason := Some(reason)), EvPostFailed)
    case SendRelease(d) => Send(w, d, AwaitRelease(At(w, d).t), ReleaseReq(At(w, d).t.holdId.value))
    case ReleaseOk(d) => Move(w, d, At(w, d).t, EvReleased)
    case ReleaseNothing(d) => Move(w, d, At(w, d).t, EvReleased)
    case Leave(d) => Park(w, d, Idle)
    case Claim(id) => Claimed(w, id)
    case RecoverLoad(d, id) => Park(w, d, Recovering(w.store[id].row))
    case SendProbe(d) => Send(w, d, AwaitProbe(At(w, d).t), ProbeReq(At(w, d).t.id))
    case ProbeFound(d) => Move(w, d, At(w, d).t, EvPosted)
    case ProbeOpen(d) => Park(w, d, Unresolved(At(w, d).t))
    case Exhaust(d) => Move(w, d, At(w, d).t.(reason := Some("recovery_exhausted")), EvRecoveryExhausted)
    case Exec(q, expiresAt, newId) => Execute(w, q, expiresAt, newId)
    case Foreign(op) => w.(ledger := Step(w.ledger, op))
  }

  // ---------------------------------------------------------------- the invariant, row by row

  /** The columns an insert fixes; the destination is filled in by validation. */
  predicate SpecOk(t: Transfer) {
    && t.id != "" && 0 < t.amount && LedgerDomain.ValidCurrency(t.currency) && t.kind != Unspecified
    && (t.kind == Topup || t.from != "")
  }

  /** Phases in which the validated columns are final. */
  predicate Fixed(p: Phase) {
    p in {Held, Phase.Posting, Completed, Releasing}
  }

  ghost predicate HoldFor(t: Transfer, h: LedgerDomain.Uuid, s: State) {
    && h in s.holds && s.holds[h].reference == TransferRef(t.id) && s.holds[h].amount == t.amount
    && Resolve(s, SourceRef(t)) == LedgerDomain.Ok(s.holds[h].account)
  }

  /** The journal entry of the transfer is the one its row describes. */
  ghost predicate EntryFor(t: Transfer, s: State) {
    && TransferRef(t.id) in s.entryRefs && s.entryRefs[TransferRef(t.id)] < |s.journal|
    && ResolveLegs(s, BuildPostings(t), |BuildPostings(t)|) == LedgerDomain.Ok(s.journal[s.entryRefs[TransferRef(t.id)]].legs)
  }

  /** The hold id is written exactly when posting starts. */
  predicate HoldColumn(t: Transfer) {
    && (t.phase in {Created, Validating, Held} ==> t.holdId.None?)
    && (t.phase in {Phase.Posting, Completed} ==> t.holdId.Some?)
  }

  /** How a row and the ledger fit together: an entry exists only under a hold the row names, which
      is then captured; the hold a failed row names is released. */
  ghost predicate RowOk(t: Transfer, s: State) {
    && SpecOk(t)
    && (Fixed(t.phase) || t.holdId.Some? ==> CounterOk(t))
    && HoldColumn(t)
    && (t.holdId.Some? ==> HoldFor(t, t.holdId.value, s))
    && (TransferRef(t.id) in s.entryRefs ==>
          && t.holdId.Some? && t.holdId.value in s.holds && s.holds[t.holdId.value].status == LedgerDomain.HoldCaptured
          && t.phase in {Phase.Posting, Completed, Releasing}
          && EntryFor(t, s))
    && (t.phase == Completed ==> TransferRef(t.id) in s.entryRefs)
    && (t.phase == Failed && t.holdId.Some? ==> s.holds[t.holdId.value].status == LedgerDomain.HoldReleased)
  }

  /** transfer_events is a path through the table ending at the row's phase. */
  ghost predicate PathTo(hops: seq<Hop>, p: Phase) {
    && 0 < |hops| && hops[0] == Hop(Created, Created) && hops[|hops| - 1].after == p
    && forall i :: 0 < i < |hops| ==> hops[i].before == hops[i - 1].after && Edge(hops[i])
  }

  predicate Edge(h: Hop) {
    exists e :: Next(h.before, e) == Some(h.after)
  }

  type Store = map<string, Record>

  ghost predicate RecordOk(store: Store, s: State, id: string)
    requires id in store
  {
    var rec := store[id];
    && rec.row.id == id
    && RowOk(rec.row, s)
    && PathTo(rec.hops, rec.row.phase)
    && rec.published == if IsTerminal(rec.row.phase) then [rec.row.phase] else []
  }

  // ---------------------------------------------------------------- snapshots

  predicate SameCore(t: Transfer, u: Transfer) {
    t.id == u.id && t.kind == u.kind && t.customer == u.customer && t.from == u.from && t.toNumber == u.toNumber
    && t.amount == u.amount && t.currency == u.currency
  }

  predicate SameFixed(t: Transfer, u: Transfer) {
    t.to == u.to && t.counterAmount == u.counterAmount && t.counterCurrency == u.counterCurrency
    && t.rateMicros == u.rateMicros && t.ratePair == u.ratePair
  }

  /** The row u is what a row t may have become: the same row but for the claim counter while the
      phase is the same, a strictly later phase otherwise. */
  predicate Became(t: Transfer, u: Transfer) {
    && SameCore(t, u)
    && (t.phase == u.phase ==> t.(attempts := u.attempts) == u)
    && (t.phase != u.phase ==> Rank(u.phase) < Rank(t.phase))
    && (t.phase == Releasing ==> u.phase != Completed)
    && (t.holdId.Some? ==> u.holdId == t.holdId)
    && (Fixed(t.phase) ==> SameFixed(t, u))
  }

  lemma BecameTransitive(t: Transfer, u: Transfer, v: Transfer)
    requires Became(t, u) && Became(u, v)
    ensures Became(t, v)
  {
  }

  // ---------------------------------------------------------------- the invariant, whole world

  ghost predicate RequestOk(store: Store, s: State, q: Request) {
    match q
    case HoldReq(id, ref, amount, currency) =>
      id in store && ref == SourceRef(store[id].row) && amount == store[id].row.amount
    case PostReq(id, holdId, specs) =>
      id in store && holdId.Some? && store[id].row.holdId == holdId && specs == BuildPostings(store[id].row)
    case ReleaseReq(h) => h in s.holds
    case ProbeReq(id) => true
  }

  ghost predicate ReplyOk(store: Store, s: State, r: Reply) {
    match r
    case HoldPlaced(id, h) => id in store && HoldFor(store[id].row, h, s)
    case PostDone(id) => TransferRef(id) in s.entryRefs
    case HoldFreed(h) => h in s.holds && s.holds[h].status == LedgerDomain.HoldReleased
    case HoldUnknown(h) => false
    case EntryFound(id) => TransferRef(id) in s.entryRefs
  }

  /** A driver's snapshot is a version the row really had, in the phase the driver works on. */
  ghost predicate DriverOk(store: Store, d: Driver) {
    d.Idle? ||
    (&& d.t.id in store && Became(d.t, store[d.t.id].row) && HoldColumn(d.t)
     && (d.AwaitHold? ==> d.t.phase == Held)
     && (d.AwaitPost? || d.AwaitProbe? || d.Unresolved? ==> d.t.phase == Phase.Posting)
     && (d.AwaitRelease? ==> d.t.phase == Releasing))
  }

  ghost predicate WorldInv(w: World) {
    LedgerLaws.Inv(w.ledger) && TableInv(w)
  }

  ghost predicate RecordsOk(store: Store, s: State) {
    forall id {:trigger RecordOk(store, s, id)} :: id in store ==> RecordOk(store, s, id)
  }

  ghost predicate DriversOk(store: Store, drivers: map<nat, Driver>) {
    forall d {:trigger DriverOk(store, drivers[d])} :: d in drivers ==> DriverOk(store, drivers[d])
  }

  ghost predicate RequestsOk(store: Store, s: State, requests: set<Request>) {
    forall q {:trigger RequestOk(store, s, q)} :: q in requests ==> RequestOk(store, s, q)
  }

  ghost predicate RepliesOk(store: Store, s: State, replies: set<Reply>) {
    forall r {:trigger ReplyOk(store, s, r)} :: r in replies ==> ReplyOk(store, s, r)
  }

  ghost predicate EntriesKnown(store: Store, s: State) {
    forall id :: TransferRef(id) in s.entryRefs ==> id in store
  }

  ghost predicate TableInv(w: World) {
    && RecordsOk(w.store, w.ledger)
    && DriversOk(w.store, w.drivers)
    && RequestsOk(w.store, w.ledger, w.requests)
    && RepliesOk(w.store, w.ledger, w.replies)
    && EntriesKnown(w.store, w.ledger)
  }

  /** Every row is still there and is what it may have become. */
  ghost predicate Advanced(store: Store, store': Store) {
    forall id :: id in store ==> id in store' && Became(store[id].row, store'[id].row)
  }

  ghost predicate GoodStep(w: World, w': World) {
    TableInv(w') && Advanced(w.store, w'.store)
  }

  // ---------------------------------------------------------------- steps of the table

  lemma ReplaceDriver(store: Store, id: string, rec: Record, d: Driver)
    requires id in store && Became(store[id].row, rec.row) && DriverOk(store, d)
    ensures DriverOk(store[id := rec], d)
  {
    if !d.Idle? && d.t.id == id {
      BecameTransitive(d.t, store[id].row, rec.row);
    }
  }

  lemma ReplaceOthers(store: Store, s: State, id: string, rec: Record)
    requires RecordsOk(store, s) && id in store && RecordOk(store[id := rec], s, id)
    ensures RecordsOk(store[id := rec], s)
  {
    var after := store[id := rec];
    forall k | k in after ensures RecordOk(after, s, k) {
      if k != id {
        assert RecordOk(store, s, k);
      }
    }
  }

  lemma ReplaceReply(store: Store, s: State, id: string, rec: Record, r: Reply)
    requires id in store && SameCore(store[id].row, rec.row) && ReplyOk(store, s, r)
    ensures ReplyOk(store[id := rec], s, r)
  {
  }

  /** Replacing one record by what it may become keeps every snapshot, request and reply true. */
  lemma ReplaceRecord(w: World, id: string, rec: Record)
    requires TableInv(w) && id in w.store && Became(w.store[id].row, rec.row)
    requires RecordOk(w.store[id := rec], w.ledger, id)
    ensures GoodStep(w, w.(store := w.store[id := rec]))
  {
    assert RecordOk(w.store, w.ledger, id);
    ReplaceOthers(w.store, w.ledger, id, rec);
    forall d | d in w.drivers ensures DriverOk(w.store[id := rec], w.drivers[d]) {
      ReplaceDriver(w.store, id, rec, w.drivers[d]);
    }
    forall q | q in w.requests ensures RequestOk(w.store[id := rec], w.ledger, q) {
      ReplaceRequest(w.store, w.ledger, id, rec, q);
    }
    forall r | r in w.replies ensures ReplyOk(w.store[id := rec], w.ledger, r) {
      ReplaceReply(w.store, w.ledger, id, rec, r);
    }
  }

  lemma ReplaceRequest(store: Store, s: State, id: string, rec: Record, q: Request)
    requires id in store && RecordOk(store, s, id) && Became(store[id].row, rec.row) && RequestOk(store, s, q)
    ensures RequestOk(store[id := rec], s, q)
  {
    if q.PostReq? && q.id == id {
      SamePostings(store[id].row, rec.row);
    }
  }

  lemma SamePostings(t: Transfer, u: Transfer)
    requires Became(t, u) && t.holdId.Some? && t.phase in {Phase.Posting, Completed, Releasing, Failed}
    ensures BuildPostings(t) == BuildPostings(u)
  {
  }

  lemma ParkInv(w: World, d: nat, s: Driver)
    requires TableInv(w) && DriverOk(w.store, s)
    ensures GoodStep(w, Park(w, d, s))
  {
  }

  lemma SendInv(w: World, d: nat, s: Driver, q: Request)
    requires TableInv(w) && DriverOk(w.store, s) && RequestOk(w.store, w.ledger, q)
    ensures TableInv(Send(w, d, s, q))
  {
  }

  /** The state-only guard works as a full compare-and-swap: when the phase still matches, the row
      is the snapshot itself but for the claim counter. */
  lemma GuardIsCompareAndSwap(w: World, s: Driver)
    requires TableInv(w) && DriverOk(w.store, s) && !s.Idle?
    ensures s.t.id in w.store
    ensures w.store[s.t.id].row.phase == s.t.phase <==> w.store[s.t.id].row == s.t.(attempts := w.store[s.t.id].row.attempts)
  {
  }

  /** The row a successful transition writes. */
  ghost predicate GoodMove(t: Transfer, u: Transfer, e: Trigger, s: State) {
    && Next(t.phase, e).Some? && u.phase == Next(t.phase, e).value
    && Became(t, u) && RowOk(u, s)
  }

  lemma PathExtends(hops: seq<Hop>, p: Phase, e: Trigger)
    requires PathTo(hops, p) && Next(p, e).Some?
    ensures PathTo(hops + [Hop(p, Next(p, e).value)], Next(p, e).value)
  {
    var more := hops + [Hop(p, Next(p, e).value)];
    forall i | 0 < i < |more|
      ensures more[i].before == more[i - 1].after && Edge(more[i])
    {
      if i < |hops| {
        assert hops[i].before == hops[i - 1].after && Edge(hops[i]);
      } else {
        assert Next(more[i].before, e) == Some(more[i].after);
      }
    }
  }

  lemma MoveInv(w: World, d: nat, t: Transfer, e: Trigger)
    requires TableInv(w) && t.id in w.store && Next(t.phase, e).Some?
    requires w.store[t.id].row.phase == t.phase ==>
               GoodMove(w.store[t.id].row, Transition(w.store[t.id], t, Next(t.phase, e).value).row, e, w.ledger)
    ensures GoodStep(w, Move(w, d, t, e))
  {
    var rec := w.store[t.id];
    if rec.row.phase == t.phase {
      var next := Next(t.phase, e).value;
      var rec' := Transition(rec, t, next);
      assert RecordOk(w.store, w.ledger, t.id);
      PathExtends(rec.hops, rec.row.phase, e);
      TableDescends(t.phase, e);
      var v := w.(store := w.store[t.id := rec']);
      assert RecordOk(v.store, w.ledger, t.id);
      ReplaceRecord(w, t.id, rec');
      ParkInv(v, d, Idle);
      assert Park(v, d, Idle) == Move(w, d, t, e);
    } else {
      assert w.store[t.id := rec] == w.store;
      ParkInv(w, d, Idle);
      assert Park(w, d, Idle) == Move(w, d, t, e);
    }
  }
}

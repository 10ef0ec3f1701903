/** One uninterrupted driver: the drive loop, the recovery worker's pass, and how far they get. */
module SagaDrive {
  import opened Int64
  import opened LedgerDomain
  import opened Ledger
  import opened LedgerLaws
  import LedgerTheorems
  import opened TransferDomain
  import opened Saga
  import SagaLaws
  import opened SagaTheorems

  /** Calls made in these phases come back ambiguous; the flag tells whether they were executed. */
  type Faults = map<Phase, bool>

  /** What a driver meets: the answers of validation, the faults of its ledger calls, the text of error
      codes, and the expiry and id of a new hold. */
  datatype Env = Env(answers: Answers, faults: Faults, describe: Error -> string, expiresAt: int, newId: Uuid)

  datatype Outcome = Final(t: Transfer) | Parked(t: Transfer) | Stopped

  /** The transfer is yet to be validated, and the account service is unreachable. */
  ghost predicate Awaits(t: Transfer, answers: Answers) {
    t.phase in {Created, Validating} && Waits(t, answers)
  }

  /** The transfer is yet to be validated, and what validation has to ask fails without an answer. */
  ghost predicate Collapses(t: Transfer, answers: Answers) {
    t.phase in {Created, Validating} && Breaks(t, answers)
  }

  /** Validation gives no verdict. */
  ghost predicate Undecided(t: Transfer, answers: Answers) {
    Awaits(t, answers) || Collapses(t, answers)
  }

  // ---------------------------------------------------------------- tables between calls

  ghost predicate Consistent(store: Store, s: State) {
    RecordsOk(store, s) && EntriesKnown(store, s)
  }

  /** The tables as a world in which nobody else is at work. */
  ghost function Solo(store: Store, s: State): World {
    World(store, map[], {}, {}, s)
  }

  lemma RowId(store: Store, s: State, id: string)
    requires RecordsOk(store, s) && id in store
    ensures store[id].row.id == id
  {
    assert RecordOk(store, s, id);
  }

  lemma SoloInv(store: Store, s: State)
    requires Consistent(store, s)
    ensures TableInv(Solo(store, s))
  {
  }

  /** Only the driven transfer changes, it moves down the table, and each transition it makes costs
      rank. */
  ghost predicate Progress(store: Store, store': Store, id: string) {
    && id in store && id in store'
    && store' == store[id := store'[id]]
    && Became(store[id].row, store'[id].row)
    && store[id].hops <= store'[id].hops
    && |store'[id].hops| - |store[id].hops| <= Rank(store[id].row.phase) - Rank(store'[id].row.phase)
  }

  lemma ProgressTransitive(a: Store, b: Store, c: Store, id: string)
    requires Progress(a, b, id) && Progress(b, c, id)
    ensures Progress(a, c, id)
  {
    BecameTransitive(a[id].row, b[id].row, c[id].row);
  }

  lemma NoProgress(store: Store, id: string)
    requires id in store
    ensures Progress(store, store, id)
  {
  }

  /** Of all holds only the transfer's own may have changed, and not back from what it settled at. */
  ghost predicate OwnHolds(s: State, s': State, id: string) {
    && SagaLaws.HoldsGrow(s, s')
    && forall h :: h in s.holds && s.holds[h].reference != TransferRef(id) ==> s'.holds[h] == s.holds[h]
  }

  lemma OwnHoldsTransitive(s: State, t: State, u: State, id: string)
    requires OwnHolds(s, t, id) && OwnHolds(t, u, id)
    ensures OwnHolds(s, u, id)
  {
  }

  ghost function Moved(store: Store, t: Transfer, next: Phase): Store
    requires t.id in store
  {
    store[t.id := Transition(store[t.id], t, next)]
  }

  /** A transition from the row just read. */
  lemma MovedOk(store: Store, s: State, t: Transfer, t': Transfer, e: Trigger)
    requires Consistent(store, s) && HoldsOk(s)
    requires SagaLaws.MoveOk(store, s, t, t', e) && store[t.id].row == t
    ensures Consistent(Moved(store, t', Next(t.phase, e).value), s)
    ensures Progress(store, Moved(store, t', Next(t.phase, e).value), t.id)
    ensures Moved(store, t', Next(t.phase, e).value)[t.id].row == t'.(phase := Next(t.phase, e).value)
  {
    SoloInv(store, s);
    SagaLaws.DriverMove(Solo(store, s), 0, t, t', e);
    MovedRow(store[t.id], t', Next(t.phase, e).value);
    TableDescends(t.phase, e);
  }

  lemma UnheldMove(store: Store, s: State, t: Transfer, u: Transfer)
    requires Consistent(store, s) && HoldsOk(s) && t.id in store && store[t.id].row == t
    requires t.phase == Held && u == t.(reason := u.reason)
    ensures Consistent(Moved(store, u, Releasing), s) && Progress(store, Moved(store, u, Releasing), t.id)
    ensures Moved(store, u, Releasing)[t.id].row == u.(phase := Releasing) && u.holdId.None?
  {
    assert RecordOk(store, s, t.id);
    MovedOk(store, s, t, u, EvHoldFailed);
  }

  lemma BecameSelf(t: Transfer)
    ensures Became(t, t)
  {
  }

  lemma HeldMove(store: Store, s: State, t: Transfer, h: Uuid, u: Transfer)
    requires Consistent(store, s) && HoldsOk(s) && t.id in store && store[t.id].row == t
    requires t.phase == Held && HoldFor(t, h, s) && u == t.(holdId := Some(h))
    ensures Consistent(Moved(store, u, Phase.Posting), s) && Progress(store, Moved(store, u, Phase.Posting), t.id)
    ensures Moved(store, u, Phase.Posting)[t.id].row == u.(phase := Phase.Posting)
  {
    BecameSelf(t);
    SagaLaws.HoldMoveOk(store, s, t, h);
    MovedOk(store, s, t, u, EvPostingStarted);
  }

  lemma PostedMove(store: Store, s: State, t: Transfer)
    requires Consistent(store, s) && HoldsOk(s) && t.id in store && store[t.id].row == t
    requires t.phase == Phase.Posting && TransferRef(t.id) in s.entryRefs
    ensures Consistent(Moved(store, t, Completed), s) && Progress(store, Moved(store, t, Completed), t.id)
    ensures Moved(store, t, Completed)[t.id].row == t.(phase := Completed)
  {
    MovedOk(store, s, t, t, EvPosted);
  }

  lemma RefusedMove(store: Store, s: State, t: Transfer, u: Transfer)
    requires Consistent(store, s) && HoldsOk(s) && t.id in store && store[t.id].row == t
    requires t.phase == Phase.Posting && u == t.(reason := u.reason)
    ensures Consistent(Moved(store, u, Releasing), s) && Progress(store, Moved(store, u, Releasing), t.id)
    ensures Moved(store, u, Releasing)[t.id].row == u.(phase := Releasing)
  {
    MovedOk(store, s, t, u, EvPostFailed);
  }

  lemma ReleasedMove(store: Store, s: State, t: Transfer)
    requires Consistent(store, s) && HoldsOk(s) && t.id in store && store[t.id].row == t && t.phase == Releasing
    requires t.holdId.Some? ==> t.holdId.value in s.holds && s.holds[t.holdId.value].status == HoldReleased
    ensures Consistent(Moved(store, t, Failed), s) && Progress(store, Moved(store, t, Failed), t.id)
    ensures Moved(store, t, Failed)[t.id].row == t.(phase := Failed)
  {
    MovedOk(store, s, t, t, EvReleased);
  }

  lemma MovedRow(rec: Record, t: Transfer, next: Phase)
    requires rec.row.phase == t.phase
    requires t.(to := rec.row.to, counterAmount := rec.row.counterAmount, counterCurrency := rec.row.counterCurrency,
                rateMicros := rec.row.rateMicros, ratePair := rec.row.ratePair, reason := rec.row.reason,
                holdId := rec.row.holdId) == rec.row
    ensures Transition(rec, t, next).row == t.(phase := next)
  {
  }

  // ---------------------------------------------------------------- what the ledger answers

  lemma HoldCall(store: Store, s: State, id: string, e: int, newId: Uuid)
    requires Consistent(store, s) && WellFormed(s) && HoldsOk(s) && id in store
    ensures var t := store[id].row;
            var (s', r) := PlaceHold(s, SourceRef(t), t.amount, t.currency, TransferRef(id), e, newId);
            Consistent(store, s') && OwnHolds(s, s', id) && (r.Ok? ==> HoldFor(t, r.value, s'))
  {
    var t := store[id].row;
    SoloInv(store, s);
    assert RecordOk(store, s, id);
    SagaLaws.ExecHold(Solo(store, s), id, SourceRef(t), t.amount, t.currency, e, newId);
    SagaLaws.PlaceGrows(s, SourceRef(t), t.amount, t.currency, TransferRef(id), e, newId);
    PlaceHoldWrites(s, SourceRef(t), t.amount, t.currency, TransferRef(id), e, newId);
    var (s', r) := PlaceHold(s, SourceRef(t), t.amount, t.currency, TransferRef(id), e, newId);
    if r.Ok? {
      assert ReplyOk(store, s', HoldPlaced(id, r.value));
    }
  }

  lemma PostOwn(s: State, id: string, holdId: Option<Uuid>, specs: seq<PostingSpec>)
    requires WellFormed(s)
    ensures OwnHolds(s, Post(s, TransferRef(id), holdId, specs).0, id)
  {
    SagaLaws.PostGrows(s, TransferRef(id), holdId, specs);
    PostShape(s, TransferRef(id), holdId, specs);
  }

  lemma PostCall(store: Store, s: State, id: string)
    requires Consistent(store, s) && WellFormed(s) && id in store && store[id].row.holdId.Some?
    ensures var t := store[id].row;
            var (s', r) := Post(s, TransferRef(id), t.holdId, BuildPostings(t));
            Consistent(store, s') && OwnHolds(s, s', id) && (r.Ok? ==> TransferRef(id) in s'.entryRefs)
  {
    var t := store[id].row;
    SoloInv(store, s);
    SagaLaws.ExecPost(Solo(store, s), id, t.holdId, BuildPostings(t));
    PostOwn(s, id, t.holdId, BuildPostings(t));
    if Post(s, TransferRef(id), t.holdId, BuildPostings(t)).1.Ok? {
      LedgerTheorems.PostLeaves(s, TransferRef(id), t.holdId, BuildPostings(t));
    }
  }

  lemma ReleaseCall(store: Store, s: State, h: Uuid, id: string)
    requires Consistent(store, s) && WellFormed(s) && h in s.holds && s.holds[h].reference == TransferRef(id)
    ensures Consistent(store, Release(s, h).0) && OwnHolds(s, Release(s, h).0, id)
  {
    SoloInv(store, s);
    SagaLaws.ExecRelease(Solo(store, s), h);
    SagaLaws.ReleaseGrows(s, h);
  }

  /** A post that went through is replayed, so a refused one has not gone through. */
  lemma CapturedReplays(t: Transfer, s: State)
    requires RowOk(t, s) && WellFormed(s) && HoldsOk(s) && t.holdId.Some?
    ensures var (s', r) := Post(s, TransferRef(t.id), t.holdId, BuildPostings(t));
            && (s.holds[t.holdId.value].status == HoldCaptured ==> s' == s && r.Ok?)
            && (r.Err? ==> s' == s)
  {
    PostShape(s, TransferRef(t.id), t.holdId, BuildPostings(t));
    if s.holds[t.holdId.value].status == HoldCaptured {
      assert TransferRef(t.id) in s.entryRefs;
      var i := s.entryRefs[TransferRef(t.id)];
      LedgerTheorems.Answer(s, TransferRef(t.id), i, s.journal[i].legs, t.holdId, BuildPostings(t));
    }
  }

  lemma NamedHold(store: Store, s: State, t: Transfer)
    requires RecordsOk(store, s) && t.id in store && store[t.id].row == t && t.holdId.Some?
    ensures t.holdId.value in s.holds && s.holds[t.holdId.value].reference == TransferRef(t.id)
  {
    assert RecordOk(store, s, t.id);
  }

  lemma ReleaseFacts(store: Store, s: State, t: Transfer, h: Uuid)
    requires Consistent(store, s) && WellFormed(s) && HoldsOk(s) && HeldOk(s)
    requires t.id in store && store[t.id].row == t && t.holdId == Some(h) && t.phase == Releasing
    ensures var (s', r) := Release(s, h);
            && Consistent(store, s') && OwnHolds(s, s', t.id)
            && (r.Ok? <==> !Sink(t, s))
            && if r.Ok? then h in s'.holds && s'.holds[h].status == HoldReleased else s' == s && r.error == HoldNotActive
  {
    NamedHold(store, s, t);
    ReleaseCall(store, s, h, t.id);
    ReleaseAnswer(s, h);
  }

  ghost predicate Open(h: Uuid, s: State) {
    h in s.holds && s.holds[h].status != HoldCaptured
  }

  lemma PostAnswer(store: Store, s: State, id: string)
    requires Consistent(store, s) && WellFormed(s) && HoldsOk(s) && id in store && store[id].row.phase == Phase.Posting
    ensures var t := store[id].row;
            var (s', r) := Post(s, TransferRef(id), t.holdId, BuildPostings(t));
            && Consistent(store, s') && OwnHolds(s, s', id) && t.holdId.Some?
            && if r.Ok? then TransferRef(id) in s'.entryRefs else Open(t.holdId.value, s')
  {
    assert RecordOk(store, s, id);
    PostCall(store, s, id);
    CapturedReplays(store[id].row, s);
  }

  lemma ReleaseAnswer(s: State, h: Uuid)
    requires WellFormed(s) && HoldsOk(s) && HeldOk(s) && h in s.holds
    ensures Release(s, h).1.Ok? <==> s.holds[h].status != HoldCaptured
    ensures Release(s, h).1.Ok? ==> h in Release(s, h).0.holds && Release(s, h).0.holds[h].status == HoldReleased
    ensures Release(s, h).1.Err? ==> Release(s, h) == (s, Err(HoldNotActive))
  {
    ReleaseShape(s, h);
    SagaLaws.ReleaseKnown(s, h);
  }

  // ---------------------------------------------------------------- one turn of the loop

  /** The tables after a turn, and whether it ended the drive. */
  datatype Turning = Turning(store: Store, ledger: State, parked: bool, failed: bool)

  ghost function Onward(store: Store, s: State): Turning {
    Turning(store, s, false, false)
  }

  ghost function ValidateTurn(store: Store, s: State, t: Transfer, env: Env): Turning
    requires t.id in store
  {
    match Judge(t, env.answers)
    case Postpone => Turning(store, s, true, false)
    case Abort => Turning(store, s, false, true)
    case Reject(reason) => Onward(Moved(store, t.(reason := Some(reason)), Failed), s)
    case Accept(_, _, _, _, _) => Onward(Moved(store, Accepted(t, Judge(t, env.answers)), Held), s)
  }

  ghost function HeldTurn(store: Store, s: State, t: Transfer, env: Env): Turning
    requires t.id in store && WellFormed(s)
  {
    if t.holdId.Some? then Onward(Moved(store, t, Phase.Posting), s)
    else if Held in env.faults && !env.faults[Held] then Turning(store, s, true, false)
    else
      var (s', placed) := PlaceHold(s, SourceRef(t), t.amount, t.currency, TransferRef(t.id), env.expiresAt, env.newId);
      if Held in env.faults then Turning(store, s', true, false)
      else if placed.Err? then Onward(Moved(store, t.(reason := Some(env.describe(placed.error))), Releasing), s')
      else Onward(Moved(store, t.(holdId := Some(placed.value)), Phase.Posting), s')
  }

  ghost function PostTurn(store: Store, s: State, t: Transfer, env: Env): Turning
    requires t.id in store && WellFormed(s)
  {
    if Phase.Posting in env.faults && !env.faults[Phase.Posting] then Turning(store, s, true, false)
    else
      var (s', posted) := Post(s, TransferRef(t.id), t.holdId, BuildPostings(t));
      if Phase.Posting in env.faults then Turning(store, s', true, false)
      else if posted.Err? then Onward(Moved(store, t.(reason := Some(env.describe(posted.error))), Releasing), s')
      else Onward(Moved(store, t, Completed), s')
  }

  ghost function ReleaseTurn(store: Store, s: State, t: Transfer, env: Env): Turning
    requires t.id in store && WellFormed(s)
  {
    if t.holdId.None? then Onward(Moved(store, t, Failed), s)
    else if Releasing in env.faults && !env.faults[Releasing] then Turning(store, s, true, false)
    else
      var (s', freed) := Release(s, t.holdId.value);
      if Releasing in env.faults then Turning(store, s', true, false)
      else if freed.Err? && freed.error != NotFound then Turning(store, s', false, true)
      else Onward(Moved(store, t, Failed), s')
  }

  /** A row that already names its hold goes on without asking the ledger. */
  lemma NamedHoldPosts(store: Store, s: State, t: Transfer, env: Env)
    requires t.id in store && store[t.id].row == t && WellFormed(s) && t.phase == Held && t.holdId.Some?
    ensures var r := HeldTurn(store, s, t, env);
            && r.ledger == s && !r.parked && !r.failed
            && t.id in r.store && r.store[t.id].row == t.(phase := Phase.Posting)
  {
  }

  /** A hold the ledger does not know is as good as released. */
  lemma UnknownHoldFails(store: Store, s: State, t: Transfer, env: Env)
    requires t.id in store && store[t.id].row == t && WellFormed(s) && t.phase == Releasing && Releasing !in env.faults
    requires t.holdId.Some? && t.holdId.value !in s.holds
    ensures var r := ReleaseTurn(store, s, t, env);
            && r.ledger == s && !r.parked && !r.failed
            && t.id in r.store && r.store[t.id].row == t.(phase := Failed)
  {
  }

  /** The branch of the row's phase. */
  ghost function TurnOf(store: Store, s: State, t: Transfer, env: Env): Turning
    requires t.id in store && WellFormed(s)
  {
    match t.phase
    case Created => Onward(Moved(store, t, Validating), s)
    case Validating => ValidateTurn(store, s, t, env)
    case Held => HeldTurn(store, s, t, env)
    case Posting => PostTurn(store, s, t, env)
    case Releasing => ReleaseTurn(store, s, t, env)
    case _ => Onward(store, s)
  }

  /** What every turn keeps and achieves. */
  ghost predicate Turned(store: Store, s: State, t: Transfer, env: Env, r: Turning) {
    && Progress(store, r.store, t.id) && OwnHolds(s, r.ledger, t.id)
    && (r.parked || r.failed ==> r.store == store) && !(r.parked && r.failed)
    && (!r.parked && !r.failed ==> Rank(r.store[t.id].row.phase) < Rank(t.phase) && Decided(t, env, r.store[t.id].row))
    && (!r.parked && !r.failed ==> Edge(Hop(t.phase, r.store[t.id].row.phase)))
    && (Unanswered(t, env) ==> r.parked)
    && (r.parked ==> t.phase in env.faults || Awaits(t, env.answers))
    && (r.failed ==> Sink(t, s) || Collapses(t, env.answers))
    && (Sink(t, s) ==> (r.parked || r.failed) && r.ledger == s)
    && (!Sink(t, s) ==> !Sink(r.store[t.id].row, r.ledger))
  }

  /** The call the transfer's phase makes next to the ledger comes back ambiguous. */
  predicate Unanswered(t: Transfer, env: Env) {
    t.phase in env.faults && (t.phase in {Held, Phase.Posting} || (t.phase == Releasing && t.holdId.Some?))
  }

  /** No drive gets past a call that stays unanswered: neither on nor into compensation. */
  ghost predicate Stalled(t: Transfer, env: Env, u: Transfer) {
    && (Unanswered(t, env) ==> u.phase == t.phase)
    && (Held in env.faults && t.phase in {Created, Validating} ==> u.phase in {Created, Validating, Held, Failed})
    && (Phase.Posting in env.faults && t.phase in {Created, Validating, Held} ==> u.phase != Completed)
  }

  /** Before its verdict a transfer only changes phase; the verdict was there if it moved on. */
  ghost predicate Decided(t: Transfer, env: Env, u: Transfer) {
    && (t.phase == Created ==> u == t.(phase := Validating))
    && (t.phase == Validating ==> !Undecided(t, env.answers))
  }

  ghost predicate GoodTurn(store: Store, s: State, t: Transfer, env: Env, r: Turning) {
    Consistent(r.store, r.ledger) && Turned(store, s, t, env, r)
  }

  lemma Stays(store: Store, s: State, s': State, t: Transfer, env: Env)
    requires t.id in store && store[t.id].row == t && t.phase in env.faults && OwnHolds(s, s', t.id)
    requires Sink(t, s') ==> s' == s
    ensures Turned(store, s, t, env, Turning(store, s', true, false))
  {
  }

  lemma GivesUp(store: Store, s: State, t: Transfer, env: Env)
    requires t.id in store && store[t.id].row == t && Sink(t, s) && !Unanswered(t, env)
    ensures Turned(store, s, t, env, Turning(store, s, false, true))
  {
  }

  lemma MovesOn(store: Store, s: State, store': Store, s': State, t: Transfer, env: Env, e: Trigger)
    requires Progress(store, store', t.id) && OwnHolds(s, s', t.id)
    requires t.phase != Created && (t.phase == Validating ==> !Undecided(t, env.answers))
    requires Next(t.phase, e) == Some(store'[t.id].row.phase) && !Unanswered(t, env)
    requires !Sink(t, s) && !Sink(store'[t.id].row, s')
    ensures Turned(store, s, t, env, Onward(store', s'))
  {
    TableDescends(t.phase, e);
    assert Edge(Hop(t.phase, store'[t.id].row.phase));
  }

  lemma OwnHoldsSelf(s: State, id: string)
    ensures OwnHolds(s, s, id)
  {
  }

  lemma RejectMove(store: Store, s: State, t: Transfer, u: Transfer)
    requires Consistent(store, s) && HoldsOk(s) && t.id in store && store[t.id].row == t
    requires t.phase == Validating && u == t.(reason := u.reason)
    ensures Consistent(Moved(store, u, Failed), s) && Progress(store, Moved(store, u, Failed), t.id)
    ensures Moved(store, u, Failed)[t.id].row == u.(phase := Failed)
  {
    MovedOk(store, s, t, u, EvValidationFailed);
  }

  lemma AcceptMove(store: Store, s: State, t: Transfer, v: Verdict)
    requires Consistent(store, s) && HoldsOk(s) && t.id in store && store[t.id].row == t
    requires t.phase == Validating && v.Accept? && CounterOk(Accepted(t, v))
    ensures Consistent(Moved(store, Accepted(t, v), Held), s) && Progress(store, Moved(store, Accepted(t, v), Held), t.id)
    ensures Moved(store, Accepted(t, v), Held)[t.id].row.phase == Held
  {
    MovedOk(store, s, t, Accepted(t, v), EvValidated);
  }

  lemma StartGood(store: Store, s: State, t: Transfer, env: Env)
    requires Consistent(store, s) && HoldsOk(s) && t.id in store && store[t.id].row == t && t.phase == Created
    ensures GoodTurn(store, s, t, env, Onward(Moved(store, t, Validating), s))
  {
    MovedOk(store, s, t, t, EvStart);
    OwnHoldsSelf(s, t.id);
    assert Next(Created, EvStart) == Some(Validating);
  }

  lemma ValidateGood(store: Store, s: State, t: Transfer, env: Env)
    requires Consistent(store, s) && HoldsOk(s) && t.id in store && store[t.id].row == t && t.phase == Validating
    ensures GoodTurn(store, s, t, env, ValidateTurn(store, s, t, env))
  {
    OwnHoldsSelf(s, t.id);
    JudgeWaits(t, env.answers);
    var v := Judge(t, env.answers);
    if v.Reject? {
      RejectMove(store, s, t, t.(reason := Some(v.reason)));
      MovesOn(store, s, Moved(store, t.(reason := Some(v.reason)), Failed), s, t, env, EvValidationFailed);
    } else if v.Accept? {
      AcceptOk(t, env.answers);
      AcceptMove(store, s, t, v);
      MovesOn(store, s, Moved(store, Accepted(t, v), Held), s, t, env, EvValidated);
    }
  }

  lemma HeldHasNoHold(store: Store, s: State, t: Transfer)
    requires RecordsOk(store, s) && t.id in store && store[t.id].row == t && t.phase == Held
    ensures t.holdId.None?
  {
    assert RecordOk(store, s, t.id);
  }

  lemma HeldGood(store: Store, s: State, t: Transfer, env: Env)
    requires Consistent(store, s) && WellFormed(s) && HoldsOk(s) && t.id in store && store[t.id].row == t && t.phase == Held
    requires HoldsOk(PlaceHold(s, SourceRef(t), t.amount, t.currency, TransferRef(t.id), env.expiresAt, env.newId).0)
    ensures GoodTurn(store, s, t, env, HeldTurn(store, s, t, env))
  {
    HeldHasNoHold(store, s, t);
    HoldCall(store, s, t.id, env.expiresAt, env.newId);
    var (s', placed) := PlaceHold(s, SourceRef(t), t.amount, t.currency, TransferRef(t.id), env.expiresAt, env.newId);
    if Held in env.faults {
      OwnHoldsSelf(s, t.id);
      Stays(store, s, if env.faults[Held] then s' else s, t, env);
    } else {
      HeldAnswered(store, s, t, env, s', placed);
    }
  }

  lemma HeldAnswered(store: Store, s: State, t: Transfer, env: Env, s': State, placed: Result<Uuid>)
    requires Consistent(store, s') && WellFormed(s) && HoldsOk(s') && t.id in store && store[t.id].row == t
    requires t.phase == Held && t.holdId.None? && Held !in env.faults && OwnHolds(s, s', t.id)
    requires PlaceHold(s, SourceRef(t), t.amount, t.currency, TransferRef(t.id), env.expiresAt, env.newId) == (s', placed)
    requires placed.Ok? ==> HoldFor(t, placed.value, s')
    ensures GoodTurn(store, s, t, env, HeldTurn(store, s, t, env))
  {
    if placed.Err? {
      var u := t.(reason := Some(env.describe(placed.error)));
      UnheldMove(store, s', t, u);
      MovesOn(store, s, Moved(store, u, Releasing), s', t, env, EvHoldFailed);
    } else {
      var u := t.(holdId := Some(placed.value));
      HeldMove(store, s', t, placed.value, u);
      MovesOn(store, s, Moved(store, u, Phase.Posting), s', t, env, EvPostingStarted);
    }
  }

  /** A refusal leads to compensation only where nothing was posted. */
  lemma PostGood(store: Store, s: State, t: Transfer, env: Env)
    requires Consistent(store, s) && WellFormed(s) && HoldsOk(s)
    requires t.id in store && store[t.id].row == t && t.phase == Phase.Posting
    requires HoldsOk(Post(s, TransferRef(t.id), t.holdId, BuildPostings(t)).0)
    ensures GoodTurn(store, s, t, env, PostTurn(store, s, t, env))
  {
    PostAnswer(store, s, t.id);
    var (s', posted) := Post(s, TransferRef(t.id), t.holdId, BuildPostings(t));
    if Phase.Posting in env.faults {
      OwnHoldsSelf(s, t.id);
      Stays(store, s, if env.faults[Phase.Posting] then s' else s, t, env);
    } else {
      PostAnswered(store, s, t, env, s', posted);
    }
  }

  lemma PostAnswered(store: Store, s: State, t: Transfer, env: Env, s': State, posted: Result<nat>)
    requires Consistent(store, s') && WellFormed(s) && HoldsOk(s') && t.id in store && store[t.id].row == t
    requires t.phase == Phase.Posting && t.holdId.Some? && Phase.Posting !in env.faults && OwnHolds(s, s', t.id)
    requires Post(s, TransferRef(t.id), t.holdId, BuildPostings(t)) == (s', posted)
    requires if posted.Ok? then TransferRef(t.id) in s'.entryRefs else Open(t.holdId.value, s')
    ensures GoodTurn(store, s, t, env, PostTurn(store, s, t, env))
  {
    if posted.Err? {
      var u := t.(reason := Some(env.describe(posted.error)));
      RefusedMove(store, s', t, u);
      MovesOn(store, s, Moved(store, u, Releasing), s', t, env, EvPostFailed);
    } else {
      PostedMove(store, s', t);
      MovesOn(store, s, Moved(store, t, Completed), s', t, env, EvPosted);
    }
  }

  lemma ReleaseGood(store: Store, s: State, t: Transfer, env: Env)
    requires Consistent(store, s) && WellFormed(s) && HoldsOk(s) && HeldOk(s)
    requires t.id in store && store[t.id].row == t && t.phase == Releasing
    requires t.holdId.Some? ==> HoldsOk(Release(s, t.holdId.value).0)
    ensures GoodTurn(store, s, t, env, ReleaseTurn(store, s, t, env))
  {
    OwnHoldsSelf(s, t.id);
    if t.holdId.None? {
      ReleasedMove(store, s, t);
      MovesOn(store, s, Moved(store, t, Failed), s, t, env, EvReleased);
    } else {
      ReleaseHeldGood(store, s, t, t.holdId.value, env);
    }
  }

  lemma ReleaseHeldGood(store: Store, s: State, t: Transfer, h: Uuid, env: Env)
    requires Consistent(store, s) && WellFormed(s) && HoldsOk(s) && HeldOk(s) && HoldsOk(Release(s, h).0)
    requires t.id in store && store[t.id].row == t && t.phase == Releasing && t.holdId == Some(h)
    ensures GoodTurn(store, s, t, env, ReleaseTurn(store, s, t, env))
  {
    ReleaseFacts(store, s, t, h);
    if Releasing in env.faults {
      OwnHoldsSelf(s, t.id);
      Stays(store, s, if env.faults[Releasing] then Release(s, h).0 else s, t, env);
    } else {
      ReleaseAnswered(store, s, t, h, env, Release(s, h).0, Release(s, h).1);
    }
  }

  lemma ReleaseAnswered(store: Store, s: State, t: Transfer, h: Uuid, env: Env, s': State, freed: Result<Hold>)
    requires Consistent(store, s) && WellFormed(s) && HoldsOk(s) && HoldsOk(s') && Consistent(store, s')
    requires t.id in store && store[t.id].row == t && t.phase == Releasing && t.holdId == Some(h) && Releasing !in env.faults
    requires Release(s, h) == (s', freed) && OwnHolds(s, s', t.id) && (freed.Ok? <==> !Sink(t, s))
    requires if freed.Ok? then h in s'.holds && s'.holds[h].status == HoldReleased else s' == s && freed.error == HoldNotActive
    ensures GoodTurn(store, s, t, env, ReleaseTurn(store, s, t, env))
  {
    if freed.Err? {
      OwnHoldsSelf(s, t.id);
      GivesUp(store, s, t, env);
    } else {
      ReleasedMove(store, s', t);
      MovesOn(store, s, Moved(store, t, Failed), s', t, env, EvReleased);
    }
  }

  lemma HeldTurnInv(store: Store, s: State, t: Transfer, env: Env)
    requires Inv(s) && t.id in store
    ensures Inv(HeldTurn(store, s, t, env).ledger)
  {
    PlaceHoldInv(s, SourceRef(t), t.amount, t.currency, TransferRef(t.id), env.expiresAt, env.newId);
  }

  lemma HeldTurnGood(store: Store, s: State, t: Transfer, env: Env)
    requires Inv(s) && Consistent(store, s) && t.id in store && store[t.id].row == t && t.phase == Held
    ensures GoodTurn(store, s, t, env, HeldTurn(store, s, t, env))
  {
    PlaceHoldInv(s, SourceRef(t), t.amount, t.currency, TransferRef(t.id), env.expiresAt, env.newId);
    HeldGood(store, s, t, env);
  }

  lemma PostTurnInv(store: Store, s: State, t: Transfer, env: Env)
    requires Inv(s) && t.id in store
    ensures Inv(PostTurn(store, s, t, env).ledger)
  {
    PostInv(s, TransferRef(t.id), t.holdId, BuildPostings(t));
  }

  lemma PostTurnGood(store: Store, s: State, t: Transfer, env: Env)
    requires Inv(s) && Consistent(store, s) && t.id in store && store[t.id].row == t && t.phase == Phase.Posting
    ensures GoodTurn(store, s, t, env, PostTurn(store, s, t, env))
  {
    PostInv(s, TransferRef(t.id), t.holdId, BuildPostings(t));
    PostGood(store, s, t, env);
  }

  lemma ReleaseTurnInv(store: Store, s: State, t: Transfer, env: Env)
    requires Inv(s) && t.id in store
    ensures Inv(ReleaseTurn(store, s, t, env).ledger)
  {
    if t.holdId.Some? {
      ReleaseInv(s, t.holdId.value);
    }
  }

  lemma ReleaseTurnGood(store: Store, s: State, t: Transfer, env: Env)
    requires Inv(s) && Consistent(store, s) && t.id in store && store[t.id].row == t && t.phase == Releasing
    ensures GoodTurn(store, s, t, env, ReleaseTurn(store, s, t, env))
  {
    if t.holdId.Some? {
      ReleaseInv(s, t.holdId.value);
    }
    ReleaseGood(store, s, t, env);
  }

  lemma TurnInv(store: Store, s: State, t: Transfer, env: Env)
    requires Inv(s) && t.id in store
    ensures Inv(TurnOf(store, s, t, env).ledger)
  {
    match t.phase
    case Created =>
    case Validating =>
    case Held => HeldTurnInv(store, s, t, env);
    case Posting => PostTurnInv(store, s, t, env);
    case Releasing => ReleaseTurnInv(store, s, t, env);
    case Completed =>
    case Failed =>
  }

  /** Every turn keeps the tables good. */
  lemma TurnGood(store: Store, s: State, t: Transfer, env: Env)
    requires Inv(s) && Consistent(store, s) && t.id in store && store[t.id].row == t && !IsTerminal(t.phase)
    ensures GoodTurn(store, s, t, env, TurnOf(store, s, t, env))
  {
    match t.phase
    case Created => StartGood(store, s, t, env);
    case Validating => ValidateGood(store, s, t, env);
    case Held => HeldTurnGood(store, s, t, env);
    case Posting => PostTurnGood(store, s, t, env);
    case Releasing => ReleaseTurnGood(store, s, t, env);
  }

  // ---------------------------------------------------------------- the whole drive

  /** A turn that parks or fails, and a terminal row, end the drive. */
  ghost predicate Ends(r: Turning, id: string) {
    r.parked || r.failed || (id in r.store && IsTerminal(r.store[id].row.phase))
  }

  ghost predicate NextTurn(a: Turning, b: Turning, id: string, env: Env) {
    && !Ends(a, id) && id in a.store && a.store[id].row.id == id && WellFormed(a.ledger)
    && b == TurnOf(a.store, a.ledger, a.store[id].row, env)
  }

  ghost predicate TurnAt(trace: seq<Turning>, i: int, id: string, env: Env)
    requires 0 < i < |trace|
  {
    NextTurn(trace[i - 1], trace[i], id, env)
  }

  /** Turn after turn from the given tables. */
  ghost predicate Trace(trace: seq<Turning>, store: Store, s: State, id: string, env: Env) {
    && trace != [] && trace[0] == Onward(store, s)
    && forall i {:trigger TurnAt(trace, i, id, env)} :: 0 < i < |trace| ==> TurnAt(trace, i, id, env)
  }

  /** From these tables the drive ends in r, after at most as many turns as the phase has rank. */
  ghost predicate Drives(store: Store, s: State, id: string, env: Env, r: Turning) {
    id in store && Ends(r, id) && exists trace :: DrivesBy(trace, store, s, id, env, r)
  }

  ghost predicate DrivesBy(trace: seq<Turning>, store: Store, s: State, id: string, env: Env, r: Turning)
    requires id in store
  {
    Trace(trace, store, s, id, env) && |trace| <= Rank(store[id].row.phase) + 1 && trace[|trace| - 1] == r
  }

  lemma TraceSnoc(trace: seq<Turning>, store: Store, s: State, id: string, env: Env, r: Turning)
    requires Trace(trace, store, s, id, env) && NextTurn(trace[|trace| - 1], r, id, env)
    ensures Trace(trace + [r], store, s, id, env)
  {
    var more := trace + [r];
    forall i | 0 < i < |more| ensures TurnAt(more, i, id, env) {
      if i < |trace| {
        assert TurnAt(trace, i, id, env);
      }
    }
  }

  lemma DrivesStop(trace: seq<Turning>, store: Store, s: State, id: string, env: Env, r: Turning)
    requires id in store && Trace(trace, store, s, id, env) && trace[|trace| - 1] == r && Ends(r, id)
    requires |trace| <= Rank(store[id].row.phase) + 1
    ensures Drives(store, s, id, env, r)
  {
    assert DrivesBy(trace, store, s, id, env, r);
  }

  lemma DrivesNow(store: Store, s: State, id: string, env: Env)
    requires id in store && IsTerminal(store[id].row.phase)
    ensures Drives(store, s, id, env, Onward(store, s))
  {
    assert DrivesBy([Onward(store, s)], store, s, id, env, Onward(store, s));
  }

  lemma {:induction false} TracesAgree(a: seq<Turning>, b: seq<Turning>, store: Store, s: State, id: string, env: Env, i: nat)
    requires Trace(a, store, s, id, env) && Trace(b, store, s, id, env) && i < |a| && i < |b|
    ensures a[i] == b[i]
  {
    if i > 0 {
      TracesAgree(a, b, store, s, id, env, i - 1);
      assert TurnAt(a, i, id, env) && TurnAt(b, i, id, env);
    }
  }

  lemma TraceGoesOn(trace: seq<Turning>, store: Store, s: State, id: string, env: Env, i: nat)
    requires Trace(trace, store, s, id, env) && i + 1 < |trace|
    ensures !Ends(trace[i], id)
  {
    assert TurnAt(trace, i + 1, id, env);
  }

  /** The outcome of a drive is determined. */
  lemma DrivesUnique(store: Store, s: State, id: string, env: Env, r: Turning, q: Turning)
    requires Drives(store, s, id, env, r) && Drives(store, s, id, env, q)
    ensures r == q
  {
    var a :| DrivesBy(a, store, s, id, env, r);
    var b :| DrivesBy(b, store, s, id, env, q);
    var n := if |a| < |b| then |a| else |b|;
    TracesAgree(a, b, store, s, id, env, n - 1);
    if |a| < |b| {
      TraceGoesOn(b, store, s, id, env, n - 1);
    } else if |b| < |a| {
      TraceGoesOn(a, store, s, id, env, n - 1);
    }
  }

  /** The loop's invariant, from the tables it started with. */
  ghost predicate Driven(store0: Store, s0: State, store: Store, s: State, id: string, env: Env) {
    && Progress(store0, store, id) && OwnHolds(s0, s, id)
    && (Sink(store0[id].row, s0) <==> Sink(store[id].row, s))
    && (Sink(store0[id].row, s0) ==> store == store0 && s == s0)
    && Stalled(store0[id].row, env, store[id].row)
    && (Awaits(store0[id].row, env.answers) <==> Awaits(store[id].row, env.answers))
    && (Collapses(store0[id].row, env.answers) <==> Collapses(store[id].row, env.answers))
  }

  lemma DrivenStart(store: Store, s: State, id: string, env: Env)
    requires id in store
    ensures Driven(store, s, store, s, id, env)
  {
  }

  lemma VerdictPending(t: Transfer, u: Transfer, env: Env)
    requires Became(t, u) && Decided(t, env, u) && Rank(u.phase) < Rank(t.phase)
    ensures Awaits(u, env.answers) <==> Awaits(t, env.answers)
    ensures Collapses(u, env.answers) <==> Collapses(t, env.answers)
  {
  }

  lemma DrivenTurn(store0: Store, s0: State, store: Store, s: State, r: Turning, id: string, env: Env)
    requires Driven(store0, s0, store, s, id, env)
    requires Turned(store, s, store[id].row, env, r) && !r.parked && !r.failed && store[id].row.id == id
    ensures Driven(store0, s0, r.store, r.ledger, id, env)
  {
    ProgressTransitive(store0, store, r.store, id);
    OwnHoldsTransitive(s0, s, r.ledger, id);
    VerdictPending(store[id].row, r.store[id].row, env);
    StallsOn(store0[id].row, store[id].row, r.store[id].row, env);
  }

  lemma StallsOn(t: Transfer, u: Transfer, v: Transfer, env: Env)
    requires Became(t, u) && Stalled(t, env, u) && Edge(Hop(u.phase, v.phase)) && !Unanswered(u, env)
    ensures Stalled(t, env, v)
  {
    var e :| Next(u.phase, e) == Some(v.phase);
    TableExact(u.phase, e, v.phase);
    TableDescends(u.phase, e);
  }

  /** Where a drive ends. It parks only on a call that stayed unanswered or on an unreachable account
      service, and stops only in the sink, where it changes nothing, or when validation breaks off; on
      no fault it does exactly that, and otherwise ends terminal. */
  ghost predicate Reached(store0: Store, s0: State, store: Store, s: State, id: string, env: Env, out: Outcome) {
    && Progress(store0, store, id) && OwnHolds(s0, s, id)
    && (out.Final? ==> out.t == store[id].row && IsTerminal(out.t.phase))
    && (!out.Final? ==> !IsTerminal(store[id].row.phase))
    && (out.Parked? ==> out.t == store[id].row && (out.t.phase in env.faults || Awaits(store0[id].row, env.answers)))
    && (out.Stopped? ==> Sink(store0[id].row, s0) || Collapses(store0[id].row, env.answers))
    && (Sink(store0[id].row, s0) ==> store == store0 && s == s0)
    && Stalled(store0[id].row, env, store[id].row)
    && (env.faults == map[] ==>
          && (out.Parked? <==> Awaits(store0[id].row, env.answers))
          && (out.Stopped? <==> Sink(store0[id].row, s0) || Collapses(store0[id].row, env.answers))
          && (out.Final? <==> !Sink(store0[id].row, s0) && !Undecided(store0[id].row, env.answers)))
  }

  lemma ReachedStop(store0: Store, s0: State, store: Store, s: State, r: Turning, id: string, env: Env, out: Outcome)
    requires Driven(store0, s0, store, s, id, env) && !IsTerminal(store[id].row.phase) && store[id].row.id == id
    requires Turned(store, s, store[id].row, env, r) && (r.parked || r.failed)
    requires out == if r.failed then Stopped else Parked(r.store[id].row)
    ensures Reached(store0, s0, r.store, r.ledger, id, env, out)
  {
    OwnHoldsTransitive(s0, s, r.ledger, id);
  }

  lemma ReachedEnd(store0: Store, s0: State, store: Store, s: State, id: string, env: Env)
    requires Driven(store0, s0, store, s, id, env) && IsTerminal(store[id].row.phase)
    ensures Reached(store0, s0, store, s, id, env, Final(store[id].row))
  {
  }

  /** The drive so far: the trace leads to the current tables, and has used no more turns than rank. */
  ghost predicate Underway(store0: Store, s0: State, store: Store, s: State, id: string, env: Env, trace: seq<Turning>) {
    && Driven(store0, s0, store, s, id, env)
    && Trace(trace, store0, s0, id, env) && trace[|trace| - 1] == Onward(store, s)
    && |trace| + Rank(store[id].row.phase) <= Rank(store0[id].row.phase) + 1
  }

  lemma UnderwayStart(store: Store, s: State, id: string, env: Env)
    requires id in store
    ensures Underway(store, s, store, s, id, env, [Onward(store, s)])
  {
    DrivenStart(store, s, id, env);
  }

  ghost predicate Extended(store0: Store, s0: State, store: Store, s: State, id: string, env: Env, trace: seq<Turning>, r: Turning) {
    && Underway(store0, s0, store, s, id, env, trace) && store[id].row.id == id && !IsTerminal(store[id].row.phase)
    && Turned(store, s, store[id].row, env, r) && Trace(trace + [r], store0, s0, id, env)
  }

  lemma UnderwayNext(store0: Store, s0: State, store: Store, s: State, id: string, env: Env, trace: seq<Turning>, r: Turning)
    requires Extended(store0, s0, store, s, id, env, trace, r) && !r.parked && !r.failed
    ensures Underway(store0, s0, r.store, r.ledger, id, env, trace + [r])
    ensures Rank(r.store[id].row.phase) < Rank(store[id].row.phase)
  {
    DrivenTurn(store0, s0, store, s, r, id, env);
  }

  lemma UnderwayStop(store0: Store, s0: State, store: Store, s: State, id: string, env: Env, trace: seq<Turning>, r: Turning)
    requires Extended(store0, s0, store, s, id, env, trace, r) && (r.parked || r.failed)
    ensures id in r.store
    ensures Reached(store0, s0, r.store, r.ledger, id, env, if r.failed then Stopped else Parked(r.store[id].row))
    ensures Drives(store0, s0, id, env, r) && r.parked == !r.failed
  {
    ReachedStop(store0, s0, store, s, r, id, env, if r.failed then Stopped else Parked(r.store[id].row));
    DrivesStop(trace + [r], store0, s0, id, env, r);
  }

  lemma UnderwayEnd(store0: Store, s0: State, store: Store, s: State, id: string, env: Env, trace: seq<Turning>)
    requires Underway(store0, s0, store, s, id, env, trace) && IsTerminal(store[id].row.phase)
    ensures Reached(store0, s0, store, s, id, env, Final(store[id].row)) && Drives(store0, s0, id, env, Onward(store, s))
  {
    ReachedEnd(store0, s0, store, s, id, env);
    DrivesStop(trace, store0, s0, id, env, Onward(store, s));
  }

  // ---------------------------------------------------------------- recovery

  predicate Recoverable(p: Phase) {
    p in {Held, Phase.Posting, Releasing}
  }

  predicate Exhausted(t: Transfer) {
    t.attempts > MAX_ATTEMPTS && t.phase != Releasing
  }

  /** The start of a recovery pass: a POSTING row whose entry is found is completed, a row out of
      attempts is given up, or left alone where the table has no such edge. */
  ghost predicate Prepared(store: Store, s: State, id: string, probeLost: bool, store': Store, done: bool)
    requires id in store && store[id].row.id == id
  {
    var t := store[id].row;
    if t.phase == Phase.Posting && !probeLost && TransferRef(id) in s.entryRefs then
      done && store' == Moved(store, t, Completed)
    else if Exhausted(t) then
      if Next(t.phase, EvRecoveryExhausted).None? then done && store' == store
      else !done && store' == Moved(store, t.(reason := Some("recovery_exhausted")), Releasing)
    else !done && store' == store
  }

  /** The ledger answers that the transfer was posted. */
  ghost predicate PostFound(t: Transfer, s: State, probeLost: bool) {
    t.phase == Phase.Posting && !probeLost && Reference("transfer", t.id) in s.entryRefs
  }

  /** The five-attempt budget: a row whose entry is found is completed; otherwise HELD and POSTING are
      driven on as they are up to five attempts, and given up after that; other rows are never given up. */
  ghost predicate Budgeted(store: Store, s: State, id: string, probeLost: bool, env: Env, r: Turning)
    requires id in store
  {
    var rec := store[id];
    var t := rec.row;
    if PostFound(t, s, probeLost) then
      r.ledger == s && id in r.store && r.store[id].row == t.(phase := Completed)
    else if t.phase in {Held, Phase.Posting} && 5 < t.attempts then
      var given := Record(t.(phase := Releasing, reason := Some("recovery_exhausted")),
                          rec.hops + [Hop(t.phase, Releasing)], rec.published);
      Drives(store[id := given], s, id, env, r)
    else if t.phase !in {Held, Phase.Posting, Releasing} && 5 < t.attempts then r == Onward(store, s)
    else Drives(store, s, id, env, r)
  }

  lemma PreparedBudget(store: Store, s: State, id: string, probeLost: bool, env: Env, start: Store, done: bool, r: Turning)
    requires id in store && store[id].row.id == id && Prepared(store, s, id, probeLost, start, done)
    requires if done then r == Onward(start, s) else Drives(start, s, id, env, r)
    ensures Budgeted(store, s, id, probeLost, env, r)
  {
    var rec := store[id];
    if !done && Exhausted(rec.row) {
      GivenRow(rec, rec.row.(reason := Some("recovery_exhausted")));
    }
  }

  lemma GivenRow(rec: Record, u: Transfer)
    requires u == rec.row.(reason := u.reason)
    ensures Transition(rec, u, Releasing) == Record(u.(phase := Releasing), rec.hops + [Hop(u.phase, Releasing)], rec.published)
  {
    assert rec.published + [] == rec.published;
  }

  lemma RecoversBudget(store: Store, s: State, id: string, probeLost: bool, env: Env, r: Turning)
    requires RecoversTo(store, s, id, probeLost, env, r)
    ensures Budgeted(store, s, id, probeLost, env, r)
  {
    var start, done :| Prepared(store, s, id, probeLost, start, done)
                       && if done then r == Onward(start, s) else Drives(start, s, id, env, r);
    PreparedBudget(store, s, id, probeLost, env, start, done, r);
  }

  /** A whole pass: the start, and then the transfer is driven on unless that was all. */
  ghost predicate RecoversTo(store: Store, s: State, id: string, probeLost: bool, env: Env, r: Turning) {
    && id in store && store[id].row.id == id
    && exists start, done ::
         && Prepared(store, s, id, probeLost, start, done)
         && if done then r == Onward(start, s) else Drives(start, s, id, env, r)
  }

  ghost predicate PassAt(tables: seq<Turning>, i: nat, ids: seq<string>, probeLost: bool, env: string -> Env)
    requires i + 1 < |tables| && i < |ids|
  {
    RecoversTo(tables[i].store, tables[i].ledger, ids[i], probeLost, env(ids[i]), tables[i + 1])
  }

  /** The tables between the passes of a batch. */
  ghost predicate Passes(tables: seq<Turning>, ids: seq<string>, probeLost: bool, env: string -> Env) {
    && 0 < |tables| <= |ids| + 1
    && forall i {:trigger PassAt(tables, i, ids, probeLost, env)} ::
         0 <= i < |tables| - 1 ==> PassAt(tables, i, ids, probeLost, env)
  }

  lemma PassesSnoc(tables: seq<Turning>, ids: seq<string>, probeLost: bool, env: string -> Env, n: nat, store: Store, s: State,
                   r: Turning)
    requires Passes(tables, ids, probeLost, env) && |tables| == n + 1 && n < |ids|
    requires tables[n].store == store && tables[n].ledger == s
    requires RecoversTo(store, s, ids[n], probeLost, env(ids[n]), r)
    ensures Passes(tables + [r], ids, probeLost, env)
  {
    var more := tables + [r];
    forall i | 0 <= i < |more| - 1 ensures PassAt(more, i, ids, probeLost, env) {
      if i < |tables| - 1 {
        assert PassAt(tables, i, ids, probeLost, env);
      }
    }
  }

  /** What one recovery pass over a transfer achieves. */
  ghost predicate Recovered(store0: Store, s0: State, store: Store, s: State, id: string, undisturbed: bool) {
    && Progress(store0, store, id) && OwnHolds(s0, s, id)
    && (Recoverable(store0[id].row.phase) ==>
          && (Sink(store0[id].row, s0) ==> store == store0 && s == s0)
          && (undisturbed ==> (IsTerminal(store[id].row.phase) <==> !Sink(store0[id].row, s0))))
  }

  lemma PreparedGood(store: Store, s: State, id: string, probeLost: bool, start: Store, done: bool)
    requires Consistent(store, s) && HoldsOk(s) && id in store && store[id].row.id == id
    requires Prepared(store, s, id, probeLost, start, done)
    ensures Consistent(start, s) && Progress(store, start, id)
    ensures done && Recoverable(store[id].row.phase) ==> IsTerminal(start[id].row.phase) && !Sink(store[id].row, s)
    ensures !done && Recoverable(store[id].row.phase) ==> Recoverable(start[id].row.phase)
    ensures Sink(store[id].row, s) ==> start == store
    ensures !probeLost && !Sink(store[id].row, s) ==> !Sink(start[id].row, s)
  {
    var t := store[id].row;
    NoProgress(store, id);
    if t.phase == Phase.Posting && !probeLost && TransferRef(id) in s.entryRefs {
      PostedMove(store, s, t);
    } else if Exhausted(t) && Next(t.phase, EvRecoveryExhausted).Some? {
      ExhaustMove(store, s, t, t.(reason := Some("recovery_exhausted")));
      if t.phase == Held {
        HeldNotPosted(store, s, id);
      }
    }
  }

  lemma RecoveredDone(store: Store, s: State, id: string, probeLost: bool, env: Env, start: Store, undisturbed: bool)
    requires Consistent(store, s) && HoldsOk(s) && id in store && store[id].row.id == id
    requires Prepared(store, s, id, probeLost, start, true)
    ensures Consistent(start, s)
    ensures Recovered(store, s, start, s, id, undisturbed) && RecoversTo(store, s, id, probeLost, env, Onward(start, s))
  {
    PreparedGood(store, s, id, probeLost, start, true);
    OwnHoldsSelf(s, id);
  }

  lemma RecoveredDriven(store: Store, s: State, id: string, probeLost: bool, env: Env, start: Store, r: Turning, out: Outcome)
    requires Consistent(store, s) && HoldsOk(s) && id in store && store[id].row.id == id
    requires Prepared(store, s, id, probeLost, start, false)
    requires Reached(start, s, r.store, r.ledger, id, env, out) && Drives(start, s, id, env, r)
    ensures Recovered(store, s, r.store, r.ledger, id, !probeLost && env.faults == map[])
    ensures RecoversTo(store, s, id, probeLost, env, r)
  {
    PreparedGood(store, s, id, probeLost, start, false);
    ProgressTransitive(store, start, r.store, id);
  }

  /** Giving up on a transfer is safe for the sink only if the ledger has been asked: without its
      entry the hold is not captured. */
  lemma ExhaustMove(store: Store, s: State, t: Transfer, u: Transfer)
    requires Consistent(store, s) && HoldsOk(s) && t.id in store && store[t.id].row == t
    requires (t.phase == Held || t.phase == Phase.Posting) && u == t.(reason := u.reason)
    ensures Consistent(Moved(store, u, Releasing), s) && Progress(store, Moved(store, u, Releasing), t.id)
    ensures Moved(store, u, Releasing)[t.id].row == u.(phase := Releasing)
    ensures TransferRef(t.id) !in s.entryRefs ==> !Sink(u.(phase := Releasing), s)
  {
    assert RecordOk(store, s, t.id);
    MovedOk(store, s, t, u, EvRecoveryExhausted);
    if TransferRef(t.id) !in s.entryRefs {
      RowFence(t, s);
    }
  }

  lemma HeldNotPosted(store: Store, s: State, id: string)
    requires Consistent(store, s) && id in store && store[id].row.phase == Held
    ensures TransferRef(id) !in s.entryRefs
  {
    assert RecordOk(store, s, id);
  }

  lemma ClaimKeeps(store: Store, s: State, id: string)
    requires Consistent(store, s) && id in store
    ensures Consistent(store[id := CountAttempt(store[id])], s)
  {
    SoloInv(store, s);
    SagaLaws.ClaimInv(Solo(store, s), id);
  }

  predicate Distinct(ids: seq<string>) {
    forall i, j :: 0 <= i < j < |ids| ==> ids[i] != ids[j]
  }

  /** The claim statement counts one attempt on each of the first n rows. */
  function ClaimAll(store: Store, ids: seq<string>, n: nat): Store
    requires n <= |ids| && forall i :: 0 <= i < |ids| ==> ids[i] in store
    ensures ClaimAll(store, ids, n).Keys == store.Keys
  {
    if n == 0 then store
    else
      var before := ClaimAll(store, ids, n - 1);
      before[ids[n - 1] := CountAttempt(before[ids[n - 1]])]
  }

  lemma {:induction false} ClaimAllOne(store: Store, ids: seq<string>, n: nat, id: string)
    requires n <= |ids| && Distinct(ids) && (forall i :: 0 <= i < |ids| ==> ids[i] in store) && id in store
    ensures ClaimAll(store, ids, n)[id] == if id in ids[..n] then CountAttempt(store[id]) else store[id]
  {
    if n > 0 {
      ClaimAllOne(store, ids, n - 1, id);
      assert ids[..n] == ids[..n - 1] + [ids[n - 1]];
    }
  }

  lemma ClaimAllExact(store: Store, ids: seq<string>, n: nat)
    requires n <= |ids| && Distinct(ids) && forall i :: 0 <= i < |ids| ==> ids[i] in store
    ensures forall id :: id in store ==>
              ClaimAll(store, ids, n)[id] ==
                var rec := store[id];
                if id in ids[..n] then rec.(row := rec.row.(attempts := rec.row.attempts + 1)) else rec
  {
    forall id | id in store
      ensures ClaimAll(store, ids, n)[id] == if id in ids[..n] then CountAttempt(store[id]) else store[id]
    {
      ClaimAllOne(store, ids, n, id);
    }
  }

  /** A worked-off row. */
  ghost predicate Settled(t: Transfer, s: State, u: Transfer, undisturbed: bool) {
    && Became(t, u)
    && (Sink(t, s) ==> u == t)
    && (undisturbed ==> (IsTerminal(u.phase) <==> !Sink(t, s)))
  }

  /** The batch after its first n rows: those are settled, the others wait as they were. */
  ghost predicate Batch(store0: Store, s0: State, store: Store, s: State, ids: seq<string>, n: nat, undisturbed: bool) {
    && store.Keys == store0.Keys
    && (forall i :: 0 <= i < |ids| ==> ids[i] in store0)
    && (forall i :: 0 <= i < n && i < |ids| ==> Settled(store0[ids[i]].row, s0, store[ids[i]].row, undisturbed))
    && (forall i :: n <= i < |ids| ==> Waiting(store0, s0, store, s, ids[i]))
    && (forall id :: id in store0 && id !in ids ==> store[id] == store0[id])
  }

  ghost predicate Waiting(store0: Store, s0: State, store: Store, s: State, id: string) {
    id in store0 && id in store && store[id] == store0[id] && (Sink(store0[id].row, s0) <==> Sink(store0[id].row, s))
  }

  lemma SinkElsewhere(t: Transfer, s: State, s': State, id: string)
    requires RowOk(t, s) && t.id != id && OwnHolds(s, s', id)
    ensures Sink(t, s) <==> Sink(t, s')
  {
  }

  /** The ledger answers every call and probe of the batch. */
  predicate Calm(ids: seq<string>, probeLost: bool, env: string -> Env) {
    !probeLost && forall i :: 0 <= i < |ids| ==> env(ids[i]).faults == map[]
  }

  /** Every pass of a batch keeps to the budget. */
  lemma PassesBudget(tables: seq<Turning>, ids: seq<string>, probeLost: bool, env: string -> Env)
    requires Passes(tables, ids, probeLost, env) && |tables| == |ids| + 1
    ensures forall i :: 0 <= i < |ids| ==>
              ids[i] in tables[i].store
              && Budgeted(tables[i].store, tables[i].ledger, ids[i], probeLost, env(ids[i]), tables[i + 1])
  {
    forall i | 0 <= i < |ids|
      ensures ids[i] in tables[i].store
              && Budgeted(tables[i].store, tables[i].ledger, ids[i], probeLost, env(ids[i]), tables[i + 1])
    {
      assert PassAt(tables, i, ids, probeLost, env);
      RecoversBudget(tables[i].store, tables[i].ledger, ids[i], probeLost, env(ids[i]), tables[i + 1]);
    }
  }

  lemma CalmAt(ids: seq<string>, i: nat, probeLost: bool, env: string -> Env)
    requires i < |ids|
    ensures Calm(ids, probeLost, env) ==> !probeLost && env(ids[i]).faults == map[]
  {
  }

  lemma RecoveredWeaker(store0: Store, s0: State, store: Store, s: State, id: string, undisturbed: bool, calm: bool)
    requires Recovered(store0, s0, store, s, id, undisturbed) && (calm ==> undisturbed)
    ensures Recovered(store0, s0, store, s, id, calm)
  {
  }

  /** The rows a batch works on. */
  ghost predicate Listed(store: Store, ids: seq<string>) {
    Distinct(ids) && forall i :: 0 <= i < |ids| ==> ids[i] in store && Recoverable(store[ids[i]].row.phase)
  }

  lemma ClaimedListed(store: Store, s: State, ids: seq<string>)
    requires Listed(store, ids)
    ensures var claimed := ClaimAll(store, ids, |ids|);
            && Listed(claimed, ids)
            && (forall i :: 0 <= i < |ids| ==>
                  claimed[ids[i]].row == store[ids[i]].row.(attempts := store[ids[i]].row.attempts + 1))
            && forall i :: 0 <= i < |ids| ==> (Sink(claimed[ids[i]].row, s) <==> Sink(store[ids[i]].row, s))
  {
    ClaimAllExact(store, ids, |ids|);
    assert ids[..|ids|] == ids;
  }

  lemma BatchStart(store: Store, s: State, ids: seq<string>, undisturbed: bool)
    requires Listed(store, ids)
    ensures Batch(store, s, store, s, ids, 0, undisturbed)
  {
  }

  lemma BatchDone(store: Store, s: State, store': Store, s': State, ids: seq<string>, i: nat)
    requires Batch(store, s, store', s', ids, |ids|, true) && i < |ids|
    ensures IsTerminal(store'[ids[i]].row.phase) <==> !Sink(store[ids[i]].row, s)
  {
  }

  lemma BatchNext(store0: Store, s0: State, store: Store, s: State, store': Store, s': State, ids: seq<string>, n: nat,
                  undisturbed: bool)
    requires Batch(store0, s0, store, s, ids, n, undisturbed) && n < |ids| && Distinct(ids) && Consistent(store, s)
    requires Recovered(store, s, store', s', ids[n], undisturbed) && Recoverable(store0[ids[n]].row.phase)
    ensures Batch(store0, s0, store', s', ids, n + 1, undisturbed)
  {
    assert Waiting(store0, s0, store, s, ids[n]);
    forall i | n + 1 <= i < |ids| ensures Waiting(store0, s0, store', s', ids[i]) {
      assert Waiting(store0, s0, store, s, ids[i]);
      assert RecordOk(store, s, ids[i]);
      SinkElsewhere(store[ids[i]].row, s, s', ids[n]);
    }
  }

  // ---------------------------------------------------------------- requests

  datatype Command = Command(customer: string, kind: Kind, from: string, to: string, toNumber: string, amount: int64,
                             currency: string)

  /** The transfer a customer's idempotency key stands for, with the hash of its first request. */
  datatype KeyRow = KeyRow(transfer: string, hash: string)

  type Keys = map<(string, string), KeyRow>

  datatype Response = Unauthenticated | KeyRequired | Invalid(error: SpecError) | Conflict | Served(id: string, out: Outcome)

  /** Why a request is refused before anything is written, when it is. */
  function Refusal(c: Command, key: string): Option<Response> {
    if c.customer == "" then Some(Unauthenticated)
    else if key == "" then Some(KeyRequired)
    else
      match ValidateSpec(c.kind, c.from, c.to, c.toNumber, c.amount, c.currency)
      case Some(e) => Some(Invalid(e))
      case None => None
  }

  function Drafted(c: Command, id: string): Record {
    Record(NewTransfer(id, c.kind, c.customer, c.from, c.to, c.toNumber, c.amount, c.currency), [Hop(Created, Created)], [])
  }

  /** Each key stands for one transfer of its customer, and no transfer has two keys. */
  ghost predicate KeysOk(keys: Keys, store: Store) {
    && (forall k :: k in keys ==> keys[k].transfer in store && store[keys[k].transfer].row.customer == k.0)
    && (forall k, l :: k in keys && l in keys && k != l ==> keys[k].transfer != keys[l].transfer)
  }

  /** The keys and rows once the request is on file. */
  function Filed(keys: Keys, store: Store, c: Command, key: string, id: string, hash: string): (Keys, Store) {
    if (c.customer, key) in keys then (keys, store)
    else (keys[(c.customer, key) := KeyRow(id, hash)], store[id := Drafted(c, id)])
  }

  /** The request was answered by driving its transfer on. */
  ghost predicate ServedBy(keys: Keys, store: Store, s: State, k: (string, string), env: Env, answer: Response, store': Store, s': State) {
    && answer.Served? && k in keys && answer.id == keys[k].transfer
    && Progress(store, store', answer.id)
    && Drives(store, s, answer.id, env, Turning(store', s', answer.out.Parked?, answer.out.Stopped?))
  }

  /** The row shows what the customer asked for. */
  predicate AskedFor(c: Command, t: Transfer) {
    && t.customer == c.customer && t.kind == c.kind && t.from == c.from && t.toNumber == c.toNumber
    && t.amount == c.amount && t.currency == c.currency
  }

  /** The row and event a new request inserts. */
  function FirstRow(c: Command, id: string): (r: Record)
    ensures AskedFor(c, r.row) && r.row.to == c.to && r.row.phase == Created && r.row.id == id
  {
    Record(Transfer(id, c.kind, Created, c.customer, c.from, c.to, c.toNumber, c.amount, c.currency,
                    None, None, None, None, None, None, 0),
           [Hop(Created, Created)], [])
  }

  /** Which requests are turned away, and how. */
  ghost predicate Refuses(c: Command, key: string, answer: Response) {
    && (answer == Unauthenticated <==> c.customer == "")
    && (answer == KeyRequired <==> c.customer != "" && key == "")
    && (answer == Invalid(SameAccount) <==>
          c.customer != "" && key != "" && c.kind == Own && c.from == c.to && c.from != ""
          && 0 < c.amount && c.currency in {"KZT", "USD"})
    && (c.customer != "" && key != "" ==>
          (answer.Invalid? <==> !(0 < c.amount && c.currency in {"KZT", "USD"}
                                  && (|| (c.kind == Topup && c.from == "" && c.to != "")
                                      || (c.kind == Own && c.from != "" && c.to != "" && c.from != c.to)
                                      || (c.kind == P2P && c.from != "" && c.toNumber != "")))))
  }

  /** A new key's transfer is exactly what was asked for, and nothing more is known of it yet; a repeated
      key's is what was on file. */
  lemma FiledExact(keys: Keys, store: Store, c: Command, key: string, id: string, hash: string)
    ensures var (keys', store') := Filed(keys, store, c, key, id, hash);
            if (c.customer, key) in keys then keys' == keys && store' == store
            else
              keys' == keys[(c.customer, key) := KeyRow(id, hash)] && store' == store[id := FirstRow(c, id)]
  {
  }

  lemma DraftOk(store: Store, s: State, c: Command, key: string, id: string)
    requires Consistent(store, s) && id != "" && id !in store && Refusal(c, key).None?
    ensures Consistent(store[id := Drafted(c, id)], s)
  {
    SagaLaws.NewRowOk(id, c.kind, c.customer, c.from, c.to, c.toNumber, c.amount, c.currency);
    SoloInv(store, s);
    SagaLaws.CreateInv(Solo(store, s), id, Drafted(c, id).row);
  }

  /** The answer to a request that is not turned away, by what was on file before. */
  ghost predicate AnswersFor(c: Command, key: string, id: string, hash: string, env: Env, keys: Keys, store: Store, s: State,
                             answer: Response, keys': Keys, store': Store, s': State)
    requires answer.Served?
  {
    var end := Turning(store', s', answer.out.Parked?, answer.out.Stopped?);
    if (c.customer, key) in keys then
      && keys' == keys && answer.id == keys[(c.customer, key)].transfer
      && answer.id in store && answer.id in store' && SameCore(store[answer.id].row, store'[answer.id].row)
      && Drives(store, s, answer.id, env, end)
    else
      && keys' == keys[(c.customer, key) := KeyRow(id, hash)] && answer.id == id
      && id in store' && AskedFor(c, store'[id].row)
      && Drives(store[id := FirstRow(c, id)], s, id, env, end)
  }

  lemma ServedAnswers(c: Command, key: string, id: string, hash: string, env: Env, keys: Keys, store: Store, s: State,
                      answer: Response, keys': Keys, store': Store, s': State)
    requires answer.Served? && keys' == Filed(keys, store, c, key, id, hash).0
    requires ServedBy(keys', Filed(keys, store, c, key, id, hash).1, s, (c.customer, key), env, answer, store', s')
    ensures AnswersFor(c, key, id, hash, env, keys, store, s, answer, keys', store', s')
  {
    FiledExact(keys, store, c, key, id, hash);
  }

  lemma RefusesExact(c: Command, key: string, answer: Response)
    requires if Refusal(c, key).Some? then answer == Refusal(c, key).value else answer.Served? || answer.Conflict?
    ensures Refuses(c, key, answer)
  {
    SpecExact(c.kind, c.from, c.to, c.toNumber, c.amount, c.currency);
  }

  lemma KeysStay(keys: Keys, store: Store, store': Store, id: string)
    requires KeysOk(keys, store) && Progress(store, store', id)
    ensures KeysOk(keys, store')
  {
  }
}

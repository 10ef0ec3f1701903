/** The transfer service: its tables, the drive loop and the recovery worker's batch, each proved to do
    what SagaDrive says of the tables before and after. */
module TransferService {
  import Int64
  import LedgerDomain
  import Ledger
  import LedgerLaws
  import opened TransferDomain
  import Saga
  import SagaTheorems
  import opened SagaDrive

  class Service {
    var store: Saga.Store

    /** The remote ledger, reached only through its calls. */
    var ledger: Ledger.State

    /** Idempotency keys, per customer. */
    var keys: Keys

    ghost predicate Valid()
      reads this
    {
      LedgerLaws.Inv(ledger) && Consistent(store, ledger)
    }

    constructor (ledger: Ledger.State)
      requires LedgerLaws.Inv(ledger) && forall id :: TransferRef(id) !in ledger.entryRefs
      ensures Valid() && this.ledger == ledger && store == map[] && keys == map[]
    {
      this.ledger := ledger;
      store, keys := map[], map[];
    }

    /** Guarded row update, event append and terminal status event, in one transaction. */
    method Advance(prev: Phase, t: Transfer, next: Phase) returns (raced: bool)
      requires t.id in store && t.phase == prev
      modifies `store
      ensures raced <==> old(store)[t.id].row.phase != prev
      ensures store == Moved(old(store), t, next)
    {
      var rec := store[t.id];
      if rec.row.phase != prev {
        assert store == store[t.id := rec];
        return true;
      }
      var row := rec.row.(phase := next, to := t.to, counterAmount := t.counterAmount,
                          counterCurrency := t.counterCurrency, rateMicros := t.rateMicros, ratePair := t.ratePair,
                          reason := t.reason, holdId := t.holdId);
      var status := if IsTerminal(next) then [next] else [];
      store := store[t.id := Saga.Record(row, rec.hops + [Saga.Hop(prev, next)], rec.published + status)];
      return false;
    }

    method Validate(t: Transfer, answers: Answers, ghost env: Env) returns (parked: bool, failed: bool)
      requires t.id in store && t.phase == Validating && answers == env.answers
      modifies `store
      ensures Turning(store, ledger, parked, failed) == ValidateTurn(old(store), ledger, t, env)
    {
      var v := Judge(t, answers);
      if v.Postpone? {
        return true, false;
      } else if v.Abort? {
        return false, true;
      }
      var raced;
      if v.Reject? {
        raced := Advance(Validating, t.(reason := Int64.Some(v.reason)), Failed);
      } else {
        raced := Advance(Validating, Accepted(t, v), Held);
      }
      return false, false;
    }

    method HoldAndAdvance(t: Transfer, env: Env) returns (parked: bool)
      requires t.id in store && t.phase == Held && Ledger.WellFormed(ledger)
      modifies `store, `ledger
      ensures Turning(store, ledger, parked, false) == HeldTurn(old(store), old(ledger), t, env)
    {
      var raced;
      if t.holdId.Some? {
        raced := Advance(Held, t, Phase.Posting);
        return false;
      }
      if Held in env.faults && !env.faults[Held] {
        return true;
      }
      var (after, placed) :=
        Ledger.PlaceHold(ledger, SourceRef(t), t.amount, t.currency, TransferRef(t.id), env.expiresAt, env.newId);
      ledger := after;
      if Held in env.faults {
        return true;
      }
      if placed.Err? {
        raced := Advance(Held, t.(reason := Int64.Some(env.describe(placed.error))), Releasing);
      } else {
        raced := Advance(Held, t.(holdId := Int64.Some(placed.value)), Phase.Posting);
      }
      return false;
    }

    method PostLegs(t: Transfer, env: Env) returns (parked: bool)
      requires t.id in store && t.phase == Phase.Posting && Ledger.WellFormed(ledger)
      modifies `store, `ledger
      ensures Turning(store, ledger, parked, false) == PostTurn(old(store), old(ledger), t, env)
    {
      if Phase.Posting in env.faults && !env.faults[Phase.Posting] {
        return true;
      }
      var (after, posted) := Ledger.Post(ledger, TransferRef(t.id), t.holdId, BuildPostings(t));
      ledger := after;
      if Phase.Posting in env.faults {
        return true;
      }
      var raced;
      if posted.Err? {
        raced := Advance(Phase.Posting, t.(reason := Int64.Some(env.describe(posted.error))), Releasing);
      } else {
        raced := Advance(Phase.Posting, t, Completed);
      }
      return false;
    }

    method ReleaseReservation(t: Transfer, env: Env) returns (parked: bool, failed: bool)
      requires t.id in store && t.phase == Releasing && Ledger.WellFormed(ledger)
      modifies `store, `ledger
      ensures Turning(store, ledger, parked, failed) == ReleaseTurn(old(store), old(ledger), t, env)
    {
      if t.holdId.Some? {
        if Releasing in env.faults && !env.faults[Releasing] {
          return true, false;
        }
        var (after, freed) := Ledger.Release(ledger, t.holdId.value);
        ledger := after;
        if Releasing in env.faults {
          return true, false;
        }
        if freed.Err? && freed.error != LedgerDomain.NotFound {
          return false, true;
        }
      }
      var raced := Advance(Releasing, t, Failed);
      return false, false;
    }

    /** One turn: the branch of the row's phase. */
    method Turn(t: Transfer, env: Env) returns (parked: bool, failed: bool)
      requires t.id in store && Ledger.WellFormed(ledger) && !IsTerminal(t.phase)
      modifies `store, `ledger
      ensures Turning(store, ledger, parked, failed) == TurnOf(old(store), old(ledger), t, env)
    {
      parked, failed := false, false;
      match t.phase
      case Created =>
        var raced := Advance(Created, t, Validating);
      case Validating => parked, failed := Validate(t, env.answers, env);
      case Held => parked := HoldAndAdvance(t, env);
      case Posting => parked := PostLegs(t, env);
      case Releasing => parked, failed := ReleaseReservation(t, env);
    }

    /** A turn on good tables, appended to the trace so far. */
    method Round(id: string, env: Env, ghost trace: seq<Turning>, ghost store0: Saga.Store, ghost ledger0: Ledger.State)
      returns (parked: bool, failed: bool)
      requires Valid() && id in store && !IsTerminal(store[id].row.phase)
      requires Underway(store0, ledger0, store, ledger, id, env, trace)
      modifies `store, `ledger
      ensures Valid()
      ensures Extended(store0, ledger0, old(store), old(ledger), id, env, trace, Turning(store, ledger, parked, failed))
    {
      RowId(store, ledger, id);
      TurnGood(store, ledger, store[id].row, env);
      TurnInv(store, ledger, store[id].row, env);
      TraceSnoc(trace, store0, ledger0, id, env, TurnOf(store, ledger, store[id].row, env));
      parked, failed := Turn(store[id].row, env);
    }

    /** Advances the transfer until it is terminal, a call stays unanswered, or the service gives up. */
    method Drive(id: string, env: Env) returns (out: Outcome)
      requires Valid()
      modifies `store, `ledger
      ensures Valid()
      ensures id !in old(store) ==> out == Stopped && store == old(store) && ledger == old(ledger)
      ensures id in old(store) ==>
                && Reached(old(store), old(ledger), store, ledger, id, env, out)
                && Drives(old(store), old(ledger), id, env, Turning(store, ledger, out.Parked?, out.Stopped?))
    {
      if id !in store {
        return Stopped;
      }
      ghost var store0, ledger0 := store, ledger;
      ghost var trace := [Onward(store, ledger)];
      UnderwayStart(store, ledger, id, env);
      while !IsTerminal(store[id].row.phase)
        invariant Valid() && id in store && Underway(store0, ledger0, store, ledger, id, env, trace)
        decreases Rank(store[id].row.phase)
      {
        ghost var store1, ledger1 := store, ledger;
        var parked, failed := Round(id, env, trace, store0, ledger0);
        ghost var r := Turning(store, ledger, parked, failed);
        if parked || failed {
          UnderwayStop(store0, ledger0, store1, ledger1, id, env, trace, r);
          return if failed then Stopped else Parked(store[id].row);
        }
        UnderwayNext(store0, ledger0, store1, ledger1, id, env, trace, r);
        trace := trace + [r];
      }
      UnderwayEnd(store0, ledger0, store, ledger, id, env, trace);
      return Final(store[id].row);
    }

    /** One recovery pass: ask the ledger about a POSTING row, give up on an exhausted one, drive on. */
    method RecoverOne(id: string, probeLost: bool, env: Env) returns (ghost r: Turning)
      requires Valid()
      modifies `store, `ledger
      ensures Valid() && r.store == store && r.ledger == ledger
      ensures id !in old(store) ==> store == old(store) && ledger == old(ledger)
      ensures id in old(store) ==>
                && RecoversTo(old(store), old(ledger), id, probeLost, env, r)
                && Recovered(old(store), old(ledger), store, ledger, id, !probeLost && env.faults == map[])
                && Budgeted(old(store), old(ledger), id, probeLost, env, r)
    {
      r := Onward(store, ledger);
      if id !in store {
        return;
      }
      RowId(store, ledger, id);
      var done := Prepare(store[id].row, probeLost);
      ghost var start := store;
      if done {
        RecoveredDone(old(store), ledger, id, probeLost, env, start, !probeLost && env.faults == map[]);
        r := Onward(store, ledger);
        RecoversBudget(old(store), ledger, id, probeLost, env, r);
      } else {
        PreparedGood(old(store), ledger, id, probeLost, start, false);
        var out := Drive(id, env);
        r := Turning(store, ledger, out.Parked?, out.Stopped?);
        RecoveredDriven(old(store), old(ledger), id, probeLost, env, start, r, out);
        RecoversBudget(old(store), old(ledger), id, probeLost, env, r);
      }
    }

    method Prepare(t: Transfer, probeLost: bool) returns (done: bool)
      requires t.id in store && store[t.id].row == t
      modifies `store
      ensures Prepared(old(store), ledger, t.id, probeLost, store, done)
    {
      if t.phase == Phase.Posting && !probeLost && TransferRef(t.id) in ledger.entryRefs {
        var raced := Advance(Phase.Posting, t, Completed);
        return true;
      }
      if t.attempts > Saga.MAX_ATTEMPTS && t.phase != Releasing {
        if Next(t.phase, EvRecoveryExhausted).None? {
          return true;
        }
        var raced := Advance(t.phase, t.(reason := Int64.Some("recovery_exhausted")), Releasing);
      }
      return false;
    }

    method Claim(ids: seq<string>)
      requires Consistent(store, ledger) && forall i :: 0 <= i < |ids| ==> ids[i] in store
      modifies `store
      ensures Consistent(store, ledger) && store == ClaimAll(old(store), ids, |ids|)
    {
      for i := 0 to |ids|
        invariant Consistent(store, ledger) && store == ClaimAll(old(store), ids, i)
      {
        ClaimKeeps(store, ledger, ids[i]);
        store := store[ids[i] := Saga.CountAttempt(store[ids[i]])];
      }
    }

    /** One batch of the recovery worker over the stuck rows it claimed. Undisturbed, every one of
        them ends terminal except those in the sink, which stay as they are. */
    method RunOnce(ids: seq<string>, probeLost: bool, env: string -> Env) returns (ghost tables: seq<Turning>)
      requires Valid() && Listed(store, ids)
      modifies `store, `ledger
      ensures Valid()
      ensures Passes(tables, ids, probeLost, env) && |tables| == |ids| + 1
      ensures tables[0] == Onward(ClaimAll(old(store), ids, |ids|), old(ledger))
      ensures forall i :: 0 <= i < |ids| ==>
                ids[i] in tables[0].store
                && tables[0].store[ids[i]].row == old(store)[ids[i]].row.(attempts := old(store)[ids[i]].row.attempts + 1)
      ensures forall i :: 0 <= i < |ids| ==>
                ids[i] in tables[i].store
                && Budgeted(tables[i].store, tables[i].ledger, ids[i], probeLost, env(ids[i]), tables[i + 1])
      ensures tables[|ids|].store == store && tables[|ids|].ledger == ledger
      ensures Batch(ClaimAll(old(store), ids, |ids|), old(ledger), store, ledger, ids, |ids|, Calm(ids, probeLost, env))
      ensures Calm(ids, probeLost, env) ==>
                forall i :: 0 <= i < |ids| ==>
                  (IsTerminal(store[ids[i]].row.phase) <==> !SagaTheorems.Sink(old(store)[ids[i]].row, old(ledger)))
    {
      ClaimedListed(store, ledger, ids);
      Claim(ids);
      ghost var store0, ledger0 := store, ledger;
      tables := WorkOff(ids, probeLost, env);
      PassesBudget(tables, ids, probeLost, env);
      if Calm(ids, probeLost, env) {
        forall i | 0 <= i < |ids|
          ensures IsTerminal(store[ids[i]].row.phase) <==> !SagaTheorems.Sink(old(store)[ids[i]].row, old(ledger))
        {
          BatchDone(store0, ledger0, store, ledger, ids, i);
        }
      }
    }

    method WorkOff(ids: seq<string>, probeLost: bool, env: string -> Env) returns (ghost tables: seq<Turning>)
      requires Valid() && Listed(store, ids)
      modifies `store, `ledger
      ensures Valid()
      ensures Passes(tables, ids, probeLost, env) && |tables| == |ids| + 1 && tables[0] == Onward(old(store), old(ledger))
      ensures tables[|ids|].store == store && tables[|ids|].ledger == ledger
      ensures Batch(old(store), old(ledger), store, ledger, ids, |ids|, Calm(ids, probeLost, env))
    {
      ghost var store0, ledger0, calm := store, ledger, Calm(ids, probeLost, env);
      BatchStart(store, ledger, ids, calm);
      tables := [Onward(store, ledger)];
      for i := 0 to |ids|
        invariant Valid() && Batch(store0, ledger0, store, ledger, ids, i, calm)
        invariant Passes(tables, ids, probeLost, env) && |tables| == i + 1 && tables[0] == Onward(store0, ledger0)
        invariant tables[i].store == store && tables[i].ledger == ledger
      {
        ghost var store1, ledger1 := store, ledger;
        tables := Pass(ids, i, probeLost, env, tables, calm);
        BatchNext(store0, ledger0, store1, ledger1, store, ledger, ids, i, calm);
      }
    }

    method Pass(ids: seq<string>, i: nat, probeLost: bool, env: string -> Env, ghost tables: seq<Turning>, ghost calm: bool)
      returns (ghost more: seq<Turning>)
      requires Valid() && i < |ids| && ids[i] in store && calm == Calm(ids, probeLost, env)
      requires Passes(tables, ids, probeLost, env) && |tables| == i + 1
      requires tables[i].store == store && tables[i].ledger == ledger
      modifies `store, `ledger
      ensures Valid() && Recovered(old(store), old(ledger), store, ledger, ids[i], calm)
      ensures Passes(more, ids, probeLost, env) && |more| == i + 2 && more[0] == tables[0]
      ensures more[i + 1].store == store && more[i + 1].ledger == ledger
    {
      var id, e := ids[i], env(ids[i]);
      CalmAt(ids, i, probeLost, env);
      ghost var r := RecoverOne(id, probeLost, e);
      PassesSnoc(tables, ids, probeLost, env, i, old(store), old(ledger), r);
      more := tables + [r];
      RecoveredWeaker(old(store), old(ledger), store, ledger, id, !probeLost && e.faults == map[], calm);
    }

    /** One transfer per customer and key: the first request inserts it together with the key, a repeat
        drives the same one on, and the key with another request is refused. */
    method CreateTransfer(c: Command, key: string, id: string, hash: Command -> string, env: Env)
      returns (answer: Response)
      requires Valid() && KeysOk(keys, store) && id != "" && id !in store
      modifies `store, `ledger, `keys
      ensures Valid() && KeysOk(keys, store)
      ensures Refuses(c, key, answer)
      ensures var k := (c.customer, key);
              && (Refusal(c, key).Some? ==> answer == Refusal(c, key).value)
              && (Refusal(c, key).None? && k in old(keys) && old(keys)[k].hash != hash(c) ==> answer == Conflict)
              && (answer.Served? <==> Refusal(c, key).None? && (k in old(keys) ==> old(keys)[k].hash == hash(c)))
              && (!answer.Served? ==> store == old(store) && ledger == old(ledger) && keys == old(keys))
              && (answer.Served? ==>
                    var (keys', start) := Filed(old(keys), old(store), c, key, id, hash(c));
                    keys == keys' && ServedBy(keys, start, old(ledger), k, env, answer, store, ledger))
      ensures answer.Served? ==>
                AnswersFor(c, key, id, hash(c), env, old(keys), old(store), old(ledger), answer, keys, store, ledger)
    {
      answer := Serve(c, key, id, hash, env);
      RefusesExact(c, key, answer);
      if answer.Served? {
        ServedAnswers(c, key, id, hash(c), env, old(keys), old(store), old(ledger), answer, keys, store, ledger);
      }
    }

    method Serve(c: Command, key: string, id: string, hash: Command -> string, env: Env)
      returns (answer: Response)
      requires Valid() && KeysOk(keys, store) && id != "" && id !in store
      modifies `store, `ledger, `keys
      ensures Valid() && KeysOk(keys, store)
      ensures var k := (c.customer, key);
              && (Refusal(c, key).Some? ==> answer == Refusal(c, key).value)
              && (Refusal(c, key).None? && k in old(keys) && old(keys)[k].hash != hash(c) ==> answer == Conflict)
              && (answer.Served? <==> Refusal(c, key).None? && (k in old(keys) ==> old(keys)[k].hash == hash(c)))
              && (!answer.Served? ==> store == old(store) && ledger == old(ledger) && keys == old(keys))
              && (answer.Served? ==>
                    var (keys', start) := Filed(old(keys), old(store), c, key, id, hash(c));
                    keys == keys' && ServedBy(keys, start, old(ledger), k, env, answer, store, ledger))
    {
      if c.customer == "" {
        return Unauthenticated;
      }
      if key == "" {
        return KeyRequired;
      }
      var bad := ValidateSpec(c.kind, c.from, c.to, c.toNumber, c.amount, c.currency);
      if bad.Some? {
        return Invalid(bad.value);
      }
      var conflict, target := Register(c, key, id, hash);
      if conflict {
        return Conflict;
      }
      ghost var store1 := store;
      if IsTerminal(store[target].row.phase) {
        NoProgress(store, target);
        DrivesNow(store, ledger, target, env);
        return Served(target, Final(store[target].row));
      }
      var out := Drive(target, env);
      KeysStay(keys, store1, store, target);
      return Served(target, out);
    }

    /** Key and transfer are inserted in one transaction, or an earlier request is found. */
    method Register(c: Command, key: string, id: string, hash: Command -> string) returns (conflict: bool, target: string)
      requires Consistent(store, ledger) && KeysOk(keys, store) && id != "" && id !in store && Refusal(c, key).None?
      modifies `store, `keys
      ensures Consistent(store, ledger) && KeysOk(keys, store)
      ensures var k := (c.customer, key);
              && (conflict <==> k in old(keys) && old(keys)[k].hash != hash(c))
              && (keys, store) == Filed(old(keys), old(store), c, key, id, hash(c))
              && k in keys && target == keys[k].transfer && target in store
    {
      var k := (c.customer, key);
      if k in keys {
        return keys[k].hash != hash(c), keys[k].transfer;
      }
      DraftOk(store, ledger, c, key, id);
      keys := keys[k := KeyRow(id, hash(c))];
      store := store[id := Drafted(c, id)];
      return false, id;
    }
  }
}

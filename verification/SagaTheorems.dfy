/** What holds of transfers in every run of the saga, however many drivers, recovery workers and
    sweepers race, and whatever happens to their requests. */
module SagaTheorems {
  import opened Int64
  import LedgerDomain
  import opened Ledger
  import LedgerLaws
  import LedgerTheorems
  import opened TransferDomain
  import opened Saga
  import SagaLaws

  // ---------------------------------------------------------------- runs

  /** No transfers yet, and a ledger that has never posted one. */
  ghost predicate Initial(w: World) {
    && w.store == map[] && w.drivers == map[] && w.requests == {} && w.replies == {}
    && LedgerLaws.Inv(w.ledger) && forall id :: TransferRef(id) !in w.ledger.entryRefs
  }

  lemma InitialInv(w: World)
    requires Initial(w)
    ensures WorldInv(w)
  {
  }

  /** The first world of a run is initial, and each later one is an action away from the one before. */
  ghost predicate ArisesAt(ws: seq<World>, i: nat)
    requires i < |ws|
  {
    if i == 0 then Initial(ws[0]) else Follows(ws[i - 1], ws[i])
  }

  ghost predicate Follows(w: World, v: World) {
    exists a :: Takes(w, a, v)
  }

  ghost predicate Takes(w: World, a: Action, v: World) {
    WellFormed(w.ledger) && Enabled(w, a) && v == Do(w, a)
  }

  ghost predicate Chronicle(ws: seq<World>) {
    forall i {:trigger ArisesAt(ws, i)} :: 0 <= i < |ws| ==> ArisesAt(ws, i)
  }

  /** The world occurs in some run. */
  ghost predicate Occurs(w: World) {
    exists ws :: Chronicle(ws) && ws != [] && ws[|ws| - 1] == w
  }

  lemma {:induction false} ChronicleInv(ws: seq<World>, i: nat)
    requires Chronicle(ws) && i < |ws|
    ensures WorldInv(ws[i])
  {
    assert ArisesAt(ws, i);
    if i == 0 {
      InitialInv(ws[0]);
    } else {
      ChronicleInv(ws, i - 1);
      var a :| Takes(ws[i - 1], a, ws[i]);
      SagaLaws.DoInv(ws[i - 1], a);
    }
  }

  lemma OccursInv(w: World)
    requires Occurs(w)
    ensures WorldInv(w)
  {
    var ws :| Chronicle(ws) && ws != [] && ws[|ws| - 1] == w;
    ChronicleEnds(ws, w);
  }

  lemma ChronicleEnds(ws: seq<World>, w: World)
    requires Chronicle(ws) && ws != [] && ws[|ws| - 1] == w
    ensures WorldInv(w)
  {
    ChronicleInv(ws, |ws| - 1);
  }

  lemma InitialOccurs(w: World)
    requires Initial(w)
    ensures Occurs(w)
  {
    var ws := [w];
    forall i | 0 <= i < |ws| ensures ArisesAt(ws, i) {
    }
    assert Chronicle(ws);
  }

  lemma ChronicleNext(ws: seq<World>, v: World, a: Action)
    requires Chronicle(ws) && ws != [] && Takes(ws[|ws| - 1], a, v)
    ensures Chronicle(ws + [v])
  {
    var more := ws + [v];
    assert Follows(ws[|ws| - 1], v);
    forall i | 0 <= i < |more| ensures ArisesAt(more, i) {
      if i < |ws| {
        assert ArisesAt(ws, i);
      }
    }
  }

  lemma OccursNext(w: World, a: Action)
    requires Occurs(w) && WellFormed(w.ledger) && Enabled(w, a)
    ensures Occurs(Do(w, a))
  {
    var ws :| Chronicle(ws) && ws != [] && ws[|ws| - 1] == w;
    ChronicleNext(ws, Do(w, a), a);
    assert (ws + [Do(w, a)])[|ws|] == Do(w, a);
  }

  /** The world after a sequence of actions; one that is not enabled does not happen. */
  ghost function Perform(w: World, acts: seq<Action>): World {
    if acts == [] then w
    else
      var v := Perform(w, acts[..|acts| - 1]);
      var a := acts[|acts| - 1];
      if WellFormed(v.ledger) && Enabled(v, a) then Do(v, a) else v
  }

  lemma {:induction false} PerformInv(w: World, acts: seq<Action>)
    requires WorldInv(w)
    ensures WorldInv(Perform(w, acts))
  {
    if acts != [] {
      var v := Perform(w, acts[..|acts| - 1]);
      PerformInv(w, acts[..|acts| - 1]);
      if Enabled(v, acts[|acts| - 1]) {
        SagaLaws.DoInv(v, acts[|acts| - 1]);
      }
    }
  }

  /** Going on from a world that occurs leads to worlds that occur. */
  lemma {:induction false} PerformOccurs(w: World, acts: seq<Action>)
    requires Occurs(w)
    ensures Occurs(Perform(w, acts))
  {
    if acts != [] {
      var v := Perform(w, acts[..|acts| - 1]);
      PerformOccurs(w, acts[..|acts| - 1]);
      if WellFormed(v.ledger) && Enabled(v, acts[|acts| - 1]) {
        OccursNext(v, acts[|acts| - 1]);
      }
    }
  }

  lemma StepAdvances(w: World, a: Action)
    requires WorldInv(w) && Enabled(w, a)
    ensures Advanced(w.store, Do(w, a).store) && SagaLaws.Kept(w.ledger, Do(w, a).ledger)
  {
    SagaLaws.DoInv(w, a);
    SagaLaws.DoLedger(w, a);
  }

  lemma {:induction false} PerformAdvances(w: World, acts: seq<Action>)
    requires WorldInv(w)
    ensures Advanced(w.store, Perform(w, acts).store)
    ensures SagaLaws.Kept(w.ledger, Perform(w, acts).ledger)
  {
    if acts != [] {
      var v := Perform(w, acts[..|acts| - 1]);
      PerformInv(w, acts[..|acts| - 1]);
      PerformAdvances(w, acts[..|acts| - 1]);
      if Enabled(v, acts[|acts| - 1]) {
        StepAdvances(v, acts[|acts| - 1]);
        AdvancedTransitive(w.store, v.store, Perform(w, acts).store);
        SagaLaws.KeptTransitive(w.ledger, v.ledger, Perform(w, acts).ledger);
      }
    }
  }

  lemma AdvancedTransitive(a: Store, b: Store, c: Store)
    requires Advanced(a, b) && Advanced(b, c)
    ensures Advanced(a, c)
  {
    forall id | id in a ensures id in c && Became(a[id].row, c[id].row) {
      BecameTransitive(a[id].row, b[id].row, c[id].row);
    }
  }

  // ---------------------------------------------------------------- outcomes

  /** Entry i is the only one of the transfer, and its legs are those the row describes. */
  ghost predicate SoleEntry(t: Transfer, s: State, i: nat) {
    && i < |s.journal| && s.journal[i].reference == TransferRef(t.id)
    && ResolveLegs(s, BuildPostings(t), |BuildPostings(t)|) == LedgerDomain.Ok(s.journal[i].legs)
    && forall j :: 0 <= j < |s.journal| && s.journal[j].reference == TransferRef(t.id) ==> j == i
  }

  ghost predicate NoEntry(t: Transfer, s: State) {
    forall j :: 0 <= j < |s.journal| ==> s.journal[j].reference != TransferRef(t.id)
  }

  lemma EntryAlone(t: Transfer, s: State)
    requires LedgerLaws.JournalOk(s) && EntryFor(t, s)
    ensures SoleEntry(t, s, s.entryRefs[TransferRef(t.id)])
  {
    forall j | 0 <= j < |s.journal| && s.journal[j].reference == TransferRef(t.id)
      ensures j == s.entryRefs[TransferRef(t.id)]
    {
      assert LedgerLaws.EntryIndexed(s, j);
    }
  }

  lemma EntryNowhere(t: Transfer, s: State)
    requires LedgerLaws.JournalOk(s) && TransferRef(t.id) !in s.entryRefs
    ensures NoEntry(t, s)
  {
    forall j | 0 <= j < |s.journal| ensures s.journal[j].reference != TransferRef(t.id) {
      assert LedgerLaws.EntryIndexed(s, j);
    }
  }

  lemma RowOutcome(t: Transfer, s: State)
    requires RowOk(t, s) && LedgerLaws.JournalOk(s)
    ensures t.phase == Completed ==> exists i :: SoleEntry(t, s, i)
    ensures t.phase == Failed ==> NoEntry(t, s)
    ensures t.phase == Failed && t.holdId.Some? ==>
              t.holdId.value in s.holds && s.holds[t.holdId.value].status == LedgerDomain.HoldReleased
  {
    if t.phase == Completed {
      EntryAlone(t, s);
    } else if t.phase == Failed {
      EntryNowhere(t, s);
    }
  }

  /** A completed transfer has exactly one ledger entry, the one its row describes; a failed one
      has none, and the hold its row names, if it names one, is released. */
  lemma Outcome(w: World, id: string)
    requires Occurs(w) && id in w.store
    ensures var t := w.store[id].row;
            && (t.phase == Completed ==> exists i :: SoleEntry(t, w.ledger, i))
            && (t.phase == Failed ==> NoEntry(t, w.ledger))
            && (t.phase == Failed && t.holdId.Some? ==> && t.holdId.value in w.ledger.holds
                                                        && w.ledger.holds[t.holdId.value].status == LedgerDomain.HoldReleased)
  {
    OccursInv(w);
    assert RecordOk(w.store, w.ledger, id);
    RowOutcome(w.store[id].row, w.ledger);
  }

  lemma RowFailedHold(t: Transfer, s: State, h: LedgerDomain.Uuid)
    requires RowOk(t, s) && WellFormed(s) && LedgerLaws.HoldsOk(s) && LedgerLaws.HeldOk(s) && t.phase == Failed
    requires h in s.holds && s.holds[h].reference == TransferRef(t.id)
    ensures t.holdId.Some? ==> t.holdId == Some(h) && s.holds[h].status == LedgerDomain.HoldReleased
    ensures s.holds[h].status != LedgerDomain.HoldCaptured
    ensures var (s', r) := Release(s, h); r.Ok? && h in s'.holds && s'.holds[h].status == LedgerDomain.HoldReleased
  {
    assert LedgerLaws.HoldIndexed(s, h);
    if t.holdId.Some? {
      assert LedgerLaws.HoldIndexed(s, t.holdId.value);
    }
    LedgerLaws.ReleaseShape(s, h);
  }

  /** A hold under a failed transfer's reference is never captured. If the row names a hold, it is that
      one, and it is released; so a reservation outlives a failure only where the row names none, and
      then a release, such as the sweeper's, still ends it. */
  lemma FailedHold(w: World, id: string, h: LedgerDomain.Uuid)
    requires Occurs(w) && id in w.store && w.store[id].row.phase == Failed
    requires h in w.ledger.holds && w.ledger.holds[h].reference == TransferRef(id)
    ensures var t := w.store[id].row;
            t.holdId.Some? ==> t.holdId == Some(h) && w.ledger.holds[h].status == LedgerDomain.HoldReleased
    ensures w.ledger.holds[h].status != LedgerDomain.HoldCaptured
    ensures WellFormed(w.ledger)
    ensures var (s, r) := Release(w.ledger, h); r.Ok? && h in s.holds && s.holds[h].status == LedgerDomain.HoldReleased
  {
    OccursInv(w);
    assert RecordOk(w.store, w.ledger, id);
    RowFailedHold(w.store[id].row, w.ledger, h);
  }

  lemma TerminalStays(t: Transfer, u: Transfer)
    requires Became(t, u) && IsTerminal(t.phase)
    ensures u == t.(attempts := u.attempts)
  {
  }

  /** Outcomes are final: whatever is still in flight, a terminal row never changes again, a failed
      transfer never gains an entry, and a completed one keeps its single entry. */
  lemma OutcomeForever(w: World, id: string, acts: seq<Action>)
    requires WorldInv(w) && id in w.store && IsTerminal(w.store[id].row.phase)
    ensures var v := Perform(w, acts);
            var t := w.store[id].row;
            && id in v.store && v.store[id].row == t.(attempts := v.store[id].row.attempts)
            && (t.phase == Failed ==> NoEntry(t, v.ledger))
            && (t.phase == Completed ==> exists i :: SoleEntry(t, w.ledger, i) && SoleEntry(t, v.ledger, i))
  {
    var v := Perform(w, acts);
    var t := w.store[id].row;
    PerformInv(w, acts);
    PerformAdvances(w, acts);
    TerminalStays(t, v.store[id].row);
    var u := v.store[id].row;
    assert RecordOk(v.store, v.ledger, id) && RecordOk(w.store, w.ledger, id);
    SagaLaws.AttemptsDoNotMatter(u, t.attempts, v.ledger);
    if t.phase == Failed {
      EntryNowhere(t, v.ledger);
    } else {
      EntryAlone(t, w.ledger);
      EntryAlone(t, v.ledger);
    }
  }

  /** The fence: from the moment posting starts the row names a hold of its own amount on its own
      source, and the entry exists exactly if that hold is captured. A hold leaves the active state
      once, so a released hold keeps every late post out and a captured one blocks compensation. */
  lemma Fence(w: World, id: string)
    requires Occurs(w) && id in w.store
    ensures var t := w.store[id].row;
            && (t.phase in {Phase.Posting, Completed} ==> t.holdId.Some?)
            && (t.holdId.Some? ==> && HoldFor(t, t.holdId.value, w.ledger)
                                   && (TransferRef(id) in w.ledger.entryRefs <==>
                                       w.ledger.holds[t.holdId.value].status == LedgerDomain.HoldCaptured))
            && (t.holdId.None? ==> TransferRef(id) !in w.ledger.entryRefs)
  {
    OccursInv(w);
    assert RecordOk(w.store, w.ledger, id);
    RowFence(w.store[id].row, w.ledger);
  }

  lemma RowFence(t: Transfer, s: State)
    requires RowOk(t, s) && LedgerLaws.HoldsOk(s)
    ensures t.phase in {Phase.Posting, Completed} ==> t.holdId.Some?
    ensures t.holdId.Some? ==> && HoldFor(t, t.holdId.value, s)
                               && (TransferRef(t.id) in s.entryRefs <==> s.holds[t.holdId.value].status == LedgerDomain.HoldCaptured)
    ensures t.holdId.None? ==> TransferRef(t.id) !in s.entryRefs
  {
    if t.holdId.Some? && s.holds[t.holdId.value].status == LedgerDomain.HoldCaptured {
      assert s.holds[t.holdId.value].reference == TransferRef(t.id);
    }
  }

  lemma RowNotStranded(t: Transfer, s: State, h: LedgerDomain.Uuid)
    requires RowOk(t, s) && WellFormed(s) && LedgerLaws.HoldsOk(s) && h in s.holds && s.holds[h].reference == TransferRef(t.id)
    ensures !LedgerTheorems.Stranded(s, h)
  {
    if TransferRef(t.id) in s.entryRefs {
      assert LedgerLaws.HoldIndexed(s, h) && LedgerLaws.HoldIndexed(s, t.holdId.value);
      var specs := BuildPostings(t);
      ResolveLegsKnown(s, specs, |specs|);
      var legs := s.journal[s.entryRefs[TransferRef(t.id)]].legs;
      assert legs[0].account == s.holds[h].account;
    }
  }

  /** No transfer strands a hold: in every run, the entry that captures a transfer's hold has a leg on
      its account, so the reservation leaves held with the money. */
  lemma TransferNeverStrands(w: World, h: LedgerDomain.Uuid)
    requires Occurs(w) && h in w.ledger.holds && w.ledger.holds[h].reference.kind == "transfer"
    ensures !LedgerTheorems.Stranded(w.ledger, h)
  {
    OccursInv(w);
    var id := w.ledger.holds[h].reference.id;
    assert w.ledger.holds[h].reference == TransferRef(id);
    if TransferRef(id) in w.ledger.entryRefs {
      assert RecordOk(w.store, w.ledger, id);
      RowNotStranded(w.store[id].row, w.ledger, h);
    }
  }

  // ---------------------------------------------------------------- the guard

  lemma {:induction false} HopsDescend(hops: seq<Hop>, p: Phase, i: nat, j: nat)
    requires PathTo(hops, p) && i < j < |hops|
    ensures Rank(hops[j].after) < Rank(hops[i].after)
    decreases j
  {
    assert hops[j].before == hops[j - 1].after && Edge(hops[j]);
    var e :| Next(hops[j].before, e) == Some(hops[j].after);
    TableDescends(hops[j].before, e);
    if i < j - 1 {
      HopsDescend(hops, p, i, j - 1);
    }
  }

  lemma HopsDistinct(hops: seq<Hop>, p: Phase)
    requires PathTo(hops, p)
    ensures forall i, j :: 0 <= i < j < |hops| ==> hops[i].after != hops[j].after
    ensures |hops| <= 6
  {
    forall i, j | 0 <= i < j < |hops| ensures hops[i].after != hops[j].after {
      HopsDescend(hops, p, i, j);
    }
    if |hops| > 6 {
      HopsDescend(hops, p, 0, 1);
      HopsDescend(hops, p, 1, 2);
      HopsDescend(hops, p, 2, 3);
      HopsDescend(hops, p, 3, 4);
      HopsDescend(hops, p, 4, 5);
      HopsDescend(hops, p, 5, 6);
    }
  }

  /** transfer_events is a path of the transition table that ends in the row's phase and never
      enters a phase twice; the outbox holds one status event for a terminal transfer and none
      before. */
  lemma History(w: World, id: string)
    requires Occurs(w) && id in w.store
    ensures var rec := w.store[id];
            && PathTo(rec.hops, rec.row.phase)
            && (forall i, j :: 0 <= i < j < |rec.hops| ==> rec.hops[i].after != rec.hops[j].after)
            && |rec.hops| <= 6
            && rec.published == if IsTerminal(rec.row.phase) then [rec.row.phase] else []
  {
    OccursInv(w);
    assert RecordOk(w.store, w.ledger, id);
    HopsDistinct(w.store[id].hops, w.store[id].row.phase);
  }

  /** The state-only guard is as strong as a version check: it lets a stale driver write exactly
      when the row is still its snapshot, but for the claim counter no driver writes. */
  lemma StaleNeverOverwrites(w: World, d: nat)
    requires Occurs(w) && !At(w, d).Idle?
    ensures var t := At(w, d).t;
            && t.id in w.store
            && (w.store[t.id].row.phase == t.phase <==> w.store[t.id].row == t.(attempts := w.store[t.id].row.attempts))
  {
    OccursInv(w);
    SagaLaws.Holder(w, d);
    GuardIsCompareAndSwap(w, At(w, d));
  }

  /** Once validated, the destination, the amounts and the locked rate never change; the hold id
      never changes once written; the phase only moves down the table. */
  lemma Frozen(w: World, id: string, acts: seq<Action>)
    requires WorldInv(w) && id in w.store
    ensures var v := Perform(w, acts);
            && id in v.store
            && var t, u := w.store[id].row, v.store[id].row;
            && SameCore(t, u)
            && (Fixed(t.phase) ==> SameFixed(t, u) && BuildPostings(t) == BuildPostings(u))
            && (t.holdId.Some? ==> u.holdId == t.holdId)
            && (u.phase == t.phase || Rank(u.phase) < Rank(t.phase))
  {
    PerformInv(w, acts);
    PerformAdvances(w, acts);
    RowFrozen(w.store[id].row, Perform(w, acts).store[id].row);
  }

  lemma RowFrozen(t: Transfer, u: Transfer)
    requires Became(t, u)
    ensures SameCore(t, u)
    ensures Fixed(t.phase) ==> SameFixed(t, u) && BuildPostings(t) == BuildPostings(u)
    ensures t.holdId.Some? ==> u.holdId == t.holdId
    ensures u.phase == t.phase || Rank(u.phase) < Rank(t.phase)
  {
  }

  // ---------------------------------------------------------------- the sink

  /** The one place a transfer can be stuck: compensating for a post that went through. */
  ghost predicate Sink(t: Transfer, s: State) {
    && t.phase == Releasing && t.holdId.Some?
    && t.holdId.value in s.holds && s.holds[t.holdId.value].status == LedgerDomain.HoldCaptured
  }

  /** How it is entered: the ledger commits the entry, and its answer reaches the driver as a
      definite refusal. */
  lemma SinkEntered(w: World, d: nat, reason: string)
    requires TableInv(w) && WellFormed(w.ledger) && At(w, d).AwaitPost?
    requires TransferRef(At(w, d).t.id) in w.ledger.entryRefs
    requires At(w, d).t.id in w.store && w.store[At(w, d).t.id].row.phase == Phase.Posting
    ensures Enabled(w, PostRefused(d, reason))
    ensures var v := Do(w, PostRefused(d, reason));
            At(w, d).t.id in v.store && Sink(v.store[At(w, d).t.id].row, v.ledger)
  {
    RefusedWorld(w, d, reason);
    SinkMove(w, d, At(w, d).t, reason);
  }

  lemma SinkMove(w: World, d: nat, t: Transfer, reason: string)
    requires TableInv(w) && At(w, d) == AwaitPost(t) && TransferRef(t.id) in w.ledger.entryRefs
    requires t.id in w.store && w.store[t.id].row.phase == Phase.Posting
    ensures var v := Move(w, d, t.(reason := Some(reason)), EvPostFailed);
            t.id in v.store && Sink(v.store[t.id].row, v.ledger)
  {
    SagaLaws.Holder(w, d);
    assert RecordOk(w.store, w.ledger, t.id);
    RefusedIntoSink(w.store[t.id], t, t.(reason := Some(reason)), w.ledger);
  }

  lemma RefusedWorld(w: World, d: nat, reason: string)
    requires WellFormed(w.ledger) && At(w, d).AwaitPost?
    ensures Enabled(w, PostRefused(d, reason))
    ensures Do(w, PostRefused(d, reason)) == Move(w, d, At(w, d).t.(reason := Some(reason)), EvPostFailed)
  {
  }

  lemma RefusedIntoSink(rec: Record, t: Transfer, u: Transfer, s: State)
    requires RowOk(rec.row, s) && rec.row.phase == Phase.Posting && TransferRef(rec.row.id) in s.entryRefs
    requires Became(t, rec.row) && t.phase == Phase.Posting && u == t.(reason := u.reason)
    ensures Sink(Transition(rec, u, Releasing).row, s)
  {
  }

  /** Unconditional progress is therefore false: nothing that can still happen leaves the sink. The
      money has moved, as the row's single entry says, and the row keeps waiting for a release the
      ledger will always refuse. */
  lemma SinkForever(w: World, id: string, acts: seq<Action>)
    requires WorldInv(w) && id in w.store && Sink(w.store[id].row, w.ledger)
    ensures var v := Perform(w, acts);
            && id in v.store && Sink(v.store[id].row, v.ledger)
            && exists i :: SoleEntry(v.store[id].row, v.ledger, i)
  {
    var v := Perform(w, acts);
    PerformInv(w, acts);
    PerformAdvances(w, acts);
    assert RecordOk(v.store, v.ledger, id);
    SinkKept(w.store[id].row, w.ledger, v.store[id].row, v.ledger);
  }

  lemma SinkKept(t: Transfer, s: State, u: Transfer, s': State)
    requires Sink(t, s) && Became(t, u) && SagaLaws.HoldsGrow(s, s')
    requires RowOk(u, s') && LedgerLaws.HoldsOk(s') && LedgerLaws.JournalOk(s')
    ensures Sink(u, s')
    ensures exists i :: SoleEntry(u, s', i)
  {
    RowFence(u, s');
    EntryAlone(u, s');
  }
}

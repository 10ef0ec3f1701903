/** The whole event pipeline at once: the ledger commits and announces, relays publish, the account
    service's consumer deduplicates and projects, in any interleaving. */
module Pipeline {
  import opened Int64
  import LedgerDomain
  import opened Ledger
  import LedgerLaws
  import Delivery
  import Projection

  // ---------------------------------------------------------------- events by name

  /** The event id drawn for each position of the ledger's outbox; no two are the same. */
  type Names = nat -> string

  ghost predicate Distinct(name: Names) {
    forall i: nat, j: nat :: name(i) == name(j) ==> i == j
  }

  /** The position among the first n with this event id. */
  function Position(name: Names, n: nat, event: string): (p: Option<nat>)
    ensures p.Some? ==> p.value < n && name(p.value) == event
  {
    if n == 0 then None else if name(n - 1) == event then Some(n - 1) else Position(name, n - 1, event)
  }

  lemma {:induction false} PositionFinds(name: Names, n: nat, i: nat)
    requires Distinct(name) && i < n
    ensures Position(name, n, name(i)) == Some(i)
  {
    if name(n - 1) != name(i) {
      PositionFinds(name, n - 1, i);
    }
  }

  /** What the handler sees: the payloads of the events that took effect, in order. */
  function Handled(name: Names, outbox: seq<TransactionPosted>, effects: seq<string>): seq<TransactionPosted> {
    if effects == [] then []
    else
      var p := Position(name, |outbox|, effects[|effects| - 1]);
      Handled(name, outbox, effects[..|effects| - 1]) + if p.Some? then [outbox[p.value]] else []
  }

  lemma {:induction false} HandledFrom(name: Names, outbox: seq<TransactionPosted>, effects: seq<string>, e: TransactionPosted)
    requires e in Handled(name, outbox, effects)
    ensures exists i: nat :: i < |outbox| && outbox[i] == e && name(i) in effects
  {
    var init, last := effects[..|effects| - 1], effects[|effects| - 1];
    if e in Handled(name, outbox, init) {
      HandledFrom(name, outbox, init, e);
    } else {
      var p := Position(name, |outbox|, last);
      assert outbox[p.value] == e && name(p.value) in effects;
    }
  }

  lemma {:induction false} HandledAll(name: Names, outbox: seq<TransactionPosted>, effects: seq<string>, i: nat)
    requires Distinct(name) && i < |outbox| && name(i) in effects
    ensures outbox[i] in Handled(name, outbox, effects)
  {
    var init, last := effects[..|effects| - 1], effects[|effects| - 1];
    if name(i) == last {
      PositionFinds(name, |outbox|, i);
    } else {
      HandledAll(name, outbox, init, i);
    }
  }

  /** Later announcements do not change what earlier effects were. */
  lemma {:induction false} HandledStable(name: Names, outbox: seq<TransactionPosted>, later: seq<TransactionPosted>,
                                         effects: seq<string>)
    requires Distinct(name) && outbox <= later
    requires forall k :: 0 <= k < |effects| ==> Known(name, |outbox|, effects[k])
    ensures Handled(name, later, effects) == Handled(name, outbox, effects)
  {
    if effects != [] {
      var init, last := effects[..|effects| - 1], effects[|effects| - 1];
      HandledStable(name, outbox, later, init);
      assert Known(name, |outbox|, last);
      var i: nat :| i < |outbox| && name(i) == last;
      PositionFinds(name, |outbox|, i);
      PositionFinds(name, |later|, i);
    }
  }

  lemma {:induction false} HandledConcat(name: Names, outbox: seq<TransactionPosted>, before: seq<string>, after: seq<string>)
    ensures Handled(name, outbox, before + after) == Handled(name, outbox, before) + Handled(name, outbox, after)
  {
    if after == [] {
      assert before + after == before;
    } else {
      assert (before + after)[..|before + after| - 1] == before + after[..|after| - 1];
      HandledConcat(name, outbox, before, after[..|after| - 1]);
    }
  }

  lemma {:induction false} ProjectConcat(t: Projection.Table, es: seq<TransactionPosted>, fs: seq<TransactionPosted>)
    ensures Projection.ProjectAll(t, es + fs) == Projection.ProjectAll(Projection.ProjectAll(t, es), fs)
  {
    if fs == [] {
      assert es + fs == es;
    } else {
      assert (es + fs)[..|es + fs| - 1] == es + fs[..|fs| - 1];
      ProjectConcat(t, es, fs[..|fs| - 1]);
    }
  }

  // ---------------------------------------------------------------- the tables fit together

  ghost predicate Known(name: Names, n: nat, event: string) {
    exists i: nat :: i < n && name(i) == event
  }

  /** The relay's table holds exactly the announcements, under their event ids. */
  ghost predicate Feeds(name: Names, n: nat, outbox: map<nat, Delivery.Row>) {
    && (forall i: nat :: i in outbox <==> i < n)
    && (forall i: nat :: i in outbox ==> outbox[i].event == name(i))
  }

  /** Nothing is on the topic or processed but announcements. */
  ghost predicate Genuine(name: Names, n: nat, log: seq<Delivery.Record>, processed: set<string>) {
    && (forall k :: 0 <= k < |log| ==> log[k].event.Some? && Known(name, n, log[k].event.value))
    && (forall e :: e in processed ==> Delivery.Record(Some(e)) in log)
  }

  /** Every account row of the read model comes from the effects of the deduplicated events. */
  ghost predicate Projected(name: Names, s: State, effects: seq<string>, shown: Projection.Table) {
    shown == Projection.ProjectAll(map[], Handled(name, s.outbox, effects))
  }

  ghost predicate Live(s: State, name: Names, relay: Delivery.Relay, consumer: Delivery.Consumer, model: Projection.ReadModel)
    reads relay, relay.broker, consumer, consumer.broker, model
  {
    && relay.Valid() && consumer.Valid() && relay.broker == consumer.broker
    && Distinct(name)
    && Feeds(name, |s.outbox|, relay.outbox)
    && Genuine(name, |s.outbox|, relay.broker.log, consumer.db.processed)
    && Projected(name, s, consumer.db.effects, model.balances)
  }

  lemma EffectsProcessed(db: Delivery.Db, e: string)
    requires Delivery.Once(db)
    ensures e in db.effects <==> e in db.processed
  {
    assert e in db.effects <==> multiset(db.effects)[e] > 0;
  }

  lemma EffectsKnown(name: Names, n: nat, log: seq<Delivery.Record>, db: Delivery.Db)
    requires Genuine(name, n, log, db.processed) && Delivery.Once(db)
    ensures forall k :: 0 <= k < |db.effects| ==> Known(name, n, db.effects[k])
  {
    forall k | 0 <= k < |db.effects| ensures Known(name, n, db.effects[k]) {
      EffectsProcessed(db, db.effects[k]);
    }
  }

  lemma FeedsStill(name: Names, n: nat, outbox: map<nat, Delivery.Row>, outbox': map<nat, Delivery.Row>)
    requires Feeds(name, n, outbox) && Delivery.StillSent(outbox, outbox')
    ensures Feeds(name, n, outbox')
  {
    assert forall i: nat :: i in outbox' <==> i in outbox'.Keys;
  }

  lemma GenuineRound(name: Names, n: nat, outbox: map<nat, Delivery.Row>, log: seq<Delivery.Record>, log': seq<Delivery.Record>,
                     processed: set<string>)
    requires Feeds(name, n, outbox) && Genuine(name, n, log, processed) && Delivery.FromRows(log, log', outbox)
    ensures Genuine(name, n, log', processed)
  {
    forall k | 0 <= k < |log'| ensures log'[k].event.Some? && Known(name, n, log'[k].event.value) {
      if k < |log| {
        assert log'[k] == log[k];
      } else {
        assert Delivery.IsRow(log'[k], outbox);
        var id :| id in outbox && log'[k] == Delivery.Record(Some(outbox[id].event));
        assert name(id) == log'[k].event.value;
      }
    }
  }

  // ---------------------------------------------------------------- any interleaving

  datatype Happening =
    | Transaction(op: Op)
    | Round(locked: set<nat>, limit: nat, landed: nat -> bool, acknowledged: bool, ending: Delivery.Ending)
    | Stretch(from: nat, to: nat, weather: nat -> Delivery.Weather)

  lemma OutboxGrows(s: State, op: Op)
    requires WellFormed(s)
    ensures s.outbox <= Step(s, op).outbox
  {
    match op
    case OpCreateAccount(x, c, f) => Ledger.CreateAccountWrites(s, x, c, f);
    case OpPlaceHold(ref, amount, c, r, e, f) => Ledger.PlaceHoldWrites(s, ref, amount, c, r, e, f);
    case OpRelease(h) =>
    case OpPost(r, h, specs) => LedgerLaws.PostShape(s, r, h, specs);
    case OpSetStatus(a, st) =>
  }

  /** The new announcements enter the outbox in the ledger's own transaction. */
  method Announce(s: State, t: State, name: Names, relay: Delivery.Relay, consumer: Delivery.Consumer,
                  model: Projection.ReadModel)
    requires Live(s, name, relay, consumer, model) && s.outbox <= t.outbox
    modifies relay
    ensures Live(t, name, relay, consumer, model)
  {
    EffectsKnown(name, |s.outbox|, relay.broker.log, consumer.db);
    HandledStable(name, s.outbox, t.outbox, consumer.db.effects);
    for i := |s.outbox| to |t.outbox|
      invariant relay.Valid() && consumer.Valid() && Feeds(name, i, relay.outbox)
    {
      relay.Insert(i, name(i));
    }
  }

  method OneRound(s: State, name: Names, relay: Delivery.Relay, consumer: Delivery.Consumer, model: Projection.ReadModel,
                  locked: set<nat>, limit: nat, landed: nat -> bool, acknowledged: bool, ending: Delivery.Ending)
    requires Live(s, name, relay, consumer, model)
    modifies relay, relay.broker
    ensures Live(s, name, relay, consumer, model)
  {
    ghost var outbox, log := relay.outbox, relay.broker.log;
    var n, failed := relay.RelayOnce(locked, limit, landed, acknowledged, ending);
    Delivery.MarkedStill(outbox, outbox, Delivery.Batch(outbox, locked, limit));
    FeedsStill(name, |s.outbox|, outbox, relay.outbox);
    GenuineRound(name, |s.outbox|, outbox, log, relay.broker.log, consumer.db.processed);
    assert consumer.Valid();
  }

  /** Each effect of the stretch is the projection of its event, in the transaction of its dedup row. */
  method OneStretch(s: State, name: Names, relay: Delivery.Relay, consumer: Delivery.Consumer, model: Projection.ReadModel,
                    from: nat, to: nat, weather: nat -> Delivery.Weather)
    returns (stopped: bool)
    requires Live(s, name, relay, consumer, model) && from <= consumer.marked && from <= to <= |consumer.broker.log|
    modifies consumer, model
    ensures Live(s, name, relay, consumer, model)
    ensures !stopped ==> to <= consumer.marked
    ensures (forall o :: weather(o).stopAt.None?) ==> !stopped
  {
    var before := consumer.db.effects;
    stopped := consumer.ProcessPartition(from, to, weather);
    var news := consumer.db.effects[|before|..];
    assert before + news == consumer.db.effects;
    HandledConcat(name, s.outbox, before, news);
    ProjectConcat(map[], Handled(name, s.outbox, before), Handled(name, s.outbox, news));
    model.Consume(Handled(name, s.outbox, news));
    assert relay.Valid();
  }

  /** The ledger after the transactions among these happenings. */
  ghost function LedgerAfter(happenings: seq<Happening>): State {
    if happenings == [] then Seed()
    else
      var s, last := LedgerAfter(happenings[..|happenings| - 1]), happenings[|happenings| - 1];
      if last.Transaction? && WellFormed(s) then Step(s, last.op) else s
  }

  lemma LedgerNext(happenings: seq<Happening>, i: nat)
    requires i < |happenings|
    ensures LedgerAfter(happenings[..i + 1]) ==
              var s := LedgerAfter(happenings[..i]);
              if happenings[i].Transaction? && WellFormed(s) then Step(s, happenings[i].op) else s
  {
    assert happenings[..i + 1][..i] == happenings[..i];
  }

  method OneTransaction(ghost states: seq<State>, s: State, op: Op, name: Names, relay: Delivery.Relay,
                        consumer: Delivery.Consumer, model: Projection.ReadModel)
    returns (t: State)
    requires Projection.Trace(states) && states[|states| - 1] == s && Live(s, name, relay, consumer, model)
    modifies relay
    ensures WellFormed(s) && t == Step(s, op) && Projection.Trace(states + [t]) && Live(t, name, relay, consumer, model)
  {
    TraceTables(states);
    OutboxGrows(s, op);
    TraceNext(states, op);
    t := Step(s, op);
    Announce(s, t, name, relay, consumer, model);
  }

  method OneHappening(ghost states: seq<State>, s: State, h: Happening, name: Names, relay: Delivery.Relay,
                      consumer: Delivery.Consumer, model: Projection.ReadModel)
    returns (t: State)
    requires Projection.Trace(states) && states[|states| - 1] == s && Live(s, name, relay, consumer, model)
    modifies relay, relay.broker, consumer, model
    ensures Live(t, name, relay, consumer, model)
    ensures if h.Transaction? then WellFormed(s) && t == Step(s, h.op) && Projection.Trace(states + [t]) else t == s
  {
    t := s;
    match h {
      case Transaction(op) =>
        t := OneTransaction(states, s, op, name, relay, consumer, model);
      case Round(locked, limit, landed, acknowledged, ending) =>
        OneRound(s, name, relay, consumer, model, locked, limit, landed, acknowledged, ending);
      case Stretch(from, to, weather) =>
        if from <= consumer.marked && from <= to <= |consumer.broker.log| {
          var stopped := OneStretch(s, name, relay, consumer, model, from, to, weather);
        }
    }
  }

  /** From the seeded ledger and empty tables on, whatever happens in whatever order: the tables of the
      three services stay in step. */
  method AnyRun(relay: Delivery.Relay, consumer: Delivery.Consumer, model: Projection.ReadModel, name: Names,
                happenings: seq<Happening>)
    returns (ghost states: seq<State>)
    requires relay.Valid() && consumer.Valid() && relay.broker == consumer.broker && Distinct(name)
    requires relay.outbox == map[] && relay.broker.log == [] && consumer.db == Delivery.Db({}, []) && model.balances == map[]
    modifies relay, relay.broker, consumer, model
    ensures Projection.Trace(states) && states[|states| - 1] == LedgerAfter(happenings)
    ensures Live(LedgerAfter(happenings), name, relay, consumer, model)
  {
    var s := Seed();
    states := [s];
    for i := 0 to |happenings|
      invariant Projection.Trace(states) && states[|states| - 1] == s && Live(s, name, relay, consumer, model)
      invariant s == LedgerAfter(happenings[..i])
    {
      LedgerNext(happenings, i);
      s := OneHappening(states, s, happenings[i], name, relay, consumer, model);
      states := if happenings[i].Transaction? then states + [s] else states;
    }
    assert happenings[..|happenings|] == happenings;
  }

  lemma TraceTables(states: seq<State>)
    requires Projection.Trace(states)
    ensures WellFormed(states[|states| - 1])
  {
    Projection.TraceInv(states, |states| - 1);
  }

  lemma TraceNext(states: seq<State>, op: Op)
    requires Projection.Trace(states) && WellFormed(states[|states| - 1])
    ensures Projection.Trace(states + [Step(states[|states| - 1], op)])
  {
    var more := states + [Step(states[|states| - 1], op)];
    assert Projection.Follows(states[|states| - 1], more[|states|]);
    forall i | 0 < i < |more| ensures Projection.Follows(more[i - 1], more[i]) {
      if i < |states| {
        assert Projection.Follows(states[i - 1], states[i]);
      }
    }
  }

  // ---------------------------------------------------------------- what customers see

  lemma HandledFromLedger(name: Names, s: State, effects: seq<string>)
    ensures Projection.FromLedger(Handled(name, s.outbox, effects), s)
  {
    forall e | Projection.Delivered(Handled(name, s.outbox, effects), e) ensures e in s.outbox {
      HandledFrom(name, s.outbox, effects, e);
    }
  }

  /** At every moment of every run, what a customer is shown is a pair the ledger really had. */
  lemma ShownWasReal(states: seq<State>, name: Names, relay: Delivery.Relay, consumer: Delivery.Consumer,
                     model: Projection.ReadModel, x: string)
    requires Projection.Trace(states) && Live(states[|states| - 1], name, relay, consumer, model) && x in model.balances
    ensures var s := states[|states| - 1];
            x in s.byExternal && Projection.Had(states, s.byExternal[x], model.balances[x])
  {
    var s := states[|states| - 1];
    HandledFromLedger(name, s, consumer.db.effects);
    Projection.AlwaysReal(states, Handled(name, s.outbox, consumer.db.effects), x);
  }

  /** An announcement of the account's current version has been processed. */
  ghost predicate NewestProcessed(s: State, name: Names, processed: set<string>, a: LedgerDomain.Uuid)
    requires a in s.balances
  {
    exists i: nat :: && i < |s.outbox| && s.outbox[i].account == a && s.outbox[i].version == s.balances[a].version
                     && name(i) in processed
  }

  /** The customer's account has a balance row that was written at least once. */
  ghost predicate Moved(s: State, x: string) {
    x != "" && x in s.byExternal && s.byExternal[x] in s.balances && 0 < s.balances[s.byExternal[x]].version
  }

  ghost predicate Shows(s: State, shown: Projection.Table, x: string)
    requires x in s.byExternal && s.byExternal[x] in s.balances
  {
    x in shown && shown[x] == Projection.Current(s, s.byExternal[x])
  }

  lemma NewestDelivered(s: State, name: Names, db: Delivery.Db, a: LedgerDomain.Uuid)
    requires Distinct(name) && Delivery.Once(db) && a in s.balances
    ensures var es := Handled(name, s.outbox, db.effects);
            (exists e :: Projection.Delivered(es, e) && e.account == a && e.version == s.balances[a].version) <==>
            NewestProcessed(s, name, db.processed, a)
  {
    var es := Handled(name, s.outbox, db.effects);
    if e :| Projection.Delivered(es, e) && e.account == a && e.version == s.balances[a].version {
      HandledFrom(name, s.outbox, db.effects, e);
      var i: nat :| i < |s.outbox| && s.outbox[i] == e && name(i) in db.effects;
      EffectsProcessed(db, name(i));
    }
    if NewestProcessed(s, name, db.processed, a) {
      var i: nat :| i < |s.outbox| && s.outbox[i].account == a && s.outbox[i].version == s.balances[a].version
                    && name(i) in db.processed;
      EffectsProcessed(db, name(i));
      HandledAll(name, s.outbox, db.effects, i);
      assert Projection.Delivered(es, s.outbox[i]);
    }
  }

  /** The customer is shown the current pair if and only if an announcement of the current version has
      been processed, whatever happened to all the others. */
  lemma CurrentIffProcessed(s: State, name: Names, relay: Delivery.Relay, consumer: Delivery.Consumer,
                            model: Projection.ReadModel, x: string)
    requires LedgerLaws.Inv(s) && Live(s, name, relay, consumer, model)
    requires x in s.byExternal && s.byExternal[x] in s.balances && x != ""
    ensures Shows(s, model.balances, x) <==> NewestProcessed(s, name, consumer.db.processed, s.byExternal[x])
  {
    HandledFromLedger(name, s, consumer.db.effects);
    Projection.CurrentIffNewestDelivered(s, Handled(name, s.outbox, consumer.db.effects), x);
    NewestDelivered(s, name, consumer.db, s.byExternal[x]);
  }

  /** Every row was sent, and every record was processed. */
  ghost predicate Quiet(relay: Delivery.Relay, consumer: Delivery.Consumer)
    reads relay, consumer, consumer.broker
  {
    && (forall id :: id in relay.outbox ==> relay.outbox[id].sent)
    && consumer.marked == |consumer.broker.log|
    && forall o :: 0 <= o < consumer.marked ==> o in consumer.fates && consumer.fates[o] == Delivery.Processed
  }

  lemma QuietProcessed(s: State, name: Names, relay: Delivery.Relay, consumer: Delivery.Consumer,
                       model: Projection.ReadModel, i: nat)
    requires Live(s, name, relay, consumer, model) && Quiet(relay, consumer) && i < |s.outbox|
    ensures name(i) in consumer.db.processed
  {
    assert i in relay.outbox && relay.outbox[i].event == name(i);
    assert Delivery.Record(Some(name(i))) in relay.broker.log;
    var o :| 0 <= o < |relay.broker.log| && relay.broker.log[o] == Delivery.Record(Some(name(i)));
    assert consumer.FateOk(consumer.fates[o], consumer.broker.log[o], o);
  }

  /** Once every row is sent and every record processed, the read model is the ledger's customer side. */
  lemma QuietAgrees(s: State, name: Names, relay: Delivery.Relay, consumer: Delivery.Consumer,
                    model: Projection.ReadModel, x: string)
    requires LedgerLaws.Inv(s) && Live(s, name, relay, consumer, model) && Quiet(relay, consumer)
    requires Moved(s, x)
    ensures Shows(s, model.balances, x)
  {
    var a := s.byExternal[x];
    assert LedgerLaws.Announced(s, a, s.balances[a].version);
    var i :| 0 <= i < |s.outbox| && s.outbox[i].account == a && s.outbox[i].version == s.balances[a].version;
    QuietProcessed(s, name, relay, consumer, model, i);
    CurrentIffProcessed(s, name, relay, consumer, model, x);
  }

  /** One pass after any run: the relay is drained and the partition consumed. Unless something failed
      or some record was given up, every customer is then shown the ledger's current pair. */
  method CatchUp(ghost states: seq<State>, s: State, name: Names, relay: Delivery.Relay, consumer: Delivery.Consumer,
                 model: Projection.ReadModel, limit: nat, landed: nat -> bool, acknowledged: nat -> bool,
                 ending: nat -> Delivery.Ending, weather: nat -> Delivery.Weather)
    returns (failed: bool)
    requires Projection.Trace(states) && states[|states| - 1] == s && Live(s, name, relay, consumer, model) && 0 < limit
    modifies relay, relay.broker, consumer, model
    ensures Live(s, name, relay, consumer, model)
    ensures !failed && consumer.dlq == [] && consumer.unlettered == {} ==>
              forall x :: Moved(s, x) ==> Shows(s, model.balances, x)
    ensures (forall k :: acknowledged(k) && ending(k) == Delivery.Committed) && (forall o :: weather(o).stopAt.None?) ==> !failed
  {
    ghost var outbox, log := relay.outbox, relay.broker.log;
    failed := relay.Drain({}, limit, landed, acknowledged, ending);
    FeedsStill(name, |s.outbox|, outbox, relay.outbox);
    GenuineRound(name, |s.outbox|, outbox, log, relay.broker.log, consumer.db.processed);
    assert consumer.Valid();
    if failed {
      return;
    }
    failed := OneStretch(s, name, relay, consumer, model, consumer.marked, |consumer.broker.log|, weather);
    if !failed && consumer.dlq == [] && consumer.unlettered == {} {
      GivenUpNone(consumer);
      Projection.TraceInv(states, |states| - 1);
      forall x | Moved(s, x) ensures Shows(s, model.balances, x) {
        QuietAgrees(s, name, relay, consumer, model, x);
      }
    }
  }

  lemma GivenUpNone(consumer: Delivery.Consumer)
    requires consumer.Valid() && consumer.dlq == [] && consumer.unlettered == {}
    ensures forall o :: 0 <= o < consumer.marked ==> o in consumer.fates && consumer.fates[o] == Delivery.Processed
  {
    forall o | 0 <= o < consumer.marked ensures o in consumer.fates && consumer.fates[o] == Delivery.Processed {
      assert consumer.FateOk(consumer.fates[o], consumer.broker.log[o], o);
    }
  }
}

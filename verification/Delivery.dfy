/** From the outbox through the broker to the consumers: at-least-once delivery, at-most-once effect.
    What the network, the databases and the scheduler do to each call is given by parameters. */
module Delivery {
  import opened Int64
  import Sums

  /** A record on the topic: the event id in its envelope, if the envelope can be decoded. */
  datatype Record = Record(event: Option<string>)

  class Broker {
    var log: seq<Record>

    constructor ()
      ensures log == []
    {
      log := [];
    }

    /** Synchronous produce: either every record is acknowledged, or an error comes back and any of
        them may have been written. */
    method Produce(records: seq<Record>, landed: nat -> bool, acknowledged: bool)
      modifies this
      ensures old(log) <= log
      ensures acknowledged ==> log == old(log) + records
      ensures forall i :: |old(log)| <= i < |log| ==> log[i] in records
    {
      for i := 0 to |records|
        invariant old(log) <= log
        invariant acknowledged ==> log == old(log) + records[..i]
        invariant forall k :: |old(log)| <= k < |log| ==> log[k] in records
      {
        if acknowledged || landed(i) {
          log := log + [records[i]];
        }
      }
    }
  }

  // ---------------------------------------------------------------- the relay

  datatype Row = Row(event: string, sent: bool)

  /** The end of a transaction as its caller sees it; a failed commit may have taken effect. */
  datatype Ending = Committed | RolledBack | Unclear(committed: bool)

  /** The unsent rows no other relay has locked. */
  function Pending(outbox: map<nat, Row>, locked: set<nat>): set<nat> {
    set id | id in outbox && !outbox[id].sent && id !in locked
  }

  function Batch(outbox: map<nat, Row>, locked: set<nat>, limit: nat): seq<nat> {
    var ids := Sums.Sorted(Pending(outbox, locked));
    if |ids| <= limit then ids else ids[..limit]
  }

  function MarkSent(outbox: map<nat, Row>, ids: seq<nat>): map<nat, Row> {
    map id | id in outbox :: if id in ids then outbox[id].(sent := true) else outbox[id]
  }

  lemma BatchPending(outbox: map<nat, Row>, locked: set<nat>, limit: nat)
    ensures forall id :: id in Batch(outbox, locked, limit) ==> id in Pending(outbox, locked)
    ensures |Batch(outbox, locked, limit)| < limit ==> forall id :: id in Pending(outbox, locked) ==> id in Batch(outbox, locked, limit)
  {
    Sums.SortedExact(Pending(outbox, locked));
  }

  /** What a relay adds to the topic are records of outbox rows. */
  ghost predicate FromRows(before: seq<Record>, log: seq<Record>, outbox: map<nat, Row>) {
    && before <= log
    && forall i :: |before| <= i < |log| ==> IsRow(log[i], outbox)
  }

  ghost predicate IsRow(r: Record, outbox: map<nat, Row>) {
    exists id :: id in outbox && r == Record(Some(outbox[id].event))
  }

  /** The batch is the oldest of the rows that are neither sent nor locked, oldest first. */
  lemma BatchExact(outbox: map<nat, Row>, locked: set<nat>, limit: nat)
    ensures var ids := Batch(outbox, locked, limit);
            && |ids| <= limit
            && (forall i, j :: 0 <= i < j < |ids| ==> ids[i] < ids[j])
            && (forall id :: id in ids ==> id in outbox && !outbox[id].sent && id !in locked)
            && (forall id :: id in outbox && !outbox[id].sent && id !in locked && id !in ids ==>
                  |ids| == limit && forall i :: 0 <= i < |ids| ==> ids[i] < id)
  {
    var all, ids := Sums.Sorted(Pending(outbox, locked)), Batch(outbox, locked, limit);
    Sums.SortedExact(Pending(outbox, locked));
    assert forall i :: 0 <= i < |ids| ==> ids[i] == all[i] && ids[i] in all;
    forall id | id in outbox && !outbox[id].sent && id !in locked && id !in ids
      ensures |ids| == limit && forall i :: 0 <= i < |ids| ==> ids[i] < id
    {
      assert id in Pending(outbox, locked) && id in all;
      var k :| 0 <= k < |all| && all[k] == id;
      assert forall j :: 0 <= j < |ids| ==> ids[j] in ids;
      assert limit <= k;
    }
  }

  /** The records of these rows, in this order. */
  ghost function RecordsOf(outbox: map<nat, Row>, ids: seq<nat>): seq<Record>
    requires forall id :: id in ids ==> id in outbox
  {
    seq(|ids|, i requires 0 <= i < |ids| => assert ids[i] in ids; Record(Some(outbox[ids[i]].event)))
  }

  class Relay {
    var outbox: map<nat, Row>
    const broker: Broker

    /** Rows whose produce call the broker has acknowledged. */
    ghost var acked: set<nat>

    /** No row is marked sent before the broker acknowledged it, and what is acknowledged is on the
        topic. */
    ghost predicate Valid()
      reads this, broker
    {
      && (forall id :: id in outbox && outbox[id].sent ==> id in acked)
      && (forall id :: id in acked ==> id in outbox && Record(Some(outbox[id].event)) in broker.log)
    }

    constructor (broker: Broker)
      ensures Valid() && this.broker == broker && outbox == map[] && acked == {}
    {
      this.broker := broker;
      outbox := map[];
      acked := {};
    }

    /** Part of the producing service's own transaction. */
    method Insert(id: nat, event: string)
      requires Valid() && id !in outbox
      modifies this
      ensures Valid() && outbox == old(outbox)[id := Row(event, false)] && acked == old(acked)
    {
      outbox := outbox[id := Row(event, false)];
    }

    method RelayOnce(locked: set<nat>, limit: nat, landed: nat -> bool, acknowledged: bool, ending: Ending)
      returns (n: nat, failed: bool)
      requires Valid()
      modifies this, broker
      ensures Valid() && old(broker.log) <= broker.log && old(acked) <= acked
      ensures var ids := Batch(old(outbox), locked, limit);
              && (outbox == old(outbox) || outbox == MarkSent(old(outbox), ids))
              && (outbox != old(outbox) ==> acknowledged)
              && (!failed ==> n == |ids| && outbox == MarkSent(old(outbox), ids))
              && (acknowledged && ending == Committed ==> !failed)
      ensures FromRows(old(broker.log), broker.log, old(outbox))
      ensures (forall id :: id in Batch(old(outbox), locked, limit) ==> id in old(outbox))
              && (acknowledged ==> broker.log == old(broker.log) + RecordsOf(old(outbox), Batch(old(outbox), locked, limit)))
    {
      var batch := Batch(outbox, locked, limit);
      BatchPending(outbox, locked, limit);
      var ids: seq<nat> := [];
      var records: seq<Record> := [];
      for i := 0 to |batch|
        invariant ids == batch[..i] && |records| == i
        invariant forall k :: 0 <= k < i ==> batch[k] in outbox && records[k] == Record(Some(outbox[batch[k]].event))
      {
        assert batch[i] in batch;
        ids := ids + [batch[i]];
        records := records + [Record(Some(outbox[batch[i]].event))];
      }
      assert ids == batch && records == RecordsOf(outbox, batch);
      if |records| == 0 {
        assert MarkSent(outbox, ids) == outbox;
        return 0, false;
      }
      broker.Produce(records, landed, acknowledged);
      if !acknowledged {
        return 0, true;
      }
      acked := acked + set id | id in ids;
      if ending.Committed? || (ending.Unclear? && ending.committed) {
        outbox := MarkSent(outbox, ids);
      }
      if !ending.Committed? {
        return 0, true;
      }
      return |records|, false;
    }

    /** The relay's tick: full batches until one comes up short or fails. Unless a round failed,
        nothing unlocked is left behind. */
    method Drain(locked: set<nat>, limit: nat, landed: nat -> bool, acknowledged: nat -> bool, ending: nat -> Ending)
      returns (failed: bool)
      requires Valid() && 0 < limit
      modifies this, broker
      ensures Valid() && old(broker.log) <= broker.log && outbox.Keys == old(outbox).Keys
      ensures forall id :: id in old(outbox) ==> outbox[id].event == old(outbox)[id].event
      ensures forall id :: id in old(outbox) && old(outbox)[id].sent ==> outbox[id].sent
      ensures FromRows(old(broker.log), broker.log, old(outbox))
      ensures !failed ==> forall id :: id in outbox && id !in locked ==> outbox[id].sent
      ensures (forall k :: acknowledged(k) && ending(k) == Committed) ==> !failed
    {
      var round := 0;
      var more := true;
      failed := false;
      while more
        invariant Valid() && 0 <= round && StillSent(old(outbox), outbox)
        invariant FromRows(old(broker.log), broker.log, old(outbox))
        invariant !more && !failed ==> Pending(outbox, locked) == {}
        invariant failed ==> !more && exists k :: !(acknowledged(k) && ending(k) == Committed)
        decreases |Pending(outbox, locked)|, more
      {
        ghost var before, log := outbox, broker.log;
        BatchPending(outbox, locked, limit);
        var n;
        n, failed := RelayOnce(locked, limit, landed, acknowledged(round), ending(round));
        RoundMarks(old(outbox), before, outbox, locked, Batch(before, locked, limit));
        FromRowsNext(old(broker.log), log, broker.log, old(outbox), before);
        if failed {
          assert !(acknowledged(round) && ending(round) == Committed);
          more := false;
        } else {
          more := limit <= n;
        }
        round := round + 1;
      }
      if !failed {
        forall id | id in outbox && id !in locked ensures outbox[id].sent {
          assert id !in Pending(outbox, locked);
        }
      }
    }
  }

  /** The same rows, and what was sent stays sent. */
  ghost predicate StillSent(outbox: map<nat, Row>, outbox': map<nat, Row>) {
    && outbox'.Keys == outbox.Keys
    && forall id :: id in outbox ==> outbox'[id].event == outbox[id].event && (outbox[id].sent ==> outbox'[id].sent)
  }

  lemma FromRowsNext(log0: seq<Record>, log: seq<Record>, log': seq<Record>, outbox0: map<nat, Row>, outbox: map<nat, Row>)
    requires FromRows(log0, log, outbox0) && FromRows(log, log', outbox) && StillSent(outbox0, outbox)
    ensures FromRows(log0, log', outbox0)
  {
    forall i | |log0| <= i < |log'| ensures IsRow(log'[i], outbox0) {
      if i < |log| {
        assert log'[i] == log[i];
      } else {
        assert IsRow(log'[i], outbox);
        var id :| id in outbox && log'[i] == Record(Some(outbox[id].event));
        assert log'[i] == Record(Some(outbox0[id].event));
      }
    }
  }

  lemma MarkedStill(outbox0: map<nat, Row>, outbox: map<nat, Row>, ids: seq<nat>)
    requires StillSent(outbox0, outbox)
    ensures StillSent(outbox0, MarkSent(outbox, ids))
  {
  }

  lemma MarkNothing(outbox: map<nat, Row>)
    ensures MarkSent(outbox, []) == outbox
  {
  }

  /** A round that marks its batch leaves the rest pending, and fewer rows unless the batch was empty. */
  lemma RoundMarks(outbox0: map<nat, Row>, outbox: map<nat, Row>, outbox': map<nat, Row>, locked: set<nat>, ids: seq<nat>)
    requires StillSent(outbox0, outbox) && (outbox' == outbox || outbox' == MarkSent(outbox, ids))
    requires forall id :: id in ids ==> id in Pending(outbox, locked)
    ensures StillSent(outbox0, outbox')
    ensures outbox' == MarkSent(outbox, ids) ==> Pending(outbox', locked) == Pending(outbox, locked) - set id | id in ids
    ensures outbox' == MarkSent(outbox, ids) && ids != [] ==> |Pending(outbox', locked)| < |Pending(outbox, locked)|
    ensures |Pending(outbox', locked)| <= |Pending(outbox, locked)|
  {
    if outbox' == MarkSent(outbox, ids) {
      MarkedStill(outbox0, outbox, ids);
      SentLeaves(outbox, locked, ids);
      if ids == [] {
        MarkNothing(outbox);
      }
    }
  }

  lemma SentLeaves(outbox: map<nat, Row>, locked: set<nat>, ids: seq<nat>)
    requires forall id :: id in ids ==> id in Pending(outbox, locked)
    ensures Pending(MarkSent(outbox, ids), locked) == Pending(outbox, locked) - set id | id in ids
    ensures ids != [] ==> |Pending(MarkSent(outbox, ids), locked)| < |Pending(outbox, locked)|
  {
    var left, all := Pending(MarkSent(outbox, ids), locked), Pending(outbox, locked);
    assert left == all - set id | id in ids;
    if ids != [] {
      assert ids[0] in all && ids[0] !in left;
      assert left <= all - {ids[0]};
      SubsetSize(left, all - {ids[0]});
    }
  }

  lemma {:induction false} SubsetSize(a: set<nat>, b: set<nat>)
    requires a <= b
    ensures |a| <= |b|
    decreases a
  {
    if a != {} {
      var x :| x in a;
      SubsetSize(a - {x}, b - {x});
    }
  }

  // ---------------------------------------------------------------- the consumer

  /** How one attempt at a record goes. */
  datatype Attempt = BeginFails | DedupFails | HandlerFails | Commits(ending: Ending)

  /** What became of a record whose offset was marked. */
  datatype Fate = Processed | DeadLettered | LostFromDlq

  /** The consumer group's database: its dedup rows and the effects of its handler, in order. */
  datatype Db = Db(processed: set<string>, effects: seq<string>)

  /** The dedup row and the effect commit together or not at all. */
  function Process(db: Db, event: string, a: Attempt): (Db, bool) {
    match a
    case BeginFails => (db, false)
    case DedupFails => (db, false)
    case HandlerFails => if event in db.processed then (db, true) else (db, false)
    case Commits(ending) =>
      var after := if event in db.processed then db else Db(db.processed + {event}, db.effects + [event]);
      (if ending.Committed? || (ending.Unclear? && ending.committed) then after else db, ending.Committed?)
  }

  /** Every effect has its dedup row and happened once; without a row it never happened. */
  ghost predicate Once(db: Db) {
    forall e :: multiset(db.effects)[e] == if e in db.processed then 1 else 0
  }

  lemma ProcessOnceKeeps(db: Db, event: string, a: Attempt)
    requires Once(db)
    ensures var (db', ok) := Process(db, event, a);
            Once(db') && db.processed <= db'.processed && db.effects <= db'.effects && (ok ==> event in db'.processed)
  {
  }

  /** What the outside world does while one record is worked on: how each attempt goes, whether the
      dead-letter produce is acknowledged, and from which checkpoint on the process is shutting down.
      Checkpoint 2k - 1 comes after attempt k, checkpoint 2k during the back-off that follows it. */
  datatype Weather = Weather(attempt: nat -> Attempt, dlqAcknowledged: bool, stopAt: Option<nat>) {
    predicate Stopped(checkpoint: nat) {
      stopAt.Some? && stopAt.value <= checkpoint
    }
  }

  ghost predicate FateHolds(f: Fate, r: Record, offset: nat, processed: set<string>, dlq: seq<nat>, unlettered: set<nat>) {
    match f
    case Processed => r.event.Some? && r.event.value in processed
    case DeadLettered => offset in dlq
    case LostFromDlq => offset in unlettered
  }

  /** Every offset below the mark has a fate that came true. */
  ghost predicate Accounted(fates: map<nat, Fate>, log: seq<Record>, marked: nat, processed: set<string>, dlq: seq<nat>,
                            unlettered: set<nat>) {
    marked <= |log| &&
    forall o :: 0 <= o < marked ==> o in fates && FateHolds(fates[o], log[o], o, processed, dlq, unlettered)
  }

  lemma AccountedLater(fates: map<nat, Fate>, log: seq<Record>, marked: nat, processed: set<string>, dlq: seq<nat>,
                       unlettered: set<nat>, processed': set<string>, dlq': seq<nat>, unlettered': set<nat>)
    requires Accounted(fates, log, marked, processed, dlq, unlettered)
    requires processed <= processed' && dlq <= dlq' && unlettered <= unlettered'
    ensures Accounted(fates, log, marked, processed', dlq', unlettered')
  {
    forall o | 0 <= o < marked ensures o in fates && FateHolds(fates[o], log[o], o, processed', dlq', unlettered') {
      assert FateHolds(fates[o], log[o], o, processed, dlq, unlettered);
    }
  }

  lemma AccountedNext(fates: map<nat, Fate>, log: seq<Record>, marked: nat, processed: set<string>, dlq: seq<nat>,
                      unlettered: set<nat>, o: nat, f: Fate)
    requires Accounted(fates, log, marked, processed, dlq, unlettered) && o <= marked && o < |log|
    requires FateHolds(f, log[o], o, processed, dlq, unlettered)
    ensures Accounted(fates[o := f], log, if marked < o + 1 then o + 1 else marked, processed, dlq, unlettered)
  {
  }

  /** What has been processed since is on the topic. */
  ghost predicate OnTopic(processed: set<string>, before: set<string>, log: seq<Record>) {
    forall e :: e in processed && e !in before ==> Record(Some(e)) in log
  }

  /** The attempt can have succeeded: it committed, or its event was found processed before the handler. */
  predicate Lands(a: Attempt, processed: bool) {
    a == Commits(Committed) || (a.HandlerFails? && processed)
  }

  class Consumer {
    var db: Db
    var dlq: seq<nat>

    /** Offsets below this one are marked for commit. */
    var marked: nat
    const broker: Broker
    const maxAttempts: nat

    ghost var fates: map<nat, Fate>

    /** Offsets whose dead-letter produce failed. */
    ghost var unlettered: set<nat>

    /** Every marked record was processed under its dedup row, dead-lettered, or lost to a failed
        dead-letter produce. */
    ghost predicate Valid()
      reads this, broker
    {
      && Once(db)
      && marked <= |broker.log|
      && Accounted(fates, broker.log, marked, db.processed, dlq, unlettered)
    }

    ghost predicate FateOk(f: Fate, r: Record, offset: nat)
      reads this
    {
      FateHolds(f, r, offset, db.processed, dlq, unlettered)
    }

    constructor (broker: Broker, maxAttempts: nat)
      ensures Valid() && this.broker == broker && db == Db({}, []) && dlq == [] && marked == 0
      ensures this.maxAttempts == if maxAttempts == 0 then 5 else maxAttempts
    {
      this.broker := broker;
      this.maxAttempts := if maxAttempts == 0 then 5 else maxAttempts;
      db, dlq, marked, fates, unlettered := Db({}, []), [], 0, map[], {};
    }

    method ProcessOnce(event: string, a: Attempt) returns (ok: bool)
      requires Once(db)
      modifies `db
      ensures (db, ok) == Process(old(db), event, a)
      ensures Once(db) && old(db).processed <= db.processed && (ok ==> event in db.processed)
      ensures db.processed <= old(db).processed + {event} && old(db).effects <= db.effects
    {
      ProcessOnceKeeps(db, event, a);
      if a.BeginFails? || a.DedupFails? {
        return false;
      }
      var scratch := db;
      if event in scratch.processed {
        if a.HandlerFails? {
          return true;
        }
      } else {
        if a.HandlerFails? {
          return false;
        }
        scratch := Db(scratch.processed + {event}, scratch.effects + [event]);
      }
      if a.ending.Committed? || (a.ending.Unclear? && a.ending.committed) {
        db := scratch;
      }
      return a.ending.Committed?;
    }

    method ToDlq(offset: nat, w: Weather) returns (fate: Fate)
      modifies `dlq, `unlettered
      ensures old(dlq) <= dlq && old(unlettered) <= unlettered
      ensures if w.dlqAcknowledged then fate == DeadLettered && dlq == old(dlq) + [offset] else fate == LostFromDlq && offset in unlettered
    {
      if !w.dlqAcknowledged {
        unlettered := unlettered + {offset};
        return LostFromDlq;
      }
      dlq := dlq + [offset];
      return DeadLettered;
    }

    /** Drives one record to success, a duplicate, or the dead-letter topic; false means a shutdown
        got in between. */
    method ProcessWithRetry(offset: nat, r: Record, w: Weather) returns (done: bool, fate: Fate)
      requires Once(db)
      modifies `db, `dlq, `unlettered
      ensures Once(db) && old(db).processed <= db.processed && old(dlq) <= dlq && old(unlettered) <= unlettered
      ensures old(db).effects <= db.effects
      ensures db.processed <= old(db).processed + if r.event.Some? then {r.event.value} else {}
      ensures done ==> FateOk(fate, r, offset)
      ensures done && fate == LostFromDlq ==> !w.dlqAcknowledged
      ensures w.stopAt.None? ==> done
      ensures done && r.event.Some? && r.event.value != "" ==>
                (exists k :: 1 <= k <= maxAttempts && Lands(w.attempt(k), r.event.value in old(db).processed)) ==>
                  fate == Processed
      ensures done && fate == Processed ==>
                r.event.Some? && exists k :: 1 <= k <= maxAttempts && Lands(w.attempt(k), r.event.value in db.processed)
      ensures r.event.None? || r.event.value == "" ==> db == old(db)
    {
      if r.event.None? || r.event.value == "" {
        fate := ToDlq(offset, w);
        return !w.Stopped(0), fate;
      }
      var attempt := 1;
      while attempt <= maxAttempts
        invariant 1 <= attempt && Once(db) && old(db).processed <= db.processed && old(db).effects <= db.effects
        invariant db.processed <= old(db).processed + {r.event.value}
        invariant dlq == old(dlq) && unlettered == old(unlettered)
        invariant forall k :: 1 <= k < attempt ==> !Lands(w.attempt(k), r.event.value in old(db).processed)
        decreases maxAttempts + 1 - attempt
      {
        if 1 < attempt && w.Stopped(2 * (attempt - 1)) {
          return false, LostFromDlq;
        }
        var ok := ProcessOnce(r.event.value, w.attempt(attempt));
        if ok {
          return true, Processed;
        }
        if w.Stopped(2 * attempt - 1) {
          return false, LostFromDlq;
        }
        attempt := attempt + 1;
      }
      fate := ToDlq(offset, w);
      return !w.Stopped(2 * maxAttempts), fate;
    }

    /** One fetched stretch of the partition, from a committed offset on: marks follow processing, and
        a shutdown leaves the record unmarked. Starting anywhere at or before the mark is a
        redelivery. */
    method ProcessPartition(from: nat, to: nat, weather: nat -> Weather) returns (stopped: bool)
      requires Valid() && from <= marked && from <= to <= |broker.log|
      modifies `db, `dlq, `marked, `fates, `unlettered
      ensures Valid() && old(marked) <= marked && old(db).processed <= db.processed && old(dlq) <= dlq
      ensures old(db).effects <= db.effects
      ensures OnTopic(db.processed, old(db).processed, broker.log)
      ensures !stopped ==> to <= marked
      ensures (forall o :: weather(o).stopAt.None?) ==> !stopped
    {
      for o := from to to
        invariant Valid() && old(marked) <= marked && o <= marked
        invariant old(db).processed <= db.processed && old(dlq) <= dlq && old(db).effects <= db.effects
        invariant OnTopic(db.processed, old(db).processed, broker.log)
      {
        ghost var processed, letters, lost := db.processed, dlq, unlettered;
        var done, fate := ProcessWithRetry(o, broker.log[o], weather(o));
        assert broker.log[o].event.Some? ==> broker.log[o] == Record(Some(broker.log[o].event.value));
        AccountedLater(fates, broker.log, marked, processed, letters, lost, db.processed, dlq, unlettered);
        if !done {
          return true;
        }
        AccountedNext(fates, broker.log, marked, db.processed, dlq, unlettered, o, fate);
        if marked < o + 1 {
          marked := o + 1;
        }
        fates := fates[o := fate];
      }
      return false;
    }
  }

  // ---------------------------------------------------------------- end to end

  /** Whatever was redelivered, retried or left unclear: no event takes effect twice, and a sent row
      whose record was marked and processed has taken effect exactly once. */
  lemma EffectExactlyOnce(relay: Relay, consumer: Consumer, id: nat)
    requires relay.Valid() && consumer.Valid() && relay.broker == consumer.broker
    requires id in relay.outbox && relay.outbox[id].sent
    ensures var e := relay.outbox[id].event;
            && multiset(consumer.db.effects)[e] <= 1
            && exists o :: 0 <= o < |consumer.broker.log| && consumer.broker.log[o] == Record(Some(e))
                           && (o < consumer.marked && consumer.fates[o] == Processed ==> multiset(consumer.db.effects)[e] == 1)
  {
    var e := relay.outbox[id].event;
    assert Record(Some(e)) in relay.broker.log;
    var o :| 0 <= o < |consumer.broker.log| && consumer.broker.log[o] == Record(Some(e));
    assert o < consumer.marked ==> consumer.FateOk(consumer.fates[o], consumer.broker.log[o], o);
  }

  /** The relay only appends to the topic, so the consumer's facts stay true while it works. */
  method Deliver(relay: Relay, consumer: Consumer, locked: set<nat>, limit: nat, landed: nat -> bool,
                 acknowledged: nat -> bool, ending: nat -> Ending, weather: nat -> Weather)
    returns (failed: bool)
    requires relay.Valid() && consumer.Valid() && relay.broker == consumer.broker && 0 < limit
    modifies relay, relay.broker, consumer
    ensures relay.Valid() && consumer.Valid() && relay.outbox.Keys == old(relay.outbox).Keys
    ensures !failed ==> forall id :: id in relay.outbox && id !in locked ==> Settled(relay.outbox[id].event, consumer)
    ensures (forall k :: acknowledged(k) && ending(k) == Committed) && (forall o :: weather(o).stopAt.None?) ==> !failed
  {
    failed := relay.Drain(locked, limit, landed, acknowledged, ending);
    assert consumer.Valid();
    if failed {
      return;
    }
    failed := consumer.ProcessPartition(consumer.marked, |consumer.broker.log|, weather);
    if !failed {
      forall id | id in relay.outbox && id !in locked ensures Settled(relay.outbox[id].event, consumer) {
        var e := relay.outbox[id].event;
        assert Record(Some(e)) in relay.broker.log;
        var o :| 0 <= o < |relay.broker.log| && relay.broker.log[o] == Record(Some(e));
        assert consumer.FateOk(consumer.fates[o], consumer.broker.log[o], o);
      }
    }
  }

  /** The event reached the consumer, and took effect once if it was processed. */
  ghost predicate Settled(e: string, consumer: Consumer)
    reads consumer, consumer.broker
  {
    exists o :: 0 <= o < |consumer.broker.log| && consumer.broker.log[o] == Record(Some(e)) && o in consumer.fates
                && (consumer.fates[o] == Processed ==> multiset(consumer.db.effects)[e] == 1)
  }

  // ---------------------------------------------------------------- any interleaving

  /** One thing that can happen next: a service commits an event, a relay makes a round past the rows
      others have locked, or the consumer takes a stretch of the partition from some committed offset. */
  datatype Happening =
    | Emit(id: nat, event: string)
    | Round(locked: set<nat>, limit: nat, landed: nat -> bool, acknowledged: bool, ending: Ending)
    | Stretch(from: nat, to: nat, weather: nat -> Weather)

  /** Whatever happens in whatever order, restarts and redeliveries included: nothing is marked sent
      before it was acknowledged, no event takes effect twice, and every marked record is accounted for. */
  method AnyRun(relay: Relay, consumer: Consumer, happenings: seq<Happening>)
    requires relay.Valid() && consumer.Valid() && relay.broker == consumer.broker
    modifies relay, relay.broker, consumer
    ensures relay.Valid() && consumer.Valid()
    ensures old(consumer.broker.log) <= consumer.broker.log
    ensures old(consumer.db).effects <= consumer.db.effects && old(consumer.marked) <= consumer.marked
    ensures forall k :: 0 <= k < |happenings| && happenings[k].Emit? ==> happenings[k].id in relay.outbox
    ensures forall e :: multiset(consumer.db.effects)[e] <= 1
    ensures forall id :: id in relay.outbox && relay.outbox[id].sent ==> Record(Some(relay.outbox[id].event)) in relay.broker.log
  {
    for i := 0 to |happenings|
      invariant relay.Valid() && consumer.Valid() && old(consumer.broker.log) <= consumer.broker.log
      invariant old(consumer.db).effects <= consumer.db.effects && old(consumer.marked) <= consumer.marked
      invariant forall k :: 0 <= k < i && happenings[k].Emit? ==> happenings[k].id in relay.outbox
    {
      match happenings[i] {
        case Emit(id, event) =>
          if id !in relay.outbox {
            relay.Insert(id, event);
          }
        case Round(locked, limit, landed, acknowledged, ending) =>
          var n, failed := relay.RelayOnce(locked, limit, landed, acknowledged, ending);
          assert consumer.Valid();
        case Stretch(from, to, weather) =>
          if from <= consumer.marked && from <= to <= |consumer.broker.log| {
            var stopped := consumer.ProcessPartition(from, to, weather);
          }
      }
    }
  }
}

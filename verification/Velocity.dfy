/** The fraud scorer's tumbling five-minute window and daily sum, against true sliding windows. */
module Velocity {
  import opened Int64

  const WINDOW: int := 300_000_000
  const DAY: int := 86_400_000_000

  /** A completed outgoing transfer: when it occurred, in microseconds, and how much it moved. */
  datatype Spend = Spend(at: int, amount: int64)

  /** The stored row of one customer and currency; absent before the first transfer. */
  datatype Stats = Stats(start: int, count: nat, day: int, sum: int64)

  function DayOf(at: int): int {
    at / DAY
  }

  /** Outside the current window the counter restarts at 1, otherwise it increments. */
  function AdvanceWindow(start: Option<int>, count: nat, at: int): (int, nat) {
    if start.None? || at - start.value >= WINDOW then (at, 1) else (start.value, count + 1)
  }

  /** The day's sum, in 64-bit arithmetic, restarts when the date changes. */
  function AdvanceDay(day: Option<int>, sum: int64, at: int, amount: int64): (int, int64) {
    if day.None? || DayOf(at) != day.value then (DayOf(at), amount) else (day.value, Wrap(sum + amount))
  }

  function Advance(stats: Option<Stats>, x: Spend): Stats {
    var (start, count) := if stats.None? then AdvanceWindow(None, 0, x.at)
                          else AdvanceWindow(Some(stats.value.start), stats.value.count, x.at);
    var (day, sum) := if stats.None? then AdvanceDay(None, 0, x.at, x.amount)
                      else AdvanceDay(Some(stats.value.day), stats.value.sum, x.at, x.amount);
    Stats(start, count, day, sum)
  }

  /** The row after the first n transfers. */
  function StatsAfter(xs: seq<Spend>, n: nat): Option<Stats>
    requires n <= |xs|
  {
    if n == 0 then None else Some(Advance(StatsAfter(xs, n - 1), xs[n - 1]))
  }

  predicate Nondecreasing(xs: seq<Spend>) {
    forall i, j :: 0 <= i <= j < |xs| ==> xs[i].at <= xs[j].at
  }

  // ---------------------------------------------------------------- the window

  /** Index of the transfer that opened the window the n-th transfer fell into. */
  function Opener(xs: seq<Spend>, n: nat): nat
    requires 0 < n <= |xs|
  {
    if n == 1 then 0
    else
      var p := Opener(xs, n - 1);
      if p < |xs| && xs[n - 1].at - xs[p].at < WINDOW then p else n - 1
  }

  lemma {:induction false} WindowExact(xs: seq<Spend>, n: nat)
    requires 0 < n <= |xs|
    ensures StatsAfter(xs, n).Some? && Opener(xs, n) < n
    ensures StatsAfter(xs, n).value.start == xs[Opener(xs, n)].at
    ensures StatsAfter(xs, n).value.count == n - Opener(xs, n)
    ensures xs[n - 1].at - xs[Opener(xs, n)].at < WINDOW
  {
    if n > 1 {
      WindowExact(xs, n - 1);
    }
  }

  /** The velocity rule on the n-th transfer. */
  predicate Fires(xs: seq<Spend>, n: nat, max: int)
    requires 0 < n <= |xs|
  {
    StatsAfter(xs, n).Some? && max > 0 && StatsAfter(xs, n).value.count > max
  }

  /** No false alarm: when the rule fires, more than max transfers really lie within one five-minute
      span that ends with the current one. */
  lemma FiresOnlyOnBursts(xs: seq<Spend>, n: nat, max: int)
    requires Nondecreasing(xs) && 0 < n <= |xs| && Fires(xs, n, max)
    ensures exists i :: 0 <= i && i + max < n && xs[n - 1].at - xs[i].at < 300_000_000
                        && forall k :: i <= k < n ==> xs[i].at <= xs[k].at <= xs[n - 1].at
  {
    WindowExact(xs, n);
    var i := Opener(xs, n);
    assert i + max < n && xs[n - 1].at - xs[i].at < WINDOW;
  }

  /** Between two transfers less than a window apart at most one new window is opened. */
  lemma {:induction false} SameOpener(xs: seq<Spend>, i: nat, j: nat)
    requires Nondecreasing(xs) && i < j < |xs|
    requires xs[j].at - xs[Opener(xs, i + 1)].at < WINDOW
    ensures Opener(xs, j + 1) == Opener(xs, i + 1)
    decreases j
  {
    WindowExact(xs, i + 1);
    if i < j - 1 {
      SameOpener(xs, i, j - 1);
    }
  }

  /** Where the window of i ends: the first later transfer a full window after its opener. */
  lemma {:induction false} NextOpener(xs: seq<Spend>, i: nat, j: nat) returns (k: nat)
    requires Nondecreasing(xs) && i < j < |xs|
    requires xs[j].at - xs[Opener(xs, i + 1)].at >= WINDOW
    ensures i < k <= j && Opener(xs, k) == Opener(xs, i + 1) && Opener(xs, k + 1) == k
    ensures xs[k].at - xs[Opener(xs, i + 1)].at >= WINDOW
    decreases j - i
  {
    WindowExact(xs, i + 1);
    if xs[i + 1].at - xs[Opener(xs, i + 1)].at >= WINDOW {
      k := i + 1;
    } else {
      SameOpener(xs, i, i + 1);
      k := NextOpener(xs, i + 1, j);
    }
  }

  lemma FiresAt(xs: seq<Spend>, n: nat, max: nat)
    requires 0 < n <= |xs| && 0 < max && n - Opener(xs, n) > max
    ensures Fires(xs, n, max)
  {
    WindowExact(xs, n);
  }

  /** Five minutes of transfers fall into one window, or into two that meet at k. */
  lemma AtMostTwoWindows(xs: seq<Spend>, i: nat, j: nat) returns (k: nat)
    requires Nondecreasing(xs) && i <= j < |xs| && xs[j].at - xs[i].at <= WINDOW
    ensures i < k <= j + 1 && Opener(xs, k) <= i
    ensures k <= j ==> Opener(xs, j + 1) == k && xs[k].at - xs[Opener(xs, k)].at >= WINDOW
  {
    WindowExact(xs, i + 1);
    if i == j {
      k := j + 1;
    } else if xs[j].at - xs[Opener(xs, i + 1)].at < WINDOW {
      SameOpener(xs, i, j);
      k := j + 1;
    } else {
      k := NextOpener(xs, i, j);
      TwoWindows(xs, i, k, j);
    }
  }

  /** No missed burst: more than twice max transfers within five minutes make the rule fire on one of
      them. */
  lemma BurstsFire(xs: seq<Spend>, i: nat, j: nat, max: nat)
    requires Nondecreasing(xs) && i <= j < |xs| && 0 < max
    requires xs[j].at - xs[i].at <= 300_000_000 && j - i + 1 > 2 * max
    ensures exists n :: i < n <= j + 1 && Fires(xs, n, max)
  {
    var k := AtMostTwoWindows(xs, i, j);
    var n := if k - Opener(xs, k) > max then k else j + 1;
    FiresAt(xs, n, max);
  }

  /** The window opened at k reaches to the end of the span. */
  lemma TwoWindows(xs: seq<Spend>, i: nat, k: nat, j: nat)
    requires Nondecreasing(xs) && i < k <= j < |xs| && xs[j].at - xs[i].at <= WINDOW
    requires Opener(xs, k + 1) == k && Opener(xs, k) == Opener(xs, i + 1)
    requires xs[k].at - xs[Opener(xs, i + 1)].at >= WINDOW
    ensures Opener(xs, j + 1) == k
  {
    WindowExact(xs, i + 1);
    WindowExact(xs, k);
    if k < j {
      assert xs[i].at <= xs[k - 1].at < xs[k].at;
      SameOpener(xs, k, j);
    }
  }

  /** In a half-open span one transfer fewer suffices. */
  lemma HalfOpenBurstsFire(xs: seq<Spend>, i: nat, j: nat, max: nat)
    requires Nondecreasing(xs) && i <= j < |xs| && 0 < max
    requires xs[j].at - xs[i].at < 300_000_000 && j - i + 1 >= 2 * max
    ensures exists n :: i < n <= j + 1 && Fires(xs, n, max)
  {
    var k := AtMostTwoWindows(xs, i, j);
    var n := if k - Opener(xs, k) > max then k else j + 1;
    FiresAt(xs, n, max);
  }

  // ---------------------------------------------------------------- the day

  /** What the customer really moved on a day, over the first n transfers. */
  function DaySum(xs: seq<Spend>, n: nat, day: int): int
    requires n <= |xs|
  {
    if n == 0 then 0 else DaySum(xs, n - 1, day) + if xs[n - 1].at / 86_400_000_000 == day then xs[n - 1].amount else 0
  }

  lemma WrapAdd(x: int, a: int)
    ensures Wrap(Wrap(x) + a) == Wrap(x + a)
  {
  }

  lemma {:induction false} NothingYet(xs: seq<Spend>, n: nat, day: int)
    requires n <= |xs| && forall k :: 0 <= k < n ==> DayOf(xs[k].at) != day
    ensures DaySum(xs, n, day) == 0
  {
    if n > 0 {
      NothingYet(xs, n - 1, day);
    }
  }

  lemma DayMonotone(a: int, b: int)
    requires a <= b
    ensures DayOf(a) <= DayOf(b)
  {
  }

  /** The stored sum is the day's true sum, reduced to 64 bits, so it is the true sum whenever that
      fits. */
  lemma {:induction false} DaySumExact(xs: seq<Spend>, n: nat)
    requires Nondecreasing(xs) && 0 < n <= |xs|
    ensures StatsAfter(xs, n).Some?
    ensures var today := xs[n - 1].at / 86_400_000_000;
            StatsAfter(xs, n).value.day == today && StatsAfter(xs, n).value.sum == Wrap(DaySum(xs, n, today))
  {
    var day := DayOf(xs[n - 1].at);
    if n > 1 {
      DaySumExact(xs, n - 1);
      if DayOf(xs[n - 2].at) == day {
        WrapAdd(DaySum(xs, n - 1, day), xs[n - 1].amount);
      } else {
        forall k | 0 <= k < n - 1 ensures DayOf(xs[k].at) != day {
          DayMonotone(xs[k].at, xs[n - 2].at);
          DayMonotone(xs[n - 2].at, xs[n - 1].at);
        }
        NothingYet(xs, n - 1, day);
      }
    }
  }

  // ---------------------------------------------------------------- rules

  datatype Rule =
    | AmountOver(id: string, severity: string, thresholds: map<string, int64>)
    | VelocityOver(id: string, severity: string, maxIn5m: int)
    | DailyOutSum(id: string, severity: string, thresholds: map<string, int64>)
    | NewBeneficiary(id: string, severity: string, thresholds: map<string, int64>)
    | Other(id: string, severity: string)

  datatype Observation = Observation(amount: int64, currency: string, count5m: nat, dayOutSum: int64, newBeneficiary: bool)

  datatype Alert = Alert(rule: string, severity: string)

  predicate Over(thresholds: map<string, int64>, currency: string, value: int64) {
    currency in thresholds && value > thresholds[currency]
  }

  predicate Raises(r: Rule, o: Observation) {
    match r
    case AmountOver(_, _, limits) => Over(limits, o.currency, o.amount)
    case VelocityOver(_, _, max) => max > 0 && o.count5m > max
    case DailyOutSum(_, _, limits) => Over(limits, o.currency, o.dayOutSum)
    case NewBeneficiary(_, _, limits) => o.newBeneficiary && Over(limits, o.currency, o.amount)
    case Other(_, _) => false
  }

  /** The alerts are those of the rules that are raised, in rule order. */
  function Alerts(rules: seq<Rule>, o: Observation): seq<Alert> {
    if rules == [] then []
    else
      var last := rules[|rules| - 1];
      Alerts(rules[..|rules| - 1], o) + if Raises(last, o) then [Alert(last.id, last.severity)] else []
  }

  method Evaluate(rules: seq<Rule>, o: Observation) returns (alerts: seq<Alert>)
    ensures alerts == Alerts(rules, o)
  {
    alerts := [];
    for i := 0 to |rules|
      invariant alerts == Alerts(rules[..i], o)
    {
      assert rules[..i + 1][..i] == rules[..i];
      var r := rules[i];
      match r {
        case AmountOver(id, severity, limits) =>
          if o.currency in limits && o.amount > limits[o.currency] {
            alerts := alerts + [Alert(id, severity)];
          }
        case VelocityOver(id, severity, max) =>
          if max > 0 && o.count5m > max {
            alerts := alerts + [Alert(id, severity)];
          }
        case DailyOutSum(id, severity, limits) =>
          if o.currency in limits && o.dayOutSum > limits[o.currency] {
            alerts := alerts + [Alert(id, severity)];
          }
        case NewBeneficiary(id, severity, limits) =>
          if o.currency in limits && o.newBeneficiary && o.amount > limits[o.currency] {
            alerts := alerts + [Alert(id, severity)];
          }
        case Other(_, _) =>
      }
    }
    assert rules[..|rules|] == rules;
  }

  function AlertOf(r: Rule): Alert {
    Alert(r.id, r.severity)
  }

  /** The raised rules, by position. */
  ghost predicate RaisedAt(rules: seq<Rule>, o: Observation, at: seq<nat>) {
    && (forall k, l :: 0 <= k < l < |at| ==> at[k] < at[l])
    && (forall i: nat :: i in at <==> i < |rules| && Raises(rules[i], o))
  }

  /** The alerts stand for the rules at these positions. */
  ghost predicate StandFor(alerts: seq<Alert>, rules: seq<Rule>, at: seq<nat>) {
    |at| == |alerts| && forall k :: 0 <= k < |at| ==> at[k] < |rules| && alerts[k] == AlertOf(rules[at[k]])
  }

  lemma {:induction false} RaisedAtNext(rules: seq<Rule>, o: Observation, at: seq<nat>)
    requires rules != [] && RaisedAt(rules[..|rules| - 1], o, at)
    ensures RaisedAt(rules, o, at + if Raises(rules[|rules| - 1], o) then [|rules| - 1] else [])
  {
    var n := |rules| - 1;
    assert forall k :: 0 <= k < |at| ==> at[k] in at;
    assert forall i: nat :: i in at + [n] <==> i in at || i == n;
  }

  lemma {:induction false} StandForNext(alerts: seq<Alert>, rules: seq<Rule>, at: seq<nat>, raised: bool)
    requires rules != [] && StandFor(alerts, rules[..|rules| - 1], at)
    ensures StandFor(alerts + if raised then [AlertOf(rules[|rules| - 1])] else [], rules,
                     at + if raised then [|rules| - 1] else [])
  {
  }

  function AlertsBefore(rules: seq<Rule>, o: Observation): seq<Alert>
    requires rules != []
  {
    Alerts(rules[..|rules| - 1], o)
  }

  lemma AlertsNext(rules: seq<Rule>, o: Observation, at: seq<nat>)
    requires rules != [] && RaisedAt(rules[..|rules| - 1], o, at)
    requires StandFor(AlertsBefore(rules, o), rules[..|rules| - 1], at)
    ensures exists next :: RaisedAt(rules, o, next) && StandFor(Alerts(rules, o), rules, next)
  {
    var n := |rules| - 1;
    var raised := Raises(rules[n], o);
    RaisedAtNext(rules, o, at);
    StandForNext(AlertsBefore(rules, o), rules, at, raised);
    assert Alerts(rules, o) == AlertsBefore(rules, o) + if raised then [AlertOf(rules[n])] else [];
  }

  /** There is one alert for every raised rule, in rule order, and none besides: an alert stands for a
      rule exactly if that rule is raised. */
  lemma {:induction false} AlertsExact(rules: seq<Rule>, o: Observation)
    ensures exists at :: RaisedAt(rules, o, at) && StandFor(Alerts(rules, o), rules, at)
  {
    if rules == [] {
      assert RaisedAt(rules, o, []) && StandFor([], rules, []);
    } else {
      var prefix := rules[..|rules| - 1];
      AlertsExact(prefix, o);
      var at: seq<nat> :| RaisedAt(prefix, o, at) && StandFor(Alerts(prefix, o), prefix, at);
      AlertsNext(rules, o, at);
    }
  }

  // ---------------------------------------------------------------- the scorer

  /** A completed outgoing transfer as the scorer sees it. */
  datatype Event = Event(customer: string, currency: string, spend: Spend, to: string)

  type StatsTable = map<(string, string), Stats>

  function Row(t: StatsTable, k: (string, string)): Option<Stats> {
    if k in t then Some(t[k]) else None
  }

  /** The spends of one customer and currency among the first n events. */
  function Spends(es: seq<Event>, n: nat, k: (string, string)): seq<Spend>
    requires n <= |es|
  {
    if n == 0 then []
    else Spends(es, n - 1, k) + if (es[n - 1].customer, es[n - 1].currency) == k then [es[n - 1].spend] else []
  }

  /** The stored rows are what the customers' own histories give. */
  ghost predicate Tracks(t: StatsTable, es: seq<Event>) {
    forall k :: Row(t, k) == StatsAfter(Spends(es, |es|, k), |Spends(es, |es|, k)|)
  }

  lemma StatsSnoc(xs: seq<Spend>, x: Spend)
    ensures StatsAfter(xs + [x], |xs| + 1) == Some(Advance(StatsAfter(xs, |xs|), x))
  {
    StatsPrefix(xs, xs + [x], |xs|);
  }

  lemma {:induction false} StatsPrefix(xs: seq<Spend>, ys: seq<Spend>, n: nat)
    requires n <= |xs| && xs <= ys
    ensures StatsAfter(xs, n) == StatsAfter(ys, n)
  {
    if n > 0 {
      StatsPrefix(xs, ys, n - 1);
    }
  }

  lemma {:induction false} SpendsPrefix(es: seq<Event>, fs: seq<Event>, n: nat, k: (string, string))
    requires n <= |es| && es <= fs
    ensures Spends(es, n, k) == Spends(fs, n, k)
  {
    if n > 0 {
      SpendsPrefix(es, fs, n - 1, k);
    }
  }

  lemma TracksNext(t: StatsTable, t': StatsTable, es: seq<Event>, e: Event)
    requires Tracks(t, es)
    requires t' == t[(e.customer, e.currency) := Advance(Row(t, (e.customer, e.currency)), e.spend)]
    ensures Tracks(t', es + [e])
  {
    var fs := es + [e];
    forall k ensures Row(t', k) == StatsAfter(Spends(fs, |fs|, k), |Spends(fs, |fs|, k)|) {
      SpendsPrefix(es, fs, |es|, k);
      var xs := Spends(es, |es|, k);
      assert Row(t, k) == StatsAfter(xs, |xs|);
      if k == (e.customer, e.currency) {
        StatsSnoc(xs, e.spend);
      } else {
        assert Spends(fs, |fs|, k) == xs;
      }
    }
  }

  // ---------------------------------------------------------------- overlapping scorers

  /** What the row holds for the day already. */
  function DayBefore(row: Option<Stats>, day: int): int64 {
    if row.Some? && row.value.day == day then row.value.sum else 0
  }

  /** Handling x between the read and the write of another scorer leaves the in-turn row exactly if x
      starts afresh: a full window after the other window's start and the old one's, and on a day
      neither of the other transfer (unless it moved nothing) nor of a nonzero stored sum. */
  predicate StartsAfresh(row: Option<Stats>, y: Spend, x: Spend) {
    && x.at - Advance(row, y).start >= WINDOW
    && (row.Some? ==> x.at - row.value.start >= WINDOW)
    && (if DayOf(y.at) == DayOf(x.at) then y.amount == 0
        else DayBefore(row, DayOf(x.at)) == 0)
  }

  lemma WrapMoves(p: int, y: int64)
    ensures Wrap(p + y) == Wrap(p) <==> y == 0
  {
  }

  lemma WrapShift(b: int64, y: int64, a: int64)
    ensures Wrap(Wrap(b + y) + a) == Wrap(b + a) <==> y == 0
  {
    WrapAdd(b + y, a);
    WrapMoves(b + a, y);
    assert b + y + a == b + a + y;
  }

  lemma WindowOverlap(row: Option<Stats>, y: Spend, x: Spend)
    requires row.Some? ==> 0 < row.value.count
    ensures var inTurn, stale := Advance(Some(Advance(row, y)), x), Advance(row, x);
            (stale.start == inTurn.start && stale.count == inTurn.count)
            <==> x.at - Advance(row, y).start >= WINDOW && (row.Some? ==> x.at - row.value.start >= WINDOW)
  {
  }

  lemma DayAfter(row: Option<Stats>, x: Spend)
    ensures Advance(row, x).day == DayOf(x.at)
    ensures Advance(row, x).sum == Wrap(DayBefore(row, DayOf(x.at)) + x.amount)
  {
  }

  lemma DayOverlap(row: Option<Stats>, y: Spend, x: Spend)
    ensures var inTurn, stale := Advance(Some(Advance(row, y)), x), Advance(row, x);
            (stale.day == inTurn.day && stale.sum == inTurn.sum)
            <==> if DayOf(y.at) == DayOf(x.at) then y.amount == 0 else DayBefore(row, DayOf(x.at)) == 0
  {
    DayAfter(row, x);
    DayAfter(Some(Advance(row, y)), x);
    SumOverlap(row, y, x);
  }

  lemma SumOverlap(row: Option<Stats>, y: Spend, x: Spend)
    ensures var day := DayOf(x.at);
            Wrap(DayBefore(row, day) + x.amount) == Wrap(DayBefore(Some(Advance(row, y)), day) + x.amount)
            <==> if DayOf(y.at) == day then y.amount == 0 else DayBefore(row, day) == 0
  {
    var before := DayBefore(row, DayOf(x.at));
    DayAfter(row, y);
    if DayOf(y.at) == DayOf(x.at) {
      WrapShift(before, y.amount, x.amount);
    } else {
      WrapMoves(x.amount, before);
    }
  }

  /** Two handlings of one customer overlap, so the second overwrites the first from a stale read: the
      row is as if they had run in turn if and only if the second starts afresh. */
  lemma OverlapExact(row: Option<Stats>, y: Spend, x: Spend)
    requires row.Some? ==> 0 < row.value.count
    ensures Advance(row, x) == Advance(Some(Advance(row, y)), x) <==> StartsAfresh(row, y, x)
  {
    WindowOverlap(row, y, x);
    DayOverlap(row, y, x);
  }

  // ---------------------------------------------------------------- what raises an alarm

  /** The transfer went to someone its customer had never sent to before. */
  ghost predicate FirstTo(es: seq<Event>) {
    && es != [] && es[|es| - 1].to != ""
    && forall i :: 0 <= i < |es| - 1 ==> es[i].customer != es[|es| - 1].customer || es[i].to != es[|es| - 1].to
  }

  /** The last transfer of the history is alarming by this rule: it is over the amount; the velocity rule
      fires on its customer's transfers in its currency; the day's total is over the limit; or it is over
      the amount and the first to its destination. */
  ghost predicate Alarming(r: Rule, es: seq<Event>)
    requires es != []
  {
    var e := es[|es| - 1];
    var xs := Spends(es, |es|, (e.customer, e.currency));
    match r
    case AmountOver(_, _, limits) => e.currency in limits && limits[e.currency] < e.spend.amount
    case VelocityOver(_, _, max) => 0 < |xs| && Fires(xs, |xs|, max)
    case DailyOutSum(_, _, limits) =>
      e.currency in limits && limits[e.currency] < Wrap(DaySum(xs, |xs|, e.spend.at / 86_400_000_000))
    case NewBeneficiary(_, _, limits) => e.currency in limits && limits[e.currency] < e.spend.amount && FirstTo(es)
    case Other(_, _) => false
  }

  /** The day's total is only told for a customer whose transfers came in order. */
  ghost predicate Told(r: Rule, es: seq<Event>)
    requires es != []
  {
    var e := es[|es| - 1];
    r.DailyOutSum? ==> Nondecreasing(Spends(es, |es|, (e.customer, e.currency)))
  }

  /** The alerts stand, in order, for the rules by which the last transfer is alarming. */
  ghost predicate AlertedAt(alerts: seq<Alert>, rules: seq<Rule>, es: seq<Event>, at: seq<nat>)
    requires es != []
  {
    && StandFor(alerts, rules, at)
    && (forall k, l :: 0 <= k < l < |at| ==> at[k] < at[l])
    && forall i: nat :: i < |rules| && Told(rules[i], es) ==> (i in at <==> Alarming(rules[i], es))
  }

  ghost predicate Alerted(alerts: seq<Alert>, rules: seq<Rule>, es: seq<Event>)
    requires es != []
  {
    exists at :: AlertedAt(alerts, rules, es, at)
  }

  /** The customer has sent to the account before. */
  ghost predicate SentTo(es: seq<Event>, p: (string, string)) {
    exists i :: 0 <= i < |es| && es[i].customer == p.0 && es[i].to == p.1
  }

  /** The recorded destinations are those of the history. */
  ghost predicate Remembers(beneficiaries: set<(string, string)>, es: seq<Event>) {
    forall p: (string, string) :: p in beneficiaries <==> p.1 != "" && SentTo(es, p)
  }

  lemma SentToNext(es: seq<Event>, e: Event, p: (string, string))
    ensures SentTo(es + [e], p) <==> SentTo(es, p) || p == (e.customer, e.to)
  {
    var fs := es + [e];
    if i :| 0 <= i < |es| && es[i].customer == p.0 && es[i].to == p.1 {
      assert fs[i] == es[i];
    }
    assert fs[|es|] == e;
  }

  lemma FirstToExact(es: seq<Event>, e: Event)
    ensures FirstTo(es + [e]) <==> e.to != "" && !SentTo(es, (e.customer, e.to))
  {
    var fs := es + [e];
    assert fs[|fs| - 1] == e && forall i :: 0 <= i < |es| ==> fs[i] == es[i];
    if i :| 0 <= i < |es| && es[i].customer == e.customer && es[i].to == e.to {
      assert fs[i].customer == fs[|fs| - 1].customer && fs[i].to == fs[|fs| - 1].to;
    }
  }

  lemma RemembersNext(beneficiaries: set<(string, string)>, es: seq<Event>, e: Event)
    requires Remembers(beneficiaries, es)
    ensures Remembers(beneficiaries + if e.to == "" then {} else {(e.customer, e.to)}, es + [e])
    ensures e.to != "" && (e.customer, e.to) !in beneficiaries <==> FirstTo(es + [e])
  {
    forall p: (string, string) ensures SentTo(es + [e], p) <==> SentTo(es, p) || p == (e.customer, e.to) {
      SentToNext(es, e, p);
    }
    FirstToExact(es, e);
  }

  lemma RaisesAlarm(r: Rule, es: seq<Event>, stats: StatsTable, o: Observation)
    requires es != [] && Tracks(stats, es) && Told(r, es)
    requires var e := es[|es| - 1];
             && (e.customer, e.currency) in stats
             && o == Observation(e.spend.amount, e.currency, stats[(e.customer, e.currency)].count,
                                 stats[(e.customer, e.currency)].sum, FirstTo(es))
    ensures Raises(r, o) <==> Alarming(r, es)
  {
    var e := es[|es| - 1];
    var k := (e.customer, e.currency);
    var xs := Spends(es, |es|, k);
    assert Row(stats, k) == StatsAfter(xs, |xs|);
    if r.DailyOutSum? {
      assert xs[|xs| - 1] == e.spend;
      DaySumExact(xs, |xs|);
    }
  }

  lemma AlertsAlarm(rules: seq<Rule>, es: seq<Event>, stats: StatsTable, o: Observation)
    requires es != [] && Tracks(stats, es)
    requires var e := es[|es| - 1];
             && (e.customer, e.currency) in stats
             && o == Observation(e.spend.amount, e.currency, stats[(e.customer, e.currency)].count,
                                 stats[(e.customer, e.currency)].sum, FirstTo(es))
    ensures Alerted(Alerts(rules, o), rules, es)
  {
    AlertsExact(rules, o);
    var at: seq<nat> :| RaisedAt(rules, o, at) && StandFor(Alerts(rules, o), rules, at);
    forall i: nat | i < |rules| && Told(rules[i], es) ensures i in at <==> Alarming(rules[i], es) {
      RaisesAlarm(rules[i], es, stats, o);
    }
    assert AlertedAt(Alerts(rules, o), rules, es, at);
  }

  class Scorer {
    var stats: StatsTable
    var beneficiaries: set<(string, string)>
    ghost var handled: seq<Event>

    ghost predicate Valid()
      reads this
    {
      Tracks(stats, handled) && Remembers(beneficiaries, handled)
    }

    constructor ()
      ensures Valid() && stats == map[] && beneficiaries == {} && handled == []
    {
      stats, beneficiaries, handled := map[], {}, [];
    }

    /** Read the row, advance it, evaluate the rules on the advanced values, store it. */
    method Handle(e: Event, rules: seq<Rule>) returns (alerts: seq<Alert>)
      requires Valid()
      modifies this
      ensures Valid() && handled == old(handled) + [e]
      ensures var k := (e.customer, e.currency);
              && k in stats && stats == old(stats)[k := Advance(Row(old(stats), k), e.spend)]
              && alerts == Alerts(rules, Observation(e.spend.amount, e.currency, stats[k].count, stats[k].sum,
                                                     e.to != "" && (e.customer, e.to) !in old(beneficiaries)))
      ensures beneficiaries == old(beneficiaries) + if e.to == "" then {} else {(e.customer, e.to)}
      ensures Alerted(alerts, rules, handled)
    {
      ghost var es := handled + [e];
      RemembersNext(beneficiaries, handled, e);
      var k := (e.customer, e.currency);
      var start, count, day, sum;
      if k in stats {
        var row := stats[k];
        var window, daily := AdvanceWindow(Some(row.start), row.count, e.spend.at),
                             AdvanceDay(Some(row.day), row.sum, e.spend.at, e.spend.amount);
        start, count, day, sum := window.0, window.1, daily.0, daily.1;
      } else {
        var window, daily := AdvanceWindow(None, 0, e.spend.at), AdvanceDay(None, 0, e.spend.at, e.spend.amount);
        start, count, day, sum := window.0, window.1, daily.0, daily.1;
      }
      var isNew := false;
      if e.to != "" {
        isNew := (e.customer, e.to) !in beneficiaries;
        beneficiaries := beneficiaries + {(e.customer, e.to)};
      }
      alerts := Evaluate(rules, Observation(e.spend.amount, e.currency, count, sum, isNew));
      TracksNext(stats, stats[k := Stats(start, count, day, sum)], handled, e);
      stats := stats[k := Stats(start, count, day, sum)];
      handled := es;
      AlertsAlarm(rules, es, stats, Observation(e.spend.amount, e.currency, count, sum, isNew));
    }
  }
}

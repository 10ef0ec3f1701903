/** Keyset pagination: following cursors page by page against one fixed table. */
module Paging {
  import opened Int64
  import opened Cursor

  /** A stored row: who it belongs to, its microsecond timestamp and its id in canonical text. */
  datatype Item = Item(owner: string, time: int64, id: seq<byte>)

  datatype Key = Key(time: int64, id: seq<byte>)

  function KeyOf(x: Item): Key {
    Key(x.time, x.id)
  }

  // ---------------------------------------------------------------- order

  predicate Lex(a: seq<byte>, b: seq<byte>) {
    if b == [] then false
    else if a == [] then true
    else a[0] < b[0] || (a[0] == b[0] && Lex(a[1..], b[1..]))
  }

  predicate Below(a: Key, b: Key) {
    a.time < b.time || (a.time == b.time && Lex(a.id, b.id))
  }

  lemma {:induction false} LexTotal(a: seq<byte>, b: seq<byte>)
    ensures Lex(a, b) || Lex(b, a) || a == b
    ensures !Lex(a, a)
  {
    if a != [] {
      if b != [] {
        LexTotal(a[1..], b[1..]);
      } else {
        LexTotal(a[1..], a[1..]);
      }
      assert b != [] && a[0] == b[0] && a[1..] == b[1..] ==> a == [a[0]] + a[1..] && b == [b[0]] + b[1..];
    }
  }

  lemma {:induction false} LexTransitive(a: seq<byte>, b: seq<byte>, c: seq<byte>)
    requires Lex(a, b) && Lex(b, c)
    ensures Lex(a, c)
  {
    if a != [] && a[0] == b[0] == c[0] {
      LexTransitive(a[1..], b[1..], c[1..]);
    }
  }

  lemma BelowTotal(a: Key, b: Key)
    ensures Below(a, b) || Below(b, a) || a == b
    ensures !(Below(a, b) && Below(b, a)) && !Below(a, a)
  {
    LexTotal(a.id, b.id);
    if Lex(a.id, b.id) && Lex(b.id, a.id) {
      LexTransitive(a.id, b.id, a.id);
    }
  }

  lemma BelowTransitive(a: Key, b: Key, c: Key)
    requires Below(a, b) && Below(b, c)
    ensures Below(a, c)
  {
    if a.time == b.time == c.time {
      LexTransitive(a.id, b.id, c.id);
    }
  }

  predicate Descending(xs: seq<Item>) {
    forall i, j :: 0 <= i < j < |xs| ==> Below(KeyOf(xs[j]), KeyOf(xs[i]))
  }

  // ---------------------------------------------------------------- the query

  /** The rows of one owner in the half-open time range. */
  function Matching(table: seq<Item>, owner: string, from: int, to: int): seq<Item> {
    if table == [] then []
    else
      var x := table[0];
      if x.owner == owner && from <= x.time < to then [x] + Matching(table[1..], owner, from, to)
      else Matching(table[1..], owner, from, to)
  }

  function Under(xs: seq<Item>, cur: Key): seq<Item> {
    if xs == [] then []
    else if Below(KeyOf(xs[0]), cur) then [xs[0]] + Under(xs[1..], cur)
    else Under(xs[1..], cur)
  }

  function Place(x: Item, xs: seq<Item>): seq<Item> {
    if xs == [] || Below(KeyOf(xs[0]), KeyOf(x)) then [x] + xs else [xs[0]] + Place(x, xs[1..])
  }

  function Ordered(xs: seq<Item>): seq<Item> {
    if xs == [] then [] else Place(xs[0], Ordered(xs[1..]))
  }

  function Take(xs: seq<Item>, n: nat): seq<Item> {
    if |xs| <= n then xs else xs[..n]
  }

  /** The SQL of one page. */
  function Query(table: seq<Item>, owner: string, from: int, to: int, cur: Key, limit: nat): seq<Item> {
    Take(Ordered(Under(Matching(table, owner, from, to), cur)), limit)
  }

  /** Everything in one go. */
  function Listing(table: seq<Item>, owner: string, from: int, to: int): seq<Item> {
    Ordered(Matching(table, owner, from, to))
  }

  /** The primary key. */
  predicate UniqueKeys(xs: seq<Item>) {
    forall i, j :: 0 <= i < j < |xs| ==> KeyOf(xs[i]) != KeyOf(xs[j])
  }

  // ---------------------------------------------------------------- sorting

  /** Put before a descending sequence, a greater row leaves it descending. */
  lemma DescendingCons(x: Item, xs: seq<Item>)
    requires Descending(xs) && forall j :: 0 <= j < |xs| ==> Below(KeyOf(xs[j]), KeyOf(x))
    ensures Descending([x] + xs)
  {
    var ys := [x] + xs;
    forall i, j | 0 <= i < j < |ys| ensures Below(KeyOf(ys[j]), KeyOf(ys[i])) {
      assert ys[j] == xs[j - 1];
      if 0 < i {
        assert ys[i] == xs[i - 1];
      }
    }
  }

  lemma AllBelowHead(x: Item, xs: seq<Item>)
    requires Descending(xs) && xs != [] && Below(KeyOf(xs[0]), KeyOf(x))
    ensures forall j :: 0 <= j < |xs| ==> Below(KeyOf(xs[j]), KeyOf(x))
  {
    forall j | 0 < j < |xs| ensures Below(KeyOf(xs[j]), KeyOf(x)) {
      BelowTransitive(KeyOf(xs[j]), KeyOf(xs[0]), KeyOf(x));
    }
  }

  lemma {:induction false} PlaceKeeps(x: Item, xs: seq<Item>)
    ensures multiset(Place(x, xs)) == multiset(xs) + multiset{x}
  {
    if xs != [] && !Below(KeyOf(xs[0]), KeyOf(x)) {
      PlaceKeeps(x, xs[1..]);
      assert xs == [xs[0]] + xs[1..];
    }
  }

  lemma {:induction false} PlaceExact(x: Item, xs: seq<Item>)
    requires Descending(xs) && forall i :: 0 <= i < |xs| ==> KeyOf(xs[i]) != KeyOf(x)
    ensures Descending(Place(x, xs)) && multiset(Place(x, xs)) == multiset(xs) + multiset{x}
  {
    PlaceKeeps(x, xs);
    if xs == [] {
    } else if Below(KeyOf(xs[0]), KeyOf(x)) {
      AllBelowHead(x, xs);
      DescendingCons(x, xs);
    } else {
      var rest := Place(x, xs[1..]);
      PlaceExact(x, xs[1..]);
      BelowTotal(KeyOf(xs[0]), KeyOf(x));
      forall j | 0 <= j < |rest| ensures Below(KeyOf(rest[j]), KeyOf(xs[0])) {
        assert rest[j] in multiset(rest);
        assert rest[j] == x || rest[j] in xs[1..];
      }
      DescendingCons(xs[0], rest);
    }
  }

  lemma {:induction false} OrderedExact(xs: seq<Item>)
    requires UniqueKeys(xs)
    ensures Descending(Ordered(xs)) && multiset(Ordered(xs)) == multiset(xs)
  {
    if xs != [] {
      var rest := Ordered(xs[1..]);
      OrderedExact(xs[1..]);
      assert xs == [xs[0]] + xs[1..];
      forall i | 0 <= i < |rest| ensures KeyOf(rest[i]) != KeyOf(xs[0]) {
        assert rest[i] in multiset(xs[1..]);
      }
      PlaceExact(xs[0], rest);
    }
  }

  lemma {:induction false} MatchingExact(table: seq<Item>, owner: string, from: int, to: int)
    requires UniqueKeys(table)
    ensures UniqueKeys(Matching(table, owner, from, to))
    ensures forall x :: x in Matching(table, owner, from, to) <==> x in table && x.owner == owner && from <= x.time < to
  {
    if table != [] {
      MatchingExact(table[1..], owner, from, to);
      assert table == [table[0]] + table[1..];
    }
  }

  /** The one-shot listing is what the promise says: each matching row once, newest first. */
  lemma ListingExact(table: seq<Item>, owner: string, from: int, to: int)
    requires UniqueKeys(table)
    ensures var all := Listing(table, owner, from, to);
            && Descending(all)
            && (forall x :: x in all <==> x in table && x.owner == owner && from <= x.time < to)
            && (forall i, j :: 0 <= i < j < |all| ==> all[i] != all[j])
  {
    MatchingExact(table, owner, from, to);
    OrderedExact(Matching(table, owner, from, to));
    var m, all := Matching(table, owner, from, to), Listing(table, owner, from, to);
    forall x ensures x in all <==> x in m {
      assert x in all <==> x in multiset(all);
      assert x in m <==> x in multiset(m);
    }
    forall i, j | 0 <= i < j < |all| ensures all[i] != all[j] {
      BelowTotal(KeyOf(all[i]), KeyOf(all[j]));
    }
  }

  // ---------------------------------------------------------------- a cursor cuts the listing

  lemma {:induction false} UnderAll(xs: seq<Item>, cur: Key)
    requires forall i :: 0 <= i < |xs| ==> Below(KeyOf(xs[i]), cur)
    ensures Under(xs, cur) == xs
  {
    if xs != [] {
      UnderAll(xs[1..], cur);
    }
  }

  lemma {:induction false} UnderPlace(x: Item, xs: seq<Item>, cur: Key)
    requires Descending(xs) && forall i :: 0 <= i < |xs| ==> KeyOf(xs[i]) != KeyOf(x)
    ensures Under(Place(x, xs), cur) == if Below(KeyOf(x), cur) then Place(x, Under(xs, cur)) else Under(xs, cur)
  {
    if xs == [] {
    } else if Below(KeyOf(xs[0]), KeyOf(x)) {
      assert ([x] + xs)[1..] == xs;
      if Below(KeyOf(x), cur) {
        forall i | 0 <= i < |xs| ensures Below(KeyOf(xs[i]), cur) {
          if i > 0 {
            BelowTransitive(KeyOf(xs[i]), KeyOf(xs[0]), KeyOf(x));
          }
          BelowTransitive(KeyOf(xs[i]), KeyOf(x), cur);
        }
        UnderAll(xs, cur);
      }
    } else {
      UnderPlace(x, xs[1..], cur);
      BelowTotal(KeyOf(xs[0]), KeyOf(x));
      assert ([xs[0]] + Place(x, xs[1..]))[1..] == Place(x, xs[1..]);
      if Below(KeyOf(xs[0]), cur) {
        BelowTransitive(KeyOf(x), KeyOf(xs[0]), cur);
        assert ([xs[0]] + Under(xs[1..], cur))[1..] == Under(xs[1..], cur);
      }
    }
  }

  lemma OrderedHead(xs: seq<Item>)
    requires xs != [] && UniqueKeys(xs)
    ensures Descending(Ordered(xs[1..])) && forall x :: x in Ordered(xs[1..]) ==> KeyOf(x) != KeyOf(xs[0])
  {
    OrderedExact(xs[1..]);
    var rest := Ordered(xs[1..]);
    forall x | x in rest ensures KeyOf(x) != KeyOf(xs[0]) {
      assert x in multiset(rest);
      assert x in xs[1..];
    }
  }

  lemma OrderedCons(x: Item, xs: seq<Item>)
    ensures Ordered([x] + xs) == Place(x, Ordered(xs))
  {
    assert ([x] + xs)[1..] == xs;
  }

  /** Cutting before sorting is cutting after sorting. */
  lemma {:induction false} UnderOrdered(xs: seq<Item>, cur: Key)
    requires UniqueKeys(xs)
    ensures Ordered(Under(xs, cur)) == Under(Ordered(xs), cur)
  {
    if xs != [] {
      UnderOrdered(xs[1..], cur);
      OrderedHead(xs);
      UnderPlace(xs[0], Ordered(xs[1..]), cur);
      OrderedCons(xs[0], Under(xs[1..], cur));
    }
  }

  /** Under the key of the k-th row stand exactly the rows after it. */
  lemma {:induction false} UnderSuffix(xs: seq<Item>, k: nat)
    requires Descending(xs) && 0 < k <= |xs|
    ensures Under(xs, KeyOf(xs[k - 1])) == xs[k..]
  {
    BelowTotal(KeyOf(xs[0]), KeyOf(xs[k - 1]));
    if k == 1 {
      UnderAll(xs[1..], KeyOf(xs[0]));
    } else {
      UnderSuffix(xs[1..], k - 1);
      assert xs[1..][k - 1..] == xs[k..];
    }
  }

  // ---------------------------------------------------------------- pages

  function PageSize(requested: int, default: nat, max: nat): (size: nat)
    requires 0 < default && 0 < max
    ensures 0 < size && (default <= max ==> size <= max)
  {
    if requested <= 0 then default else if requested > max then max else requested
  }

  /** One row more than the page is fetched to learn whether there is a next page. */
  function Page(table: seq<Item>, owner: string, from: int, to: int, cur: Key, size: nat): (seq<Item>, seq<byte>)
    requires 0 < size
  {
    var rows := Query(table, owner, from, to, cur, size + 1);
    if |rows| <= size then (rows, [])
    else (rows[..size], EncodeCursor(rows[size - 1].time, rows[size - 1].id))
  }

  /** The cursor that stands after the first k rows of the listing, where the listing starts at start. */
  ghost predicate After(all: seq<Item>, k: nat, start: Key, cur: Key) {
    k <= |all| && if k == 0 then cur == start && forall i :: 0 <= i < |all| ==> Below(KeyOf(all[i]), start)
                  else cur == KeyOf(all[k - 1])
  }

  /** Every row of the range is below a start at its end, or later. */
  lemma FirstKey(table: seq<Item>, owner: string, from: int, to: int, start: Key)
    requires UniqueKeys(table)
    requires forall i :: 0 <= i < |table| && table[i].owner == owner && from <= table[i].time < to ==> table[i].time < start.time
    ensures After(Listing(table, owner, from, to), 0, start, start)
  {
    ListingExact(table, owner, from, to);
    var all := Listing(table, owner, from, to);
    forall i | 0 <= i < |all| ensures Below(KeyOf(all[i]), start) {
      assert all[i] in all;
      assert all[i] in table;
    }
  }

  /** Behind a cursor stands the rest of the one-shot listing. */
  lemma CursorCuts(table: seq<Item>, owner: string, from: int, to: int, start: Key, cur: Key, k: nat)
    requires UniqueKeys(table) && After(Listing(table, owner, from, to), k, start, cur)
    ensures Ordered(Under(Matching(table, owner, from, to), cur)) == Listing(table, owner, from, to)[k..]
  {
    var all := Listing(table, owner, from, to);
    MatchingExact(table, owner, from, to);
    OrderedExact(Matching(table, owner, from, to));
    UnderOrdered(Matching(table, owner, from, to), cur);
    if k == 0 {
      UnderAll(all, start);
    } else {
      UnderSuffix(all, k);
    }
  }

  /** The rows are the next stretch of the listing after its first k, and the cursor stands right
      after them, or is empty at the end. */
  ghost predicate Stretch(all: seq<Item>, k: nat, size: nat, rows: seq<Item>, next: seq<byte>) {
    && k + |rows| <= |all| && rows == all[k..k + |rows|]
    && (if k + size < |all| then |rows| == size else k + |rows| == |all|)
    && (next == [] <==> k + |rows| == |all|)
    && (next != [] ==> 0 < |rows| && DecodeCursor(next) == Some((all[k + |rows| - 1].time, all[k + |rows| - 1].id)))
  }

  lemma CutFull(all: seq<Item>, k: nat, size: nat, next: seq<byte>)
    requires k + size < |all| && 0 < size && next != []
    requires DecodeCursor(next) == Some((all[k + size - 1].time, all[k + size - 1].id))
    ensures Stretch(all, k, size, all[k..k + size], next)
  {
  }

  lemma TakeMore(all: seq<Item>, k: nat, size: nat)
    requires k + size < |all| && 0 < size
    ensures |Take(all[k..], size + 1)| == size + 1
    ensures Take(all[k..], size + 1)[..size] == all[k..k + size]
    ensures Take(all[k..], size + 1)[size - 1] == all[k + size - 1]
  {
  }

  lemma CutLast(all: seq<Item>, k: nat, size: nat)
    requires k <= |all| <= k + size
    ensures Take(all[k..], size + 1) == all[k..]
    ensures Stretch(all, k, size, all[k..], [])
  {
  }

  /** A page is the next stretch of the one-shot listing, and its cursor stands right after it. */
  lemma PageExact(table: seq<Item>, owner: string, from: int, to: int, start: Key, cur: Key, k: nat, size: nat)
    requires UniqueKeys(table) && After(Listing(table, owner, from, to), k, start, cur) && 0 < size
    ensures var (rows, next) := Page(table, owner, from, to, cur, size);
            Stretch(Listing(table, owner, from, to), k, size, rows, next)
  {
    var all := Listing(table, owner, from, to);
    CursorCuts(table, owner, from, to, start, cur, k);
    if k + size < |all| {
      var last := all[k + size - 1];
      TakeMore(all, k, size);
      CursorRoundTrip(last.time, last.id);
      CutFull(all, k, size, EncodeCursor(last.time, last.id));
    } else {
      CutLast(all, k, size);
    }
  }

  /** A client that has the first rows of the listing gets one page further. */
  lemma Further(all: seq<Item>, done: seq<Item>, size: nat, rows: seq<Item>, next: seq<byte>, start: Key)
    requires |done| <= |all| && done == all[..|done|] && Stretch(all, |done|, size, rows, next)
    ensures |done + rows| <= |all| && done + rows == all[..|done + rows|]
    ensures next == [] ==> done + rows == all
    ensures next != [] ==> After(all, |done + rows|, start, KeyOf(all[|done + rows| - 1]))
                           && StartAt(next, start) == Given(KeyOf(all[|done + rows| - 1]))
  {
  }

  // ---------------------------------------------------------------- the two listings

  datatype ListError = BadRange | UnknownAccount | MalformedCursor | NoCaller

  datatype Answer<+T> = Given(value: T) | Refused(error: ListError) {
    predicate IsFailure() { Refused? }
    function PropagateFailure<U>(): Answer<U> requires Refused? { Refused(error) }
    function Extract(): T requires Given? { value }
  }

  /** The greatest UUID in canonical text. */
  function UuidMax(): seq<byte> {
    seq(36, i => if i in {8, 13, 18, 23} then 45 else 102)
  }

  /** Where a request starts: at the given cursor, or at the first row. */
  function StartAt(cursor: seq<byte>, first: Key): Answer<Key> {
    if cursor == [] then Given(first)
    else
      match DecodeCursor(cursor)
      case None => Refused(MalformedCursor)
      case Some((micros, id)) => Given(Key(micros, id))
  }

  /** An absent bound is the zero time; the account is what its reference resolved to. */
  function ListPostings(table: seq<Item>, account: Option<string>, from: Option<int64>, to: Option<int64>, pageSize: int,
                        cursor: seq<byte>): Answer<(seq<Item>, seq<byte>)> {
    if from.None? || to.None? || from.value >= to.value then Refused(BadRange)
    else if account.None? then Refused(UnknownAccount)
    else
      var cur :- StartAt(cursor, Key(to.value, UuidMax()));
      Given(Page(table, account.value, from.value, to.value, cur, PageSize(pageSize, 50, 200)))
  }

  /** The first page starts an hour ahead of the clock. */
  function ListTransfers(table: seq<Item>, customer: string, pageSize: int, cursor: seq<byte>, horizon: int64):
    Answer<(seq<Item>, seq<byte>)> {
    if customer == "" then Refused(NoCaller)
    else
      var cur :- StartAt(cursor, Key(horizon, UuidMax()));
      Given(Page(table, customer, MIN, MAX + 1, cur, PageSize(pageSize, 20, 100)))
  }

  /** The first rows of the listing, no more than a page's worth. */
  ghost predicate FirstPage(listing: seq<Item>, size: nat, rows: seq<Item>) {
    rows == if |listing| <= size then listing else listing[..size]
  }

  /** A listing of postings is refused for a missing or empty range, an unknown account or a malformed
      cursor, in this order. Without a cursor it starts with the newest rows: as many as asked for, fifty if
      none were, and never more than two hundred. */
  lemma PostingsAnswer(table: seq<Item>, account: Option<string>, from: Option<int64>, to: Option<int64>, pageSize: int,
                       cursor: seq<byte>)
    requires UniqueKeys(table)
    ensures var answer := ListPostings(table, account, from, to, pageSize, cursor);
            && (answer == Refused(BadRange) <==> from.None? || to.None? || to.value <= from.value)
            && (answer != Refused(BadRange) ==>
                  && (answer == Refused(UnknownAccount) <==> account.None?)
                  && (answer == Refused(MalformedCursor) <==> account.Some? && cursor != [] && DecodeCursor(cursor).None?)
                  && (account.Some? && cursor == [] ==>
                        && answer.Given?
                        && FirstPage(Listing(table, account.value, from.value, to.value),
                                     if pageSize < 1 then 50 else if 200 < pageSize then 200 else pageSize, answer.value.0)))
  {
    if from.Some? && to.Some? && from.value < to.value && account.Some? && cursor == [] {
      var start := Key(to.value, UuidMax());
      FirstKey(table, account.value, from.value, to.value, start);
      PageExact(table, account.value, from.value, to.value, start, start, 0, PageSize(pageSize, 50, 200));
    }
  }

  /** The same for a customer's transfers: twenty if none were asked for, and never more than a hundred. */
  lemma TransfersAnswer(table: seq<Item>, customer: string, pageSize: int, cursor: seq<byte>, horizon: int64)
    requires UniqueKeys(table) && forall i :: 0 <= i < |table| ==> table[i].time < horizon
    ensures var answer := ListTransfers(table, customer, pageSize, cursor, horizon);
            && (answer == Refused(NoCaller) <==> customer == "")
            && (answer == Refused(MalformedCursor) <==> customer != "" && cursor != [] && DecodeCursor(cursor).None?)
            && (customer != "" && cursor == [] ==>
                  && answer.Given?
                  && FirstPage(Listing(table, customer, -9223372036854775808, 9223372036854775808),
                               if pageSize < 1 then 20 else if 100 < pageSize then 100 else pageSize, answer.value.0))
  {
    if customer != "" && cursor == [] {
      var start := Key(horizon, UuidMax());
      FirstKey(table, customer, MIN, MAX + 1, start);
      PageExact(table, customer, MIN, MAX + 1, start, start, 0, PageSize(pageSize, 20, 100));
    }
  }

  /** The key a client stands at after the first k rows. */
  ghost function StandingAt(listing: seq<Item>, k: nat, start: Key): Key
    requires k <= |listing|
  {
    if k == 0 then start else KeyOf(listing[k - 1])
  }

  /** A client has the first rows of the listing, and either the cursor for the rest, or everything. */
  ghost predicate Following(listing: seq<Item>, all: seq<Item>, cursor: seq<byte>, start: Key, more: bool) {
    && |all| <= |listing| && all == listing[..|all|]
    && if more then
         && After(listing, |all|, start, StandingAt(listing, |all|, start))
         && StartAt(cursor, start) == Given(StandingAt(listing, |all|, start))
       else all == listing
  }

  lemma FollowingStart(listing: seq<Item>, start: Key)
    requires After(listing, 0, start, start)
    ensures Following(listing, [], [], start, true)
  {
  }

  lemma FollowingNext(listing: seq<Item>, all: seq<Item>, size: nat, rows: seq<Item>, next: seq<byte>, start: Key)
    requires |all| <= |listing| && all == listing[..|all|] && Stretch(listing, |all|, size, rows, next)
    ensures Following(listing, all + rows, next, start, next != [])
    ensures next != [] ==> rows != []
  {
    Further(listing, all, size, rows, next, start);
  }

  lemma PostingsStep(table: seq<Item>, account: string, from: int64, to: int64, pageSize: int, all: seq<Item>, cursor: seq<byte>)
    requires UniqueKeys(table) && from < to
    requires Following(Listing(table, account, from, to), all, cursor, Key(to, UuidMax()), true)
    ensures var answer := ListPostings(table, Some(account), Some(from), Some(to), pageSize, cursor);
            answer.Given? && Stretch(Listing(table, account, from, to), |all|, PageSize(pageSize, 50, 200), answer.value.0, answer.value.1)
  {
    var listing, start := Listing(table, account, from, to), Key(to, UuidMax());
    PageExact(table, account, from, to, start, StandingAt(listing, |all|, start), |all|, PageSize(pageSize, 50, 200));
  }

  lemma TransfersStep(table: seq<Item>, customer: string, pageSize: int, horizon: int64, all: seq<Item>, cursor: seq<byte>)
    requires UniqueKeys(table) && customer != ""
    requires Following(Listing(table, customer, MIN, MAX + 1), all, cursor, Key(horizon, UuidMax()), true)
    ensures var answer := ListTransfers(table, customer, pageSize, cursor, horizon);
            answer.Given?
            && Stretch(Listing(table, customer, MIN, MAX + 1), |all|, PageSize(pageSize, 20, 100), answer.value.0, answer.value.1)
  {
    var listing, start := Listing(table, customer, MIN, MAX + 1), Key(horizon, UuidMax());
    PageExact(table, customer, MIN, MAX + 1, start, StandingAt(listing, |all|, start), |all|, PageSize(pageSize, 20, 100));
  }

  /** Following cursors terminates, and the pages put together are the one-shot listing. */
  method FollowPostings(table: seq<Item>, account: string, from: int64, to: int64, pageSize: int)
    returns (all: seq<Item>)
    requires UniqueKeys(table) && from < to
    ensures all == Listing(table, account, from, to)
    ensures Descending(all) && forall x :: x in all <==> x in table && x.owner == account && from <= x.time < to
  {
    ghost var listing := Listing(table, account, from, to);
    ListingExact(table, account, from, to);
    ghost var start := Key(to, UuidMax());
    FirstKey(table, account, from, to, start);
    FollowingStart(listing, start);
    var cursor: seq<byte>, more := [], true;
    all := [];
    while more
      invariant Following(listing, all, cursor, start, more)
      decreases |listing| - |all|, more
    {
      PostingsStep(table, account, from, to, pageSize, all, cursor);
      var answer := ListPostings(table, Some(account), Some(from), Some(to), pageSize, cursor);
      var (rows, next) := answer.value;
      FollowingNext(listing, all, PageSize(pageSize, 50, 200), rows, next, start);
      all := all + rows;
      cursor, more := next, next != [];
    }
  }

  /** The same for a customer's transfers, all of them created before the horizon. */
  method FollowTransfers(table: seq<Item>, customer: string, pageSize: int, horizon: int64) returns (all: seq<Item>)
    requires UniqueKeys(table) && customer != ""
    requires forall i :: 0 <= i < |table| ==> table[i].time < horizon
    ensures all == Listing(table, customer, MIN, MAX + 1)
    ensures Descending(all) && forall x :: x in all <==> x in table && x.owner == customer
  {
    ghost var listing := Listing(table, customer, MIN, MAX + 1);
    ListingExact(table, customer, MIN, MAX + 1);
    ghost var start := Key(horizon, UuidMax());
    FirstKey(table, customer, MIN, MAX + 1, start);
    FollowingStart(listing, start);
    var cursor: seq<byte>, more := [], true;
    all := [];
    while more
      invariant Following(listing, all, cursor, start, more)
      decreases |listing| - |all|, more
    {
      TransfersStep(table, customer, pageSize, horizon, all, cursor);
      var answer := ListTransfers(table, customer, pageSize, cursor, horizon);
      var (rows, next) := answer.value;
      FollowingNext(listing, all, PageSize(pageSize, 20, 100), rows, next, start);
      all := all + rows;
      cursor, more := next, next != [];
    }
  }
}

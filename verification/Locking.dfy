/** Row locks and the order in which the ledger's transactions take them: a unique account key, the
    hold row, balance rows by ascending id, and last the unique reference key of the row inserted. */
module Locking {
  import LedgerDomain

  datatype Lock =
    | ExternalIdKey(externalId: string)
    | HoldRow(hold: LedgerDomain.Uuid)
    | BalanceRow(account: LedgerDomain.Uuid)
    | HoldRefKey(reference: LedgerDomain.Reference)
    | EntryRefKey(reference: LedgerDomain.Reference)

  function Class(l: Lock): nat {
    match l
    case ExternalIdKey(_) => 0
    case HoldRow(_) => 1
    case BalanceRow(_) => 2
    case HoldRefKey(_) => 3
    case EntryRefKey(_) => 3
  }

  function Place(l: Lock): nat {
    match l
    case HoldRow(h) => h
    case BalanceRow(a) => a
    case _ => 0
  }

  predicate Before(l: Lock, m: Lock) {
    Class(l) < Class(m) || (Class(l) == Class(m) && Place(l) < Place(m))
  }

  predicate Increasing(locks: seq<Lock>) {
    forall i, j :: 0 <= i < j < |locks| ==> Before(locks[i], locks[j])
  }

  lemma IncreasingAppend(locks: seq<Lock>, l: Lock)
    requires Increasing(locks)
    requires locks != [] ==> Before(locks[|locks| - 1], l)
    ensures Increasing(locks + [l])
  {
    forall i, j | 0 <= i < j < |locks + [l]| ensures Before((locks + [l])[i], (locks + [l])[j]) {
      if j == |locks| && i < |locks| - 1 {
        assert Before(locks[i], locks[|locks| - 1]);
      }
    }
  }

  // ---------------------------------------------------------------- concurrent transactions

  /** A running transaction: it holds the first `got` locks of its program. */
  datatype Tx = Tx(program: seq<Lock>, got: nat)

  type Txs = map<nat, Tx>

  predicate Holds(t: Tx, l: Lock) {
    exists i :: 0 <= i < t.got && i < |t.program| && t.program[i] == l
  }

  ghost predicate Free(w: Txs, l: Lock) {
    forall x :: x in w ==> !Holds(w[x], l)
  }

  /** Any transaction may begin, take its next lock when that is free, or end (commit, roll back,
      fail) with all its locks given back. */
  datatype Event = Begin(id: nat, program: seq<Lock>) | Acquire(id: nat) | End(id: nat)

  ghost predicate Enabled(w: Txs, e: Event) {
    match e
    case Begin(x, program) => x !in w && Increasing(program)
    case Acquire(x) => x in w && w[x].got < |w[x].program| && Free(w, w[x].program[w[x].got])
    case End(x) => x in w
  }

  ghost function Next(w: Txs, e: Event): Txs
    requires Enabled(w, e)
  {
    match e
    case Begin(x, program) => w[x := Tx(program, 0)]
    case Acquire(x) => w[x := w[x].(got := w[x].got + 1)]
    case End(x) => w - {x}
  }

  ghost predicate Behaviour(ws: seq<Txs>, es: seq<Event>) {
    && |ws| == |es| + 1 && ws[0] == map[]
    && forall i :: 0 <= i < |es| ==> Enabled(ws[i], es[i]) && ws[i + 1] == Next(ws[i], es[i])
  }

  ghost predicate Orderly(w: Txs) {
    && (forall x :: x in w ==> Increasing(w[x].program) && w[x].got <= |w[x].program|)
    && (forall x, y, l :: x in w && y in w && Holds(w[x], l) && Holds(w[y], l) ==> x == y)
  }

  /** x waits for a lock that y holds. */
  ghost predicate WaitsFor(w: Txs, x: nat, y: nat) {
    x in w && y in w && w[x].got < |w[x].program| && Holds(w[y], w[x].program[w[x].got])
  }

  lemma NextOrderly(w: Txs, e: Event)
    requires Orderly(w) && Enabled(w, e)
    ensures Orderly(Next(w, e))
  {
    var w' := Next(w, e);
    forall x, y, l | x in w' && y in w' && Holds(w'[x], l) && Holds(w'[y], l) ensures x == y {
      if e.Acquire? {
        HoldsMore(w[e.id], l);
      }
    }
  }

  lemma HoldsMore(t: Tx, l: Lock)
    requires t.got < |t.program|
    ensures Holds(t.(got := t.got + 1), l) <==> Holds(t, l) || t.program[t.got] == l
  {
    if t.program[t.got] == l {
      assert t.(got := t.got + 1).program[t.got] == l;
    }
    if Holds(t, l) {
      var i :| 0 <= i < t.got && i < |t.program| && t.program[i] == l;
      assert t.(got := t.got + 1).program[i] == l;
    }
  }

  lemma {:induction false} BehaviourOrderly(ws: seq<Txs>, es: seq<Event>, i: nat)
    requires Behaviour(ws, es) && i < |ws|
    ensures Orderly(ws[i])
  {
    if i > 0 {
      BehaviourOrderly(ws, es, i - 1);
      assert Enabled(ws[i - 1], es[i - 1]);
      NextOrderly(ws[i - 1], es[i - 1]);
    }
  }

  /** Everything a transaction holds comes before what it wants. */
  lemma WaitClimbs(w: Txs, x: nat, y: nat)
    requires Orderly(w) && WaitsFor(w, x, y) && w[y].got < |w[y].program|
    ensures Before(w[x].program[w[x].got], w[y].program[w[y].got])
  {
    var l := w[x].program[w[x].got];
    var i :| 0 <= i < w[y].got && i < |w[y].program| && w[y].program[i] == l;
    assert Increasing(w[y].program);
  }

  /** A chain of waiting transactions, each waiting for the next. */
  ghost predicate Chain(w: Txs, c: seq<nat>) {
    forall i :: 0 <= i < |c| - 1 ==> WaitsFor(w, c[i], c[i + 1])
  }

  lemma {:induction false} ChainClimbs(w: Txs, c: seq<nat>, n: nat)
    requires Orderly(w) && Chain(w, c) && 0 < n < |c|
    requires c[n] in w && w[c[n]].got < |w[c[n]].program|
    ensures WaitsFor(w, c[0], c[1])
    ensures Before(w[c[0]].program[w[c[0]].got], w[c[n]].program[w[c[n]].got])
  {
    assert WaitsFor(w, c[n - 1], c[n - 1 + 1]);
    WaitClimbs(w, c[n - 1], c[n]);
    if n > 1 {
      ChainClimbs(w, c, n - 1);
    }
  }

  /** No deadlock: in no reachable interleaving does a chain of waits close into a cycle. */
  lemma DeadlockFree(ws: seq<Txs>, es: seq<Event>, i: nat, c: seq<nat>)
    requires Behaviour(ws, es) && i < |ws|
    requires 2 <= |c| && Chain(ws[i], c)
    ensures c[|c| - 1] != c[0]
  {
    BehaviourOrderly(ws, es, i);
    if c[|c| - 1] == c[0] {
      assert WaitsFor(ws[i], c[0], c[1]);
      ChainClimbs(ws[i], c, |c| - 1);
    }
  }

  // ---------------------------------------------------------------- someone can always go on

  predicate Blocked(w: Txs, x: nat)
    requires x in w
  {
    exists y :: y in w && w[x].got < |w[x].program| && Holds(w[y], w[x].program[w[x].got])
  }

  lemma {:induction false} HighestWanted(w: Txs, ids: set<nat>) returns (top: nat)
    requires ids != {} && forall x :: x in ids ==> x in w && w[x].got < |w[x].program|
    ensures top in ids
    ensures forall x :: x in ids ==> !Before(w[top].program[w[top].got], w[x].program[w[x].got])
    decreases |ids|
  {
    var k :| k in ids;
    var rest := ids - {k};
    top := k;
    if rest != {} {
      var t := HighestWanted(w, rest);
      if Before(w[k].program[w[k].got], w[t].program[w[t].got]) {
        top := t;
      }
    }
    forall x | x in ids ensures !Before(w[top].program[w[top].got], w[x].program[w[x].got]) {
      assert x == k || x in rest;
    }
  }

  /** While any transaction runs, one of them is not blocked. */
  lemma SomeoneProceeds(ws: seq<Txs>, es: seq<Event>, i: nat)
    requires Behaviour(ws, es) && i < |ws| && ws[i] != map[]
    ensures exists y :: y in ws[i] && !Blocked(ws[i], y)
  {
    var w := ws[i];
    BehaviourOrderly(ws, es, i);
    var stuck := set x | x in w && Blocked(w, x);
    if stuck == {} {
      var y :| y in w;
      assert y !in stuck;
    } else {
      var top := HighestWanted(w, stuck);
      assert Blocked(w, top);
      var y :| y in w && Holds(w[y], w[top].program[w[top].got]);
      if y in stuck {
        WaitClimbs(w, top, y);
      }
      assert y !in stuck;
    }
  }
}

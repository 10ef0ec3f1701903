/** The pure double-entry rules of the ledger service. */
module LedgerDomain {
  import opened Int64

  /** UUIDs, ordered as their canonical text is. */
  type Uuid = nat

  datatype Error =
    | InsufficientFunds | AccountFrozen | AccountNotFound | CurrencyMismatch | UnknownCurrency
    | UnbalancedEntry | TooFewPostings | ZeroPosting | Overflow | DuplicateReference
    | HoldNotActive | HoldExceeded | HoldAccountMismatch | InvalidHoldAmount
    | NotFound | InvalidArgument | AlreadyExists | HeldUnderflow | HeldCheckViolated

  datatype Result<+T> = Ok(value: T) | Err(error: Error) {
    predicate IsFailure() { Err? }
    function PropagateFailure<U>(): Result<U> requires Err? { Err(error) }
    function Extract(): T requires Ok? { value }
  }

  datatype AccountType = Customer | Internal
  datatype AccountStatus = Active | Frozen | Closed
  datatype HoldStatus = HoldActive | HoldCaptured | HoldReleased

  /** The empty string stands for an absent external id or internal code. */
  datatype Account = Account(id: Uuid, externalId: string, internalCode: string,
                             kind: AccountType, currency: string, status: AccountStatus)

  /** One leg of a journal entry: negative amounts debit, positive amounts credit. */
  datatype Posting = Posting(account: Uuid, amount: int64, currency: string)

  datatype Balance = Balance(balance: int64, held: int64, version: nat)

  datatype Reference = Reference(kind: string, id: string)

  datatype Hold = Hold(account: Uuid, amount: int64, currency: string, reference: Reference,
                       status: HoldStatus, expiresAt: int)

  predicate ValidCurrency(c: string) {
    c == "KZT" || c == "USD"
  }

  function Available(b: Balance): int64 {
    Wrap(b.balance - b.held)
  }

  // ---------------------------------------------------------------- sums over legs

  /** Mathematical sum of the legs on one account. */
  function AccountSum(legs: seq<Posting>, a: Uuid): int {
    if legs == [] then 0
    else AccountSum(legs[..|legs| - 1], a) + (var p := legs[|legs| - 1]; if p.account == a then p.amount else 0)
  }

  /** Mathematical sum of the legs in one currency. */
  function CurrencySum(legs: seq<Posting>, c: string): int {
    if legs == [] then 0
    else CurrencySum(legs[..|legs| - 1], c) + (var p := legs[|legs| - 1]; if p.currency == c then p.amount else 0)
  }

  predicate Touches(legs: seq<Posting>, a: Uuid) {
    exists i :: 0 <= i < |legs| && legs[i].account == a
  }

  lemma {:induction false} AccountSumAppend(x: seq<Posting>, y: seq<Posting>, a: Uuid)
    ensures AccountSum(x + y, a) == AccountSum(x, a) + AccountSum(y, a)
  {
    if y == [] {
      assert x + y == x;
    } else {
      AccountSumAppend(x, y[..|y| - 1], a);
      assert (x + y)[..|x + y| - 1] == x + y[..|y| - 1];
    }
  }

  lemma {:induction false} CurrencySumAppend(x: seq<Posting>, y: seq<Posting>, c: string)
    ensures CurrencySum(x + y, c) == CurrencySum(x, c) + CurrencySum(y, c)
  {
    if y == [] {
      assert x + y == x;
    } else {
      CurrencySumAppend(x, y[..|y| - 1], c);
      assert (x + y)[..|x + y| - 1] == x + y[..|y| - 1];
    }
  }

  lemma {:induction false} UntouchedSum(legs: seq<Posting>, a: Uuid)
    requires !Touches(legs, a)
    ensures AccountSum(legs, a) == 0
  {
    if legs != [] {
      var init := legs[..|legs| - 1];
      assert legs[|legs| - 1].account != a;
      assert !Touches(init, a) by {
        assert forall i :: 0 <= i < |init| ==> init[i] == legs[i];
      }
      UntouchedSum(init, a);
    }
  }

  // ---------------------------------------------------------------- entry validation

  /** The checks made on one leg before it is added to the running sums. */
  function LegError(p: Posting, accounts: map<Uuid, Account>): Option<Error> {
    if p.account !in accounts then Some(AccountNotFound)
    else
      var acct := accounts[p.account];
      if p.amount == 0 then Some(ZeroPosting)
      else if !ValidCurrency(p.currency) then Some(UnknownCurrency)
      else if p.currency != acct.currency then Some(CurrencyMismatch)
      else if acct.kind == Customer && acct.status != Active then Some(AccountFrozen)
      else None
  }

  /** A leg the ledger takes: a nonzero amount in tenge or dollars, on a known account of that currency,
      and if it is a customer's, on an active one. */
  ghost predicate SoundLeg(p: Posting, accounts: map<Uuid, Account>) {
    && p.account in accounts && p.amount != 0 && (p.currency == "KZT" || p.currency == "USD")
    && accounts[p.account].currency == p.currency
    && (accounts[p.account].kind == Customer ==> accounts[p.account].status == Active)
  }

  /** No error exactly for the sound legs, and otherwise that of the first thing wrong. */
  lemma LegErrorExact(p: Posting, accounts: map<Uuid, Account>)
    ensures LegError(p, accounts).None? <==> SoundLeg(p, accounts)
    ensures LegError(p, accounts) == Some(AccountNotFound) <==> p.account !in accounts
    ensures LegError(p, accounts) == Some(ZeroPosting) <==> p.account in accounts && p.amount == 0
    ensures LegError(p, accounts) == Some(UnknownCurrency) <==>
              p.account in accounts && p.amount != 0 && p.currency !in {"KZT", "USD"}
    ensures LegError(p, accounts) == Some(CurrencyMismatch) <==>
              && p.account in accounts && p.amount != 0 && p.currency in {"KZT", "USD"}
              && accounts[p.account].currency != p.currency
    ensures LegError(p, accounts) == Some(AccountFrozen) <==>
              && p.account in accounts && p.amount != 0 && p.currency in {"KZT", "USD"}
              && accounts[p.account].currency == p.currency
              && accounts[p.account].kind == Customer && accounts[p.account].status in {Frozen, Closed}
  {
  }

  function GetOr<K, V>(m: map<K, V>, k: K, default: V): V {
    if k in m then m[k] else default
  }

  /** The running per-currency sums after the first n legs, or the error that stopped them. */
  function CheckLegs(legs: seq<Posting>, accounts: map<Uuid, Account>, n: nat): Result<map<string, int64>>
    requires n <= |legs|
  {
    if n == 0 then Ok(map[])
    else
      var sums :- CheckLegs(legs, accounts, n - 1);
      var p := legs[n - 1];
      match LegError(p, accounts)
      case Some(e) => Err(e)
      case None =>
        match AddChecked(GetOr(sums, p.currency, 0), p.amount)
        case None => Err(Overflow)
        case Some(s) => Ok(sums[p.currency := s])
  }

  function EntryError(legs: seq<Posting>, accounts: map<Uuid, Account>): Option<Error> {
    if |legs| < 2 then Some(TooFewPostings)
    else
      match CheckLegs(legs, accounts, |legs|)
      case Err(e) => Some(e)
      case Ok(sums) => if exists c :: c in sums && sums[c] != 0 then Some(UnbalancedEntry) else None
  }

  /** What an accepted entry is: every leg sound, zero in each currency over the mathematical
      integers, and no running sum leaving the 64-bit range on the way. */
  ghost predicate Acceptable(legs: seq<Posting>, accounts: map<Uuid, Account>) {
    && 2 <= |legs|
    && LegsSound(legs, accounts, |legs|)
    && (forall c :: CurrencySum(legs, c) == 0)
    && PrefixesFit(legs, |legs|)
  }

  ghost predicate PrefixesFit(legs: seq<Posting>, n: nat)
    requires n <= |legs|
  {
    forall k, c :: 0 <= k <= n ==> Fits(CurrencySum(legs[..k], c))
  }

  lemma {:induction false} SumNext(legs: seq<Posting>, n: nat, c: string)
    requires 0 < n <= |legs|
    ensures CurrencySum(legs[..n], c) == CurrencySum(legs[..n - 1], c) + if legs[n - 1].currency == c then legs[n - 1].amount else 0
  {
    assert legs[..n][..n - 1] == legs[..n - 1];
  }

  /** The running sums after n legs fit, and so did all before. */
  lemma {:induction false} PrefixesFitNext(legs: seq<Posting>, n: nat)
    requires 0 < n <= |legs|
    ensures PrefixesFit(legs, n) <==> PrefixesFit(legs, n - 1) && Fits(CurrencySum(legs[..n], legs[n - 1].currency))
  {
    if PrefixesFit(legs, n - 1) && Fits(CurrencySum(legs[..n], legs[n - 1].currency)) {
      forall k, c | 0 <= k <= n ensures Fits(CurrencySum(legs[..k], c)) {
        if k == n && c != legs[n - 1].currency {
          SumNext(legs, n, c);
          assert Fits(CurrencySum(legs[..n - 1], c));
        }
      }
    }
  }

  /** The map holds the running sums. */
  ghost predicate Sums(legs: seq<Posting>, n: nat, sums: map<string, int64>)
    requires n <= |legs|
  {
    forall c :: CurrencySum(legs[..n], c) == GetOr(sums, c, 0)
  }

  lemma {:induction false} SumsNext(legs: seq<Posting>, n: nat, sums: map<string, int64>, s: int64)
    requires 0 < n <= |legs| && Sums(legs, n - 1, sums) && s == GetOr(sums, legs[n - 1].currency, 0) + legs[n - 1].amount
    ensures Sums(legs, n, sums[legs[n - 1].currency := s])
  {
    forall c ensures CurrencySum(legs[..n], c) == GetOr(sums[legs[n - 1].currency := s], c, 0) {
      SumNext(legs, n, c);
    }
  }

  lemma {:induction false} CheckLegsSums(legs: seq<Posting>, accounts: map<Uuid, Account>, n: nat)
    requires n <= |legs| && CheckLegs(legs, accounts, n).Ok?
    ensures Sums(legs, n, CheckLegs(legs, accounts, n).value)
  {
    if n == 0 {
      assert legs[..0] == [];
    } else {
      CheckLegsSums(legs, accounts, n - 1);
      var sums, p := CheckLegs(legs, accounts, n - 1).value, legs[n - 1];
      SumsNext(legs, n, sums, AddChecked(GetOr(sums, p.currency, 0), p.amount).value);
    }
  }

  lemma {:induction false} CheckLegsStep(legs: seq<Posting>, accounts: map<Uuid, Account>, n: nat)
    requires 0 < n <= |legs|
    ensures CheckLegs(legs, accounts, n).Ok? <==>
              && CheckLegs(legs, accounts, n - 1).Ok? && SoundLeg(legs[n - 1], accounts)
              && var p := legs[n - 1];
              && AddChecked(GetOr(CheckLegs(legs, accounts, n - 1).value, p.currency, 0), p.amount).Some?
  {
    LegErrorExact(legs[n - 1], accounts);
  }

  lemma {:induction false} CheckLegsNext(legs: seq<Posting>, accounts: map<Uuid, Account>, n: nat)
    requires 0 < n <= |legs|
    ensures CheckLegs(legs, accounts, n).Ok? <==>
              && CheckLegs(legs, accounts, n - 1).Ok? && SoundLeg(legs[n - 1], accounts)
              && Fits(CurrencySum(legs[..n], legs[n - 1].currency))
  {
    CheckLegsStep(legs, accounts, n);
    if CheckLegs(legs, accounts, n - 1).Ok? {
      CheckLegsSums(legs, accounts, n - 1);
      NextFits(legs, n, CheckLegs(legs, accounts, n - 1).value);
    }
  }

  lemma {:induction false} CheckLegsExact(legs: seq<Posting>, accounts: map<Uuid, Account>, n: nat)
    requires n <= |legs|
    ensures CheckLegs(legs, accounts, n).Ok? <==> LegsSound(legs, accounts, n) && PrefixesFit(legs, n)
  {
    if n == 0 {
      assert legs[..0] == [];
    } else {
      CheckLegsNext(legs, accounts, n);
      CheckLegsExact(legs, accounts, n - 1);
      PrefixesFitNext(legs, n);
      LegsSoundNext(legs, accounts, n);
    }
  }

  lemma {:induction false} LegsSoundNext(legs: seq<Posting>, accounts: map<Uuid, Account>, n: nat)
    requires 0 < n <= |legs|
    ensures LegsSound(legs, accounts, n) <==> LegsSound(legs, accounts, n - 1) && SoundLeg(legs[n - 1], accounts)
  {
  }

  ghost predicate LegsSound(legs: seq<Posting>, accounts: map<Uuid, Account>, n: nat)
    requires n <= |legs|
  {
    forall i :: 0 <= i < n ==> SoundLeg(legs[i], accounts)
  }

  lemma {:induction false} NextFits(legs: seq<Posting>, n: nat, sums: map<string, int64>)
    requires 0 < n <= |legs| && Sums(legs, n - 1, sums)
    ensures var p := legs[n - 1];
            AddChecked(GetOr(sums, p.currency, 0), p.amount).Some? <==> Fits(CurrencySum(legs[..n], p.currency))
  {
    SumNext(legs, n, legs[n - 1].currency);
  }

  lemma {:induction false} CheckLegsStops(legs: seq<Posting>, accounts: map<Uuid, Account>, n: nat, m: nat)
    requires n <= m <= |legs|
    requires CheckLegs(legs, accounts, n).Err?
    ensures CheckLegs(legs, accounts, m) == CheckLegs(legs, accounts, n)
  {
    if n < m {
      CheckLegsStops(legs, accounts, n, m - 1);
    }
  }

  lemma EntryErrorExact(legs: seq<Posting>, accounts: map<Uuid, Account>)
    ensures EntryError(legs, accounts).None? <==> Acceptable(legs, accounts)
  {
    CheckLegsExact(legs, accounts, |legs|);
    assert legs[..|legs|] == legs;
    if CheckLegs(legs, accounts, |legs|).Ok? {
      CheckLegsSums(legs, accounts, |legs|);
      ZeroSums(legs, CheckLegs(legs, accounts, |legs|).value);
    }
  }

  lemma {:induction false} ZeroSums(legs: seq<Posting>, sums: map<string, int64>)
    requires Sums(legs, |legs|, sums)
    ensures (forall c :: CurrencySum(legs, c) == 0) <==> !(exists c :: c in sums && sums[c] != 0)
  {
    assert legs[..|legs|] == legs;
    if c :| c in sums && sums[c] != 0 {
      OneSum(legs, sums, c);
      assert CurrencySum(legs, c) != 0;
    } else {
      forall c ensures CurrencySum(legs, c) == 0 {
        OneSum(legs, sums, c);
      }
    }
  }

  lemma OneSum(legs: seq<Posting>, sums: map<string, int64>, c: string)
    requires Sums(legs, |legs|, sums)
    ensures CurrencySum(legs, c) == GetOr(sums, c, 0)
  {
    assert legs[..|legs|] == legs;
    assert CurrencySum(legs[..|legs|], c) == GetOr(sums, c, 0);
  }

  /** The error is that of the first leg where something is wrong; balance is only looked at when every
      leg and every running sum was fine. */
  ghost predicate StopsAt(legs: seq<Posting>, accounts: map<Uuid, Account>, k: nat, e: Error) {
    && k < |legs| && LegsSound(legs, accounts, k) && PrefixesFit(legs, k)
    && if SoundLeg(legs[k], accounts) then e == Overflow && !Fits(CurrencySum(legs[..k + 1], legs[k].currency))
       else LegError(legs[k], accounts) == Some(e)
  }

  lemma {:induction false} CheckLegsStop(legs: seq<Posting>, accounts: map<Uuid, Account>, n: nat)
    requires n <= |legs| && CheckLegs(legs, accounts, n).Err?
    ensures exists k: nat :: k < n && StopsAt(legs, accounts, k, CheckLegs(legs, accounts, n).error)
  {
    if CheckLegs(legs, accounts, n - 1).Err? {
      CheckLegsStop(legs, accounts, n - 1);
    } else {
      CheckLegsExact(legs, accounts, n - 1);
      CheckLegsSums(legs, accounts, n - 1);
      NextFits(legs, n, CheckLegs(legs, accounts, n - 1).value);
      LegErrorExact(legs[n - 1], accounts);
      assert StopsAt(legs, accounts, n - 1, CheckLegs(legs, accounts, n).error);
    }
  }

  lemma EntryErrorFirst(legs: seq<Posting>, accounts: map<Uuid, Account>)
    ensures EntryError(legs, accounts) == Some(TooFewPostings) <==> |legs| < 2
    ensures EntryError(legs, accounts) == Some(UnbalancedEntry) <==>
              && 2 <= |legs| && LegsSound(legs, accounts, |legs|) && PrefixesFit(legs, |legs|)
              && exists c :: CurrencySum(legs, c) != 0
    ensures EntryError(legs, accounts).Some? && EntryError(legs, accounts).value !in {TooFewPostings, UnbalancedEntry} ==>
              exists k: nat :: StopsAt(legs, accounts, k, EntryError(legs, accounts).value)
  {
    CheckLegsExact(legs, accounts, |legs|);
    assert legs[..|legs|] == legs;
    if CheckLegs(legs, accounts, |legs|).Ok? {
      CheckLegsSums(legs, accounts, |legs|);
      ZeroSums(legs, CheckLegs(legs, accounts, |legs|).value);
    } else {
      CheckLegsStop(legs, accounts, |legs|);
      var k: nat :| k < |legs| && StopsAt(legs, accounts, k, CheckLegs(legs, accounts, |legs|).error);
      LegErrorExact(legs[k], accounts);
    }
  }

  method CheckLeg(p: Posting, accounts: map<Uuid, Account>) returns (bad: Option<Error>)
    ensures bad == LegError(p, accounts)
  {
    if p.account !in accounts {
      return Some(AccountNotFound);
    }
    var acct := accounts[p.account];
    if p.amount == 0 {
      return Some(ZeroPosting);
    } else if !ValidCurrency(p.currency) {
      return Some(UnknownCurrency);
    } else if p.currency != acct.currency {
      return Some(CurrencyMismatch);
    } else if acct.kind == Customer && acct.status != Active {
      return Some(AccountFrozen);
    }
    return None;
  }

  method AnyNonzero(sums: map<string, int64>) returns (found: bool)
    ensures found <==> exists c :: c in sums && sums[c] != 0
  {
    var left := sums.Keys;
    while left != {}
      invariant left <= sums.Keys
      invariant forall c :: c in sums && c !in left ==> sums[c] == 0
    {
      var c :| c in left;
      if sums[c] != 0 {
        return true;
      }
      left := left - {c};
    }
    return false;
  }

  method ValidateEntry(legs: seq<Posting>, accounts: map<Uuid, Account>) returns (r: Option<Error>)
    ensures r == EntryError(legs, accounts)
    ensures r.None? <==> Acceptable(legs, accounts)
  {
    r := FirstError(legs, accounts);
    EntryErrorExact(legs, accounts);
  }

  method FirstError(legs: seq<Posting>, accounts: map<Uuid, Account>) returns (r: Option<Error>)
    ensures r == EntryError(legs, accounts)
  {
    if |legs| < 2 {
      return Some(TooFewPostings);
    }
    var sums: map<string, int64> := map[];
    for i := 0 to |legs|
      invariant CheckLegs(legs, accounts, i) == Ok(sums)
    {
      var p := legs[i];
      var bad := CheckLeg(p, accounts);
      if bad.Some? {
        CheckLegsStops(legs, accounts, i + 1, |legs|);
        return bad;
      }
      var s := AddChecked(GetOr(sums, p.currency, 0), p.amount);
      if s.None? {
        CheckLegsStops(legs, accounts, i + 1, |legs|);
        return Some(Overflow);
      }
      sums := sums[p.currency := s.value];
    }
    var unbalanced := AnyNonzero(sums);
    return if unbalanced then Some(UnbalancedEntry) else None;
  }

  // ---------------------------------------------------------------- balances and holds

  /** Balance after one net delta. */
  function ApplyPosting(b: Balance, kind: AccountType, delta: int64): Result<Balance> {
    match AddChecked(b.balance, delta)
    case None => Err(Overflow)
    case Some(nb) =>
      var after := b.(balance := nb, version := b.version + 1);
      if kind == Customer && Available(after) < 0 then Err(InsufficientFunds) else Ok(after)
  }

  function HoldError(b: Balance, kind: AccountType, amount: int64): Option<Error> {
    if amount <= 0 then Some(InvalidHoldAmount)
    else if kind != Customer then None
    else if Available(b) < amount then Some(InsufficientFunds)
    else None
  }

  /** Negation is unchecked, so the most negative debit stays negative and passes the comparison. */
  function CaptureHold(h: Hold, debit: int64): (r: Result<Hold>)
    ensures r.Ok? <==> h.status == HoldActive && (-(h.amount as int) <= debit <= h.amount || debit == MIN)
    ensures r.Ok? ==> r.value == h.(status := HoldCaptured)
  {
    if h.status != HoldActive then Err(HoldNotActive)
    else
      var size := if debit < 0 then Wrap(-(debit as int)) else debit;
      if size > h.amount then Err(HoldExceeded) else Ok(h.(status := HoldCaptured))
  }

  /** The released hold and whether anything changed; releasing twice is a no-op. */
  function ReleaseHold(h: Hold): Result<(Hold, bool)> {
    match h.status
    case HoldReleased => Ok((h, false))
    case HoldCaptured => Err(HoldNotActive)
    case HoldActive => Ok((h.(status := HoldReleased), true))
  }

  // ---------------------------------------------------------------- int64 exactness

  /** The reservation invariant of a customer balance. */
  predicate Sound(b: Balance) {
    0 <= b.held <= b.balance
  }

  /** On a sound customer balance, lowering held and applying any delta never wraps, so the sign
      test on the wrapped difference decides the mathematical inequality. */
  lemma ApplyPostingExact(b: Balance, held: int64, delta: int64)
    requires Sound(b) && 0 <= held <= b.held
    ensures ApplyPosting(b.(held := held), Customer, delta).Ok? <==> held <= b.balance + delta <= MAX
    ensures ApplyPosting(b.(held := held), Customer, delta).Ok? ==>
              ApplyPosting(b.(held := held), Customer, delta).value == Balance(b.balance + delta, held, b.version + 1)
  {
    if Fits(b.balance + delta) {
      assert Fits(b.balance + delta - held);
    }
  }

  /** A hold is granted on a sound customer balance exactly when the funds are there, and then
      neither the subtraction behind the test nor the addition to held wraps. */
  lemma HoldErrorExact(b: Balance, amount: int64)
    requires Sound(b)
    ensures HoldError(b, Customer, amount).None? <==> 0 < amount && b.held + amount <= b.balance
    ensures HoldError(b, Customer, amount).None? ==> Wrap(b.held + amount) == b.held + amount
  {
  }
}

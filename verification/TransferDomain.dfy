/** The transfer saga's transition table, its validation rules and the journal legs it builds. */
module TransferDomain {
  import opened Int64
  import LedgerDomain
  import Ledger
  import Fx

  // ---------------------------------------------------------------- the state machine

  datatype Phase = Created | Validating | Held | Posting | Completed | Releasing | Failed

  datatype Trigger =
    | EvStart | EvValidated | EvValidationFailed | EvHoldFailed | EvPostingStarted
    | EvPosted | EvPostFailed | EvRecoveryExhausted | EvReleased

  function Next(p: Phase, e: Trigger): Option<Phase> {
    match (p, e)
    case (Created, EvStart) => Some(Validating)
    case (Validating, EvValidated) => Some(Held)
    case (Validating, EvValidationFailed) => Some(Failed)
    case (Held, EvPostingStarted) => Some(Phase.Posting)
    case (Held, EvHoldFailed) => Some(Releasing)
    case (Held, EvRecoveryExhausted) => Some(Releasing)
    case (Posting, EvPosted) => Some(Completed)
    case (Posting, EvPostFailed) => Some(Releasing)
    case (Posting, EvRecoveryExhausted) => Some(Releasing)
    case (Releasing, EvReleased) => Some(Failed)
    case _ => None
  }

  predicate IsTerminal(p: Phase) {
    p == Completed || p == Failed
  }

  /** The most transitions a transfer can still make. */
  function Rank(p: Phase): nat {
    match p
    case Created => 5
    case Validating => 4
    case Held => 3
    case Posting => 2
    case Releasing => 1
    case Completed => 0
    case Failed => 0
  }

  /** Every edge of the table descends, and exactly the terminal states have none. */
  lemma TableDescends(p: Phase, e: Trigger)
    ensures Next(p, e).Some? ==> Rank(Next(p, e).value) < Rank(p)
    ensures IsTerminal(p) <==> forall f :: Next(p, f).None?
  {
    if !IsTerminal(p) {
      var f := match p
        case Created => EvStart
        case Validating => EvValidated
        case Held => EvPostingStarted
        case Posting => EvPosted
        case _ => EvReleased;
      assert Next(p, f).Some?;
    }
  }

  /** The whole table: where each trigger applies, and where it leads. */
  lemma TableExact(p: Phase, e: Trigger, q: Phase)
    ensures Next(p, e) == Some(q) <==>
              match e
              case EvStart => p == Created && q == Validating
              case EvValidated => p == Validating && q == Held
              case EvValidationFailed => p == Validating && q == Failed
              case EvPostingStarted => p == Held && q == Phase.Posting
              case EvHoldFailed => p == Held && q == Releasing
              case EvPosted => p == Phase.Posting && q == Completed
              case EvPostFailed => p == Phase.Posting && q == Releasing
              case EvRecoveryExhausted => p in {Held, Phase.Posting} && q == Releasing
              case EvReleased => p == Releasing && q == Failed
  {
  }

  // ---------------------------------------------------------------- transfers

  datatype Kind = Topup | Own | P2P | Unspecified

  datatype Transfer = Transfer(id: string, kind: Kind, phase: Phase, customer: string,
                               from: string, to: string, toNumber: string, amount: int64, currency: string,
                               counterAmount: Option<int64>, counterCurrency: Option<string>,
                               rateMicros: Option<int64>, ratePair: Option<string>,
                               reason: Option<string>, holdId: Option<LedgerDomain.Uuid>, attempts: nat)

  datatype SpecError = InvalidSpec | SameAccount

  function ValidateSpec(kind: Kind, from: string, to: string, toNumber: string, amount: int64, currency: string): Option<SpecError> {
    if amount <= 0 then Some(InvalidSpec)
    else if currency != "KZT" && currency != "USD" then Some(InvalidSpec)
    else
      match kind
      case Topup => if to == "" || from != "" then Some(InvalidSpec) else None
      case Own => if from == "" || to == "" then Some(InvalidSpec) else if from == to then Some(SameAccount) else None
      case P2P => if from == "" || toNumber == "" then Some(InvalidSpec) else None
      case Unspecified => Some(InvalidSpec)
  }

  /** A request is well-formed exactly if it moves a positive amount of a known currency: a deposit to an
      account and from none, an own transfer between two accounts, a P2P transfer to a number. An own
      transfer to the same account is told apart from other malformed requests. */
  lemma SpecExact(kind: Kind, from: string, to: string, toNumber: string, amount: int64, currency: string)
    ensures var e := ValidateSpec(kind, from, to, toNumber, amount, currency);
            var money := 0 < amount && currency in {"KZT", "USD"};
            && (e.None? <==> money && (|| (kind == Topup && from == "" && to != "")
                                       || (kind == Own && from != "" && to != "" && from != to)
                                       || (kind == P2P && from != "" && toNumber != "")))
            && (e == Some(SameAccount) <==> money && kind == Own && from == to && from != "")
  {
  }

  /** Per-transaction and daily caps; the right-hand side is a 64-bit subtraction. */
  predicate WithinLimits(amount: int64, perTx: int64, dailyUsed: int64, dailyLimit: int64) {
    amount <= perTx && dailyUsed <= Wrap(dailyLimit - amount)
  }

  // ---------------------------------------------------------------- validation

  datatype AccountInfo = AccountInfo(id: string, userId: string, currency: string, status: string)

  datatype Lookup = Found(info: AccountInfo) | Missing | NotOwned | Unavailable | Broken

  datatype Rate = Rate(pair: string, buyMicros: int64, sellMicros: int64)
  datatype RateLookup = RateFound(rate: Rate) | NoRate | RateBroken

  /** What the account service, the rate table and the limit queries answer during one validation. */
  datatype Answers = Answers(from: Lookup, to: Lookup, rate: RateLookup, limits: Option<(int64, int64)>, used: Option<int64>)

  datatype Verdict =
    | Postpone
    | Abort
    | Reject(reason: string)
    | Accept(to: string, counterAmount: Option<int64>, counterCurrency: Option<string>,
             rateMicros: Option<int64>, ratePair: Option<string>)

  datatype FxLock = NoFx | FxLocked(amount: int64, currency: string, micros: int64, pair: string) | FxStop(verdict: Verdict)

  function LookupStop(l: Lookup): Option<Verdict> {
    match l
    case Found(_) => None
    case Unavailable => Some(Postpone)
    case Missing => Some(Reject("ACCOUNT_NOT_FOUND"))
    case NotOwned => Some(Reject("NOT_ACCOUNT_OWNER"))
    case Broken => Some(Abort)
  }

  function LockFx(t: Transfer, from: AccountInfo, to: AccountInfo, lookup: RateLookup): FxLock {
    if from.currency == to.currency then NoFx
    else
      match lookup
      case NoRate => FxStop(Reject("RATE_UNAVAILABLE"))
      case RateBroken => FxStop(Abort)
      case RateFound(rate) =>
        if from.currency == "USD" && to.currency == "KZT" then
          Counter(Fx.Convert(t.amount, rate.buyMicros), to.currency, rate.buyMicros, rate.pair)
        else if from.currency == "KZT" && to.currency == "USD" then
          Counter(Fx.ConvertInverse(t.amount, rate.sellMicros), to.currency, rate.sellMicros, rate.pair)
        else FxStop(Reject("UNSUPPORTED_CURRENCY_PAIR"))
  }

  function Counter(counter: Option<int64>, currency: string, micros: int64, pair: string): FxLock {
    match counter
    case None => FxStop(Reject("CONVERSION_FAILED"))
    case Some(c) => if c <= 0 then FxStop(Reject("AMOUNT_TOO_SMALL")) else FxLocked(c, currency, micros, pair)
  }

  function LimitStop(t: Transfer, a: Answers): Option<Verdict> {
    if t.kind == Topup then None
    else if a.limits.None? || a.used.None? then Some(Abort)
    else if WithinLimits(t.amount, a.limits.value.0, Wrap(a.used.value - t.amount), a.limits.value.1) then None
    else Some(Reject("LIMIT_EXCEEDED"))
  }

  /** Ownership, status, currency, rate and limits, in the order the service checks them. */
  function Judge(t: Transfer, a: Answers): Verdict {
    if t.kind != Topup && LookupStop(a.from).Some? then LookupStop(a.from).value
    else if LookupStop(a.to).Some? then LookupStop(a.to).value
    else
      var to := a.to.info;
      if t.kind == Topup then
        if to.userId != t.customer then Reject("NOT_ACCOUNT_OWNER")
        else if to.status != "ACTIVE" then Reject("ACCOUNT_FROZEN")
        else if t.currency != to.currency then Reject("CURRENCY_MISMATCH")
        else Accept(to.id, None, None, None, None)
      else
        var from := a.from.info;
        if from.userId != t.customer then Reject("NOT_ACCOUNT_OWNER")
        else if t.kind == Own && to.userId != t.customer then Reject("NOT_ACCOUNT_OWNER")
        else if from.status != "ACTIVE" || to.status != "ACTIVE" then Reject("ACCOUNT_FROZEN")
        else if t.kind == P2P && from.id == to.id then Reject("SAME_ACCOUNT")
        else if t.currency != from.currency then Reject("CURRENCY_MISMATCH")
        else
          match LockFx(t, from, to, a.rate)
          case FxStop(v) => v
          case NoFx =>
            if LimitStop(t, a).Some? then LimitStop(t, a).value else Accept(to.id, None, None, None, None)
          case FxLocked(c, cc, micros, pair) =>
            if LimitStop(t, a).Some? then LimitStop(t, a).value
            else Accept(to.id, Some(c), Some(cc), Some(micros), Some(pair))
  }

  function Accepted(t: Transfer, v: Verdict): Transfer
    requires v.Accept?
  {
    t.(to := v.to, counterAmount := v.counterAmount, counterCurrency := v.counterCurrency,
       rateMicros := v.rateMicros, ratePair := v.ratePair)
  }

  /** What validation leaves on the row: either no counter side, or a positive one in the other
      currency. */
  predicate CounterOk(t: Transfer) {
    && t.counterAmount.Some? == t.counterCurrency.Some?
    && (t.counterAmount.Some? ==> && t.kind != Topup && 0 < t.counterAmount.value
                                  && LedgerDomain.ValidCurrency(t.counterCurrency.value) && t.counterCurrency.value != t.currency)
  }

  lemma AcceptOk(t: Transfer, a: Answers)
    requires Judge(t, a).Accept?
    ensures CounterOk(Accepted(t, Judge(t, a)))
  {
  }

  /** What the destination receives when the currencies differ: the bank buys dollars at its buy rate
      and sells them at its sell rate. */
  function Received(amount: int64, from: string, to: string, rate: Rate): Option<int64> {
    if from == "USD" && to == "KZT" then Fx.Convert(amount, rate.buyMicros)
    else if from == "KZT" && to == "USD" then Fx.ConvertInverse(amount, rate.sellMicros)
    else None
  }

  ghost predicate Exchangeable(t: Transfer, from: AccountInfo, to: AccountInfo, rate: RateLookup) {
    from.currency == to.currency ||
    (rate.RateFound? && Received(t.amount, from.currency, to.currency, rate.rate).Some?
     && 0 < Received(t.amount, from.currency, to.currency, rate.rate).value)
  }

  /** Who may send what to whom: both accounts known and active, the sender's own account in the
      transfer's currency, an own transfer between own accounts, a P2P transfer to another account, an
      exchange that yields something, and the limits kept. */
  ghost predicate Permitted(t: Transfer, a: Answers) {
    && a.to.Found? && a.to.info.status == "ACTIVE"
    && (if t.kind == Topup then a.to.info.userId == t.customer && a.to.info.currency == t.currency
        else
          && a.from.Found? && a.from.info.status == "ACTIVE" && a.from.info.userId == t.customer
          && a.from.info.currency == t.currency
          && (t.kind == Own ==> a.to.info.userId == t.customer)
          && (t.kind == P2P ==> a.from.info.id != a.to.info.id)
          && Exchangeable(t, a.from.info, a.to.info, a.rate)
          && a.limits.Some? && a.used.Some?
          && WithinLimits(t.amount, a.limits.value.0, Wrap(a.used.value - t.amount), a.limits.value.1))
  }

  /** Validation accepts exactly the permitted transfers, for the account it looked up and, across
      currencies, with the amount received and the rate it was computed at. */
  lemma JudgeExact(t: Transfer, a: Answers)
    ensures Judge(t, a).Accept? <==> Permitted(t, a)
    ensures Judge(t, a).Accept? ==>
              var v := Judge(t, a);
              && v.to == a.to.info.id
              && (v.counterAmount.Some? <==> t.kind != Topup && a.from.info.currency != a.to.info.currency)
              && (v.counterAmount.Some? ==>
                    && v.counterAmount == Received(t.amount, t.currency, a.to.info.currency, a.rate.rate)
                    && v.counterCurrency == Some(a.to.info.currency) && v.ratePair == Some(a.rate.rate.pair)
                    && v.rateMicros == Some(if t.currency == "USD" then a.rate.rate.buyMicros else a.rate.rate.sellMicros))
  {
  }

  // ---------------------------------------------------------------- waiting, giving up, refusing

  /** The first account lookup that does not find its account: the source's, unless it is a deposit, then
      the destination's. */
  ghost predicate Stopped(t: Transfer, a: Answers, cause: Lookup) {
    !cause.Found? && if t.kind != Topup && !a.from.Found? then a.from == cause else a.to == cause
  }

  ghost predicate Known(t: Transfer, a: Answers) {
    (t.kind != Topup ==> a.from.Found?) && a.to.Found?
  }

  /** The sender owns what the money leaves, and for a deposit or an own transfer what it reaches. */
  ghost predicate Owned(t: Transfer, a: Answers)
    requires Known(t, a)
  {
    && (t.kind != Topup ==> a.from.info.userId == t.customer)
    && (t.kind in {Topup, Own} ==> a.to.info.userId == t.customer)
  }

  ghost predicate InUse(t: Transfer, a: Answers)
    requires Known(t, a)
  {
    (t.kind != Topup ==> a.from.info.status == "ACTIVE") && a.to.info.status == "ACTIVE"
  }

  /** Everything that is checked before rates and limits. */
  ghost predicate Entitled(t: Transfer, a: Answers) {
    && Known(t, a) && Owned(t, a) && InUse(t, a)
    && (t.kind == P2P ==> a.from.info.id != a.to.info.id)
    && t.currency == if t.kind == Topup then a.to.info.currency else a.from.info.currency
  }

  /** Money changes currency on the way. */
  ghost predicate Across(t: Transfer, a: Answers) {
    t.kind != Topup && a.from.Found? && a.to.Found? && a.from.info.currency != a.to.info.currency
  }

  ghost predicate Convertible(t: Transfer, a: Answers)
    requires Entitled(t, a)
  {
    Across(t, a) ==>
      && a.rate.RateFound?
      && var r := Received(t.amount, a.from.info.currency, a.to.info.currency, a.rate.rate);
      && r.Some? && 0 < r.value
  }

  /** Validation waits: the lookup it needs next finds the account service unreachable. */
  ghost predicate Waits(t: Transfer, a: Answers) {
    Stopped(t, a, Unavailable)
  }

  /** Validation breaks off without a verdict: a lookup, a rate that is needed, or a limit query that is
      needed fails in a way that says nothing about the transfer. */
  ghost predicate Breaks(t: Transfer, a: Answers) {
    || Stopped(t, a, Broken)
    || (Entitled(t, a) && Across(t, a) && a.rate == RateBroken)
    || (Entitled(t, a) && Convertible(t, a) && t.kind != Topup && (a.limits.None? || a.used.None?))
  }

  lemma JudgeWaits(t: Transfer, a: Answers)
    ensures Judge(t, a).Postpone? <==> Waits(t, a)
    ensures Judge(t, a).Abort? <==> Breaks(t, a)
  {
  }

  /** What acceptance writes on the row: the account found, and for an exchange what arrives, in which
      currency and at which rate. Nothing else on the row changes. */
  lemma AcceptedRow(t: Transfer, a: Answers)
    requires Permitted(t, a)
    ensures Judge(t, a).Accept?
    ensures Accepted(t, Judge(t, a)) ==
              if !Across(t, a) then
                t.(to := a.to.info.id, counterAmount := None, counterCurrency := None, rateMicros := None, ratePair := None)
              else
                t.(to := a.to.info.id, counterAmount := Received(t.amount, t.currency, a.to.info.currency, a.rate.rate),
                   counterCurrency := Some(a.to.info.currency), ratePair := Some(a.rate.rate.pair),
                   rateMicros := Some(if t.currency == "USD" then a.rate.rate.buyMicros else a.rate.rate.sellMicros))
  {
    JudgeExact(t, a);
  }

  /** The one thing wrong with the transfer that is found first, by its reason. */
  ghost predicate Refused(t: Transfer, a: Answers, reason: string) {
    || (reason == "ACCOUNT_NOT_FOUND" && Stopped(t, a, Missing))
    || (reason == "NOT_ACCOUNT_OWNER" && (Stopped(t, a, NotOwned) || (Known(t, a) && !Owned(t, a))))
    || (reason == "ACCOUNT_FROZEN" && Known(t, a) && Owned(t, a) && !InUse(t, a))
    || (reason == "SAME_ACCOUNT" && Known(t, a) && Owned(t, a) && InUse(t, a)
        && t.kind == P2P && a.from.info.id == a.to.info.id)
    || (reason == "CURRENCY_MISMATCH" && Known(t, a) && Owned(t, a) && InUse(t, a)
        && (t.kind == P2P ==> a.from.info.id != a.to.info.id)
        && t.currency != if t.kind == Topup then a.to.info.currency else a.from.info.currency)
    || (reason == "RATE_UNAVAILABLE" && Entitled(t, a) && Across(t, a) && a.rate == NoRate)
    || (reason == "UNSUPPORTED_CURRENCY_PAIR" && Entitled(t, a) && Across(t, a) && a.rate.RateFound?
        && {a.from.info.currency, a.to.info.currency} != {"KZT", "USD"})
    || (reason == "CONVERSION_FAILED" && Entitled(t, a) && Across(t, a) && a.rate.RateFound?
        && {a.from.info.currency, a.to.info.currency} == {"KZT", "USD"}
        && Received(t.amount, a.from.info.currency, a.to.info.currency, a.rate.rate).None?)
    || (reason == "AMOUNT_TOO_SMALL" && Entitled(t, a) && Across(t, a) && a.rate.RateFound?
        && var r := Received(t.amount, a.from.info.currency, a.to.info.currency, a.rate.rate); r.Some? && r.value <= 0)
    || (reason == "LIMIT_EXCEEDED" && Entitled(t, a) && Convertible(t, a) && t.kind != Topup
        && a.limits.Some? && a.used.Some?
        && !WithinLimits(t.amount, a.limits.value.0, Wrap(a.used.value - t.amount), a.limits.value.1))
  }

  /** Validation refuses exactly for the first thing found wrong. */
  lemma JudgeRefuses(t: Transfer, a: Answers, reason: string)
    ensures Judge(t, a) == Reject(reason) <==> Refused(t, a, reason)
  {
    if Entitled(t, a) && Across(t, a) && a.rate.RateFound? {
      PairKnown(a.from.info.currency, a.to.info.currency);
    }
  }

  lemma PairKnown(from: string, to: string)
    ensures {from, to} == {"KZT", "USD"} <==> (from == "USD" && to == "KZT") || (from == "KZT" && to == "USD")
  {
    if {from, to} == {"KZT", "USD"} {
      assert from in {"KZT", "USD"} && to in {"KZT", "USD"};
      assert "KZT" in {from, to} && "USD" in {from, to};
    }
  }

  // ---------------------------------------------------------------- journal legs

  function External(id: string): Ledger.AccountRef {
    Ledger.AccountRef(id, "", None)
  }

  function InternalCode(code: string): Ledger.AccountRef {
    Ledger.AccountRef("", code, None)
  }

  function CashIn(currency: string): string {
    if currency == "USD" then "cash_in_usd" else "cash_in_kzt"
  }

  function FxPosition(currency: string): string {
    if currency == "USD" then "fx_position_usd" else "fx_position_kzt"
  }

  function SourceRef(t: Transfer): Ledger.AccountRef {
    if t.kind == Topup then InternalCode(CashIn(t.currency)) else External(t.from)
  }

  function Neg(x: int64): int64 {
    Wrap(-(x as int))
  }

  /** Two legs in one currency, or four that are zero in each of two. */
  function BuildPostings(t: Transfer): seq<Ledger.PostingSpec> {
    var src, dst := SourceRef(t), External(t.to);
    if t.counterAmount.None? || t.counterCurrency.None? then
      [Ledger.PostingSpec(src, Neg(t.amount), t.currency), Ledger.PostingSpec(dst, t.amount, t.currency)]
    else
      var c, cc := t.counterAmount.value, t.counterCurrency.value;
      [Ledger.PostingSpec(src, Neg(t.amount), t.currency),
       Ledger.PostingSpec(InternalCode(FxPosition(t.currency)), t.amount, t.currency),
       Ledger.PostingSpec(InternalCode(FxPosition(cc)), Neg(c), cc),
       Ledger.PostingSpec(dst, c, cc)]
  }

  function TransferRef(id: string): LedgerDomain.Reference {
    LedgerDomain.Reference("transfer", id)
  }
}

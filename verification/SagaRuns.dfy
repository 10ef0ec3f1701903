/** Runs from the empty table into the two places a transfer's promise ends: the sink, and a failure
    that leaves its reservation standing. Every step is one the services and the network can take. */
module SagaRuns {
  import opened Int64
  import opened LedgerDomain
  import opened Ledger
  import opened LedgerLaws
  import LedgerTheorems
  import opened TransferDomain
  import opened Saga
  import opened SagaTheorems
  import SagaContract

  // ---------------------------------------------------------------- one driver on one transfer

  const ID: string := "t"

  /** The transfer's row, the only driver and the ledger, at one moment of a run. */
  ghost predicate Scene(w: World, t: Transfer, d: Driver, s: State) {
    t.id == ID && ID in w.store && w.store[ID].row == t && At(w, 0) == d && w.ledger == s
  }

  lemma LoadOccurs(w: World, t: Transfer)
    requires Occurs(w) && WellFormed(w.ledger) && ID in w.store && w.store[ID].row == t && At(w, 0) == Idle
    ensures Occurs(Park(w, 0, Loaded(t)))
  {
    OccursNext(w, Load(0, ID));
  }

  /** The driver reads the row again. */
  lemma Reload(w: World, t: Transfer, s: State) returns (w': World)
    requires Occurs(w) && WellFormed(s) && Scene(w, t, Idle, s)
    ensures Occurs(w') && Scene(w', t, Loaded(t), s)
  {
    LoadOccurs(w, t);
    w' := Park(w, 0, Loaded(t));
  }

  /** A driver whose snapshot is current makes its transition. */
  lemma MoveScene(w: World, t: Transfer, d: Driver, u: Transfer, e: Trigger, s: State)
    requires Scene(w, t, d, s) && Next(t.phase, e).Some? && u == t.(holdId := u.holdId, reason := u.reason)
    ensures Scene(Move(w, 0, u, e), u.(phase := Next(t.phase, e).value), Idle, s)
  {
  }

  lemma StartOccurs(w: World, t: Transfer)
    requires Occurs(w) && WellFormed(w.ledger) && At(w, 0) == Loaded(t) && t.phase == Created
    ensures Occurs(Move(w, 0, t, EvStart))
  {
    OccursNext(w, Start(0));
  }

  lemma ValidateOccurs(w: World, t: Transfer, answers: Answers)
    requires Occurs(w) && WellFormed(w.ledger) && At(w, 0) == Loaded(t) && t.phase == Validating
    requires Judge(t, answers).Accept? && Accepted(t, Judge(t, answers)) == t
    ensures Occurs(Move(w, 0, t, EvValidated))
  {
    OccursNext(w, Validate(0, answers));
    SettleAccepts(w, t, Judge(t, answers));
  }

  lemma SettleAccepts(w: World, t: Transfer, v: Verdict)
    requires v.Accept? && Accepted(t, v) == t
    ensures Settle(w, 0, t, v) == Move(w, 0, t, EvValidated)
  {
  }

  lemma SendHoldOccurs(w: World, t: Transfer, q: Request)
    requires Occurs(w) && WellFormed(w.ledger) && At(w, 0) == Loaded(t) && t.phase == Held && t.holdId.None?
    requires q == HoldReq(t.id, SourceRef(t), t.amount, t.currency)
    ensures Occurs(Send(w, 0, AwaitHold(t), q))
  {
    OccursNext(w, SendHold(0));
  }

  ghost function Told(w: World, s: State, replies: set<Reply>): World {
    w.(ledger := s, replies := w.replies + replies)
  }

  lemma HoldRunsOccurs(w: World, q: Request, s: State, h: Uuid)
    requires Occurs(w) && WellFormed(w.ledger) && q in w.requests && q.HoldReq?
    requires PlaceHold(w.ledger, q.ref, q.amount, q.currency, TransferRef(q.id), 0, h) == (s, Ok(h))
    ensures Occurs(Told(w, s, {HoldPlaced(q.id, h)}))
  {
    OccursNext(w, Exec(q, 0, h));
  }

  lemma HoldOkOccurs(w: World, t: Transfer, u: Transfer, h: Uuid)
    requires Occurs(w) && WellFormed(w.ledger) && At(w, 0) == AwaitHold(t)
    requires HoldPlaced(t.id, h) in w.replies && u == t.(holdId := Some(h))
    ensures Occurs(Move(w, 0, u, EvPostingStarted))
  {
    OccursNext(w, HoldOk(0, h));
  }

  lemma SendPostOccurs(w: World, t: Transfer, q: Request)
    requires Occurs(w) && WellFormed(w.ledger) && At(w, 0) == Loaded(t) && t.phase == Phase.Posting
    requires q == PostReq(t.id, t.holdId, BuildPostings(t))
    ensures Occurs(Send(w, 0, AwaitPost(t), q))
  {
    OccursNext(w, SendPost(0));
  }

  lemma PostRunsOccurs(w: World, q: Request, s: State, i: nat)
    requires Occurs(w) && WellFormed(w.ledger) && q in w.requests && q.PostReq?
    requires Post(w.ledger, TransferRef(q.id), q.holdId, q.specs) == (s, Ok(i))
    ensures Occurs(Told(w, s, {PostDone(q.id)}))
  {
    OccursNext(w, Exec(q, 0, 0));
  }

  // ---------------------------------------------------------------- the ledger on the way

  /** One unit of cash paid in to one customer's account. */
  function Deposit(): Transfer {
    NewTransfer(ID, Topup, "c", "", "a", "", 1, "KZT")
  }

  function Opened(): State {
    var s := Seed();
    s.(accounts := s.accounts[4 := Account(4, "a", "", Customer, "KZT", Active)], byExternal := map["a" := 4],
       balances := s.balances[4 := Balance(0, 0, 0)])
  }

  lemma OpenedByCreate()
    ensures WellFormed(Seed()) && CreateAccount(Seed(), "a", "KZT", 4).0 == Opened()
  {
    SeedInv();
  }

  lemma OpenedInv()
    ensures Inv(Opened())
  {
    SeedInv();
    OpenedByCreate();
    CreateAccountInv(Seed(), "a", "KZT", 4);
  }

  lemma OpenedReady(t: Transfer)
    requires t == Deposit().(phase := t.phase, holdId := t.holdId)
    ensures SagaContract.Ready(t, Opened()) && SagaContract.Validated(t) && SourceRef(t) == InternalCode("cash_in_kzt")
    ensures Resolve(Opened(), SourceRef(t)) == Ok(0)
  {
  }

  function Reserved(): State {
    var s := Opened();
    s.(holds := map[0 := Hold(0, 1, "KZT", TransferRef(ID), HoldActive, 0)], holdRefs := map[TransferRef(ID) := 0],
       balances := s.balances[0 := Balance(0, 1, 0)])
  }

  lemma OpenedGrants()
    ensures GrantHold(Opened(), 0, 1, "KZT", TransferRef(ID), 0, 0) == (Reserved(), Ok(0))
  {
  }

  /** The deposit's hold on the cash account is placed. */
  lemma ReservedByHold(t: Transfer)
    requires t == Deposit().(phase := t.phase, holdId := t.holdId)
    ensures WellFormed(Opened())
    ensures PlaceHold(Opened(), SourceRef(t), t.amount, t.currency, TransferRef(ID), 0, 0) == (Reserved(), Ok(0))
  {
    OpenedInv();
    OpenedReady(t);
    OpenedGrants();
  }

  lemma ReservedInv()
    ensures Inv(Reserved())
  {
    OpenedInv();
    ReservedByHold(Deposit());
    PlaceHoldInv(Opened(), SourceRef(Deposit()), 1, "KZT", TransferRef(ID), 0, 0);
  }

  lemma ReservedReady(t: Transfer)
    requires t == Deposit().(phase := t.phase, holdId := t.holdId)
    ensures SagaContract.Ready(t, Reserved()) && SagaContract.Validated(t) && HoldFor(t, 0, Reserved())
  {
  }

  lemma LegsFitFlat(s: State, legs: seq<Posting>)
    requires WellFormed(s) && LegsKnown(s, legs) && forall a :: a in s.balances ==> s.balances[a].balance == 0
    ensures SagaContract.LegsFit(s, legs)
  {
  }

  lemma ReservedFlat()
    ensures forall a :: a in Reserved().balances ==> Reserved().balances[a].balance == 0
    ensures TransferRef(ID) !in Reserved().entryRefs && Reserved().holds[0].status == HoldActive
  {
  }

  /** On flat balances every small enough post goes through. */
  lemma FlatPosts(t: Transfer, s: State, h: Uuid)
    requires WellFormed(s) && HoldsOk(s) && HeldOk(s) && AccountsOk(s)
    requires SagaContract.Ready(t, s) && SagaContract.Validated(t)
    requires HoldFor(t, h, s) && s.holds[h].status == HoldActive && t.holdId == Some(h)
    requires TransferRef(t.id) !in s.entryRefs && forall a :: a in s.balances ==> s.balances[a].balance == 0
    ensures var (s', r) := Post(s, TransferRef(t.id), t.holdId, BuildPostings(t));
            r.Ok? && TransferRef(t.id) in s'.entryRefs
  {
    var specs := BuildPostings(t);
    SagaContract.PostSucceeds(t, s, h);
    ResolveLegsKnown(s, specs, |specs|);
    LegsFitFlat(s, ResolveLegs(s, specs, |specs|).value);
    LedgerTheorems.PostLeaves(s, TransferRef(t.id), t.holdId, specs);
  }

  /** The deposit's post goes through, and captures the hold. */
  lemma DepositPosts(t: Transfer)
    requires t == Deposit().(phase := t.phase, holdId := Some(0))
    ensures WellFormed(Reserved())
    ensures var (s, r) := Post(Reserved(), TransferRef(ID), t.holdId, BuildPostings(t));
            r.Ok? && TransferRef(ID) in s.entryRefs && WellFormed(s)
  {
    ReservedInv();
    PostInv(Reserved(), TransferRef(ID), t.holdId, BuildPostings(t));
    ReservedReady(t);
    ReservedFlat();
    FlatPosts(t, Reserved(), 0);
  }

  // ---------------------------------------------------------------- the run

  function Approving(): Answers {
    Answers(Missing, Found(AccountInfo("a", "c", "KZT", "ACTIVE")), NoRate, None, None)
  }

  lemma DepositAccepted(t: Transfer)
    requires t == Deposit().(phase := Validating)
    ensures Judge(t, Approving()).Accept? && Accepted(t, Judge(t, Approving())) == t
  {
  }

  lemma OpeningRun() returns (w: World)
    ensures Occurs(w) && w == World(map[], map[], {}, {}, Opened()) && WellFormed(Opened())
  {
    SeedInv();
    var start := World(map[], map[], {}, {}, Seed());
    InitialOccurs(start);
    OpenedByCreate();
    OpenedInv();
    OccursNext(start, Foreign(OpCreateAccount("a", "KZT", 4)));
    w := Do(start, Foreign(OpCreateAccount("a", "KZT", 4)));
  }

  ghost function Inserted(w: World, t: Transfer): World {
    w.(store := w.store[t.id := Record(t, [Hop(Created, Created)], [])])
  }

  lemma CreateOccurs(w: World, t: Transfer)
    requires Occurs(w) && WellFormed(w.ledger) && t.id != "" && t.id !in w.store
    requires t == NewTransfer(t.id, t.kind, t.customer, t.from, t.to, t.toNumber, t.amount, t.currency)
    requires ValidateSpec(t.kind, t.from, t.to, t.toNumber, t.amount, t.currency).None?
    ensures Occurs(Inserted(w, t))
  {
    OccursNext(w, Create(t.id, t.kind, t.customer, t.from, t.to, t.toNumber, t.amount, t.currency));
  }

  lemma SceneCreated() returns (w: World)
    ensures Occurs(w) && Scene(w, Deposit(), Idle, Opened())
  {
    w := OpeningRun();
    CreateOccurs(w, Deposit());
    w := Inserted(w, Deposit());
  }

  lemma SceneStarted() returns (w: World)
    ensures Occurs(w) && Scene(w, Deposit().(phase := Validating), Idle, Opened())
  {
    OpenedInv();
    var t := Deposit();
    w := SceneCreated();
    w := Reload(w, t, Opened());
    StartOccurs(w, t);
    MoveScene(w, t, Loaded(t), t, EvStart, Opened());
    w := Move(w, 0, t, EvStart);
  }

  lemma PassValidation(w: World, t: Transfer, answers: Answers, s: State) returns (w': World)
    requires Occurs(w) && WellFormed(s) && Scene(w, t, Loaded(t), s) && t.phase == Validating
    requires Judge(t, answers).Accept? && Accepted(t, Judge(t, answers)) == t
    ensures Occurs(w') && Scene(w', t.(phase := Held), Idle, s)
  {
    ValidateOccurs(w, t, answers);
    MoveScene(w, t, Loaded(t), t, EvValidated, s);
    w' := Move(w, 0, t, EvValidated);
  }

  lemma SceneHeld() returns (w: World)
    ensures Occurs(w) && Scene(w, Deposit().(phase := Held), Idle, Opened())
  {
    OpenedInv();
    var t := Deposit().(phase := Validating);
    w := SceneStarted();
    w := Reload(w, t, Opened());
    DepositAccepted(t);
    w := PassValidation(w, t, Approving(), Opened());
  }

  lemma SceneReserved() returns (w: World)
    ensures Occurs(w) && Scene(w, Deposit().(phase := Held), AwaitHold(Deposit().(phase := Held)), Reserved())
    ensures HoldPlaced(ID, 0) in w.replies
  {
    OpenedInv();
    var t := Deposit().(phase := Held);
    w := SceneHeld();
    w := Reload(w, t, Opened());
    var q := HoldReq(ID, SourceRef(t), t.amount, t.currency);
    SendHoldOccurs(w, t, q);
    w := Send(w, 0, AwaitHold(t), q);
    ReservedByHold(t);
    HoldRunsOccurs(w, q, Reserved(), 0);
    w := Told(w, Reserved(), {HoldPlaced(ID, 0)});
  }

  lemma StartPosting(w: World, t: Transfer, u: Transfer, h: Uuid, s: State) returns (w': World)
    requires Occurs(w) && WellFormed(s) && Scene(w, t, AwaitHold(t), s) && t.phase == Held
    requires HoldPlaced(t.id, h) in w.replies && u == t.(holdId := Some(h))
    ensures Occurs(w') && Scene(w', u.(phase := Phase.Posting), Idle, s)
  {
    HoldOkOccurs(w, t, u, h);
    MoveScene(w, t, AwaitHold(t), u, EvPostingStarted, s);
    w' := Move(w, 0, u, EvPostingStarted);
  }

  lemma ScenePosting() returns (w: World)
    ensures Occurs(w) && Scene(w, Deposit().(phase := Phase.Posting, holdId := Some(0)), Idle, Reserved())
  {
    ReservedInv();
    var t := Deposit().(phase := Held);
    w := SceneReserved();
    w := StartPosting(w, t, t.(holdId := Some(0)), 0, Reserved());
  }

  lemma ScenePosted() returns (w: World)
    ensures Occurs(w) && At(w, 0).AwaitPost? && At(w, 0).t.id == ID && ID in w.store
    ensures w.store[ID].row.phase == Phase.Posting && TransferRef(ID) in w.ledger.entryRefs
  {
    ReservedInv();
    var t := Deposit().(phase := Phase.Posting, holdId := Some(0));
    w := ScenePosting();
    w := Reload(w, t, Reserved());
    var q := PostReq(ID, t.holdId, BuildPostings(t));
    SendPostOccurs(w, t, q);
    w := Send(w, 0, AwaitPost(t), q);
    DepositPosts(t);
    var (s, r) := Post(Reserved(), TransferRef(ID), t.holdId, BuildPostings(t));
    PostRunsOccurs(w, q, s, r.value);
    w := Told(w, s, {PostDone(ID)});
  }

  /** The sink is reached: a deposit is created, validated, held and posted, and the ledger's success
      comes back to the driver as a refusal. */
  lemma SinkReachable()
    ensures exists w, id :: Occurs(w) && id in w.store && Sink(w.store[id].row, w.ledger)
  {
    var w := ScenePosted();
    OccursInv(w);
    SinkEntered(w, 0, "refused");
    OccursNext(w, PostRefused(0, "refused"));
    var v := Do(w, PostRefused(0, "refused"));
    assert Occurs(v) && ID in v.store && Sink(v.store[ID].row, v.ledger);
  }

  // ---------------------------------------------------------------- a failure that leaves its hold

  /** The transfer failed, and the hold under its reference still reserves its amount. */
  ghost predicate Orphaned(w: World, id: string, h: Uuid) {
    && id in w.store && w.store[id].row.phase == Failed
    && h in w.ledger.holds && w.ledger.holds[h].reference == TransferRef(id) && w.ledger.holds[h].status == HoldActive
  }

  lemma ClaimScene(w: World, t: Transfer, s: State)
    requires Occurs(w) && WellFormed(s) && Scene(w, t, Idle, s) && t.phase == Held
    ensures Occurs(Claimed(w, ID)) && Scene(Claimed(w, ID), t.(attempts := t.attempts + 1), Idle, s)
  {
    OccursNext(w, Claim(ID));
  }

  /** Recovery claims the parked transfer as often as it takes. */
  lemma {:induction false} Claims(w: World, t: Transfer, s: State, n: nat) returns (w': World)
    requires Occurs(w) && WellFormed(s) && Scene(w, t, Idle, s) && t.phase == Held
    ensures Occurs(w') && Scene(w', t.(attempts := t.attempts + n), Idle, s)
  {
    w' := w;
    if n > 0 {
      w' := Claims(w, t, s, n - 1);
      ClaimScene(w', t.(attempts := t.attempts + n - 1), s);
      w' := Claimed(w', ID);
    }
  }

  /** The answer to the hold never arrives, and the driver leaves the transfer parked. */
  lemma LeaveScene(w: World, t: Transfer, d: Driver, s: State)
    requires Occurs(w) && WellFormed(s) && Scene(w, t, d, s)
    ensures Occurs(Park(w, 0, Idle)) && Scene(Park(w, 0, Idle), t, Idle, s)
  {
    OccursNext(w, Leave(0));
  }

  lemma RecoverScene(w: World, t: Transfer, s: State)
    requires Occurs(w) && WellFormed(s) && Scene(w, t, Idle, s)
    ensures Occurs(Park(w, 0, Recovering(t))) && Scene(Park(w, 0, Recovering(t)), t, Recovering(t), s)
  {
    OccursNext(w, RecoverLoad(0, ID));
  }

  lemma ExhaustScene(w: World, t: Transfer, u: Transfer, s: State)
    requires Occurs(w) && WellFormed(s) && Scene(w, t, Recovering(t), s) && t.phase == Held && t.attempts > MAX_ATTEMPTS
    requires u == t.(reason := Some("recovery_exhausted"))
    ensures Occurs(Move(w, 0, u, EvRecoveryExhausted))
    ensures Scene(Move(w, 0, u, EvRecoveryExhausted), u.(phase := Releasing), Idle, s)
  {
    OccursNext(w, Exhaust(0));
    MoveScene(w, t, Recovering(t), u, EvRecoveryExhausted, s);
  }

  lemma ReleaseNothingScene(w: World, t: Transfer, s: State)
    requires Occurs(w) && WellFormed(s) && Scene(w, t, Loaded(t), s) && t.phase == Releasing && t.holdId.None?
    ensures Occurs(Move(w, 0, t, EvReleased)) && Scene(Move(w, 0, t, EvReleased), t.(phase := Failed), Idle, s)
  {
    OccursNext(w, ReleaseNothing(0));
    MoveScene(w, t, Loaded(t), t, EvReleased, s);
  }

  lemma SceneParked() returns (w: World, t: Transfer)
    ensures Occurs(w) && Scene(w, t, Idle, Reserved()) && t.phase == Held && t.holdId.None? && t.attempts == MAX_ATTEMPTS + 1
  {
    ReservedInv();
    t := Deposit().(phase := Held);
    w := SceneReserved();
    LeaveScene(w, t, AwaitHold(t), Reserved());
    w := Claims(Park(w, 0, Idle), t, Reserved(), MAX_ATTEMPTS + 1);
    t := t.(attempts := MAX_ATTEMPTS + 1);
  }

  /** Nobody lies in this run: the hold is placed, its answer is lost, recovery runs out of attempts,
      and since the row names no hold there is nothing to release. */
  lemma FailedLeavesHold() returns (w: World)
    ensures Occurs(w) && Orphaned(w, ID, 0) && w.store[ID].row.holdId.None?
  {
    ReservedInv();
    var t;
    w, t := SceneParked();
    RecoverScene(w, t, Reserved());
    w := Park(w, 0, Recovering(t));
    var u := t.(reason := Some("recovery_exhausted"));
    ExhaustScene(w, t, u, Reserved());
    w := Reload(Move(w, 0, u, EvRecoveryExhausted), u.(phase := Releasing), Reserved());
    ReleaseNothingScene(w, u.(phase := Releasing), Reserved());
    w := Move(w, 0, u.(phase := Releasing), EvReleased);
  }

  /** A failed transfer can leave its reservation standing exactly if its row names no hold. */
  lemma OrphanedIffUnnamed(named: Option<Uuid>)
    ensures (exists w, id, h :: Occurs(w) && Orphaned(w, id, h) && w.store[id].row.holdId == named) <==> named.None?
  {
    if named.None? {
      var w := FailedLeavesHold();
      assert Occurs(w) && Orphaned(w, ID, 0) && w.store[ID].row.holdId == named;
    } else {
      forall w, id, h | Occurs(w) && Orphaned(w, id, h) ensures w.store[id].row.holdId.None? {
        FailedHold(w, id, h);
      }
    }
  }
}

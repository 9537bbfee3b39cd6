/**
 * What every run keeps about incoming messages: none is lost or made up, each is checked and
 * decrypted at most once, and each waits exactly as long as its attempts say.
 */
module MessageLife {
  import opened Basics
  import opened Codecs
  import opened Rooms
  import opened Storage
  import opened Envelopes
  import opened CoordinatorSpec

  // ---- Back-off ----

  /** All timers from the first attempt to this one. */
  function TotalWait(attempts: nat): nat {
    if attempts == 0 then 0 else TotalWait(attempts - 1) + Delay(attempts)
  }

  /** The schedule without recursion: doubling for nine attempts, then ten minutes each. */
  function ClosedWait(attempts: nat): int {
    if attempts <= 9 then Power2(attempts + 1) - 2 else 1022 + 600 * (attempts - 9)
  }

  lemma {:induction false} WaitInClosedForm(attempts: nat)
    ensures TotalWait(attempts) == ClosedWait(attempts)
  {
    if attempts > 0 {
      WaitInClosedForm(attempts - 1);
    }
    if attempts == 10 {
      assert Power2(10) == 1024 by { assert Power2(5) == 32; }
    }
  }

  lemma WaitAtTheEnd(attempts: nat)
    requires attempts == MAX_ATTEMPTS
    ensures TotalWait(attempts) == 15422
  {
    WaitInClosedForm(attempts);
  }

  /** A message that exhausts all attempts has waited a little over four and a quarter hours. */
  lemma LongestWait()
    ensures TotalWait(MAX_ATTEMPTS) == 15422
  {
    WaitAtTheEnd(MAX_ATTEMPTS);
  }

  // ---- The invariant ----

  /** `plain` is the validated, decrypted form of `original`. */
  ghost predicate Clears(cfg: Config, tree: Tree, original: WireMessage, plain: WireMessage) {
    Check(cfg, tree, original) == Pass && MaybeDecrypt(cfg.codec, cfg.sk, original) == Some(plain)
  }

  /** The same relation as a value, so that the bookkeeping below need not look inside it. */
  type Clearing = (WireMessage, WireMessage) -> bool

  ghost function ClearingOf(cfg: Config, tree: Tree): Clearing {
    (original, plain) => Clears(cfg, tree, original, plain)
  }

  /** The message came out of check and decryption of the received message with this number. */
  ghost predicate IsCleared(
      clears: Clearing, arrived: seq<WireMessage>, cleared: seq<nat>, origin: nat, msg: WireMessage) {
    origin < |arrived| && origin in cleared && clears(arrived[origin], msg)
  }

  /** The message is the received one, untouched, and has never been through the check. */
  ghost predicate IsUntouched(arrived: seq<WireMessage>, cleared: seq<nat>, origin: nat, msg: WireMessage) {
    origin < |arrived| && origin !in cleared && msg == arrived[origin]
  }

  ghost predicate RetryOk(clears: Clearing, arrived: seq<WireMessage>, cleared: seq<nat>, r: Scheduled) {
    && 1 <= r.attempts <= MAX_ATTEMPTS
    && r.waited == TotalWait(r.attempts)
    && (r.checkPassed ==> IsCleared(clears, arrived, cleared, r.origin, r.message))
    && (!r.checkPassed ==> IsUntouched(arrived, cleared, r.origin, r.message))
  }

  ghost predicate PendingOk(
      clears: Clearing, arrived: seq<WireMessage>, cleared: seq<nat>, pending: multiset<Scheduled>) {
    forall r | r in pending :: RetryOk(clears, arrived, cleared, r)
  }

  /** At most one unchecked copy of a received message waits anywhere. */
  ghost predicate UncheckedOnce(pending: multiset<Scheduled>) {
    forall r | r in pending && !r.checkPassed :: pending[r] == 1 && NoUncheckedCopy(pending - multiset{r}, r.origin)
  }

  ghost predicate NoUncheckedCopy(pending: multiset<Scheduled>, origin: nat) {
    forall r | r in pending && !r.checkPassed :: r.origin != origin
  }

  ghost predicate DeliveriesOk(
      clears: Clearing, arrived: seq<WireMessage>, cleared: seq<nat>, deliveries: seq<Delivery>) {
    forall d | d in deliveries :: IsCleared(clears, arrived, cleared, d.origin, d.message)
  }

  ghost predicate ClearedOk(arrived: seq<WireMessage>, cleared: seq<nat>) {
    NoDuplicates(cleared) && forall i | 0 <= i < |cleared| :: cleared[i] < |arrived|
  }

  /** Nothing lost, nothing made up; `inHand` messages are being handled right now. */
  ghost predicate Conserved(l: Ledger, inHand: nat) {
    && |l.arrived| + l.bounces == l.dropped + l.failed + |l.pending| + l.routed + inHand
    && l.routed <= |l.deliveries|
  }

  ghost predicate LedgerOk(clears: Clearing, l: Ledger, inHand: nat) {
    && Conserved(l, inHand)
    && PendingOk(clears, l.arrived, l.cleared, l.pending)
    && UncheckedOnce(l.pending)
    && ClearedOk(l.arrived, l.cleared)
    && DeliveriesOk(clears, l.arrived, l.cleared, l.deliveries)
  }

  // ---- Each piece of a handler ----

  lemma AddPending(
      clears: Clearing, arrived: seq<WireMessage>, cleared: seq<nat>, pending: multiset<Scheduled>, r: Scheduled)
    requires PendingOk(clears, arrived, cleared, pending) && UncheckedOnce(pending)
    requires RetryOk(clears, arrived, cleared, r)
    requires r.checkPassed || NoUncheckedCopy(pending, r.origin)
    ensures PendingOk(clears, arrived, cleared, pending + multiset{r}) && UncheckedOnce(pending + multiset{r})
  {
    var pending' := pending + multiset{r};
    forall x | x in pending' && !x.checkPassed
      ensures pending'[x] == 1 && NoUncheckedCopy(pending' - multiset{x}, x.origin)
    {
      if x == r {
        assert x !in pending;
        assert pending' - multiset{x} == pending;
      } else {
        assert pending[x] == 1 && NoUncheckedCopy(pending - multiset{x}, x.origin);
        forall y | y in pending' - multiset{x} && !y.checkPassed
          ensures y.origin != x.origin
        {
          assert y == r || y in pending - multiset{x};
        }
      }
    }
  }

  lemma RemovePending(
      clears: Clearing, arrived: seq<WireMessage>, cleared: seq<nat>, pending: multiset<Scheduled>, r: Scheduled)
    requires PendingOk(clears, arrived, cleared, pending) && UncheckedOnce(pending) && r in pending
    ensures PendingOk(clears, arrived, cleared, pending - multiset{r}) && UncheckedOnce(pending - multiset{r})
    ensures !r.checkPassed ==> NoUncheckedCopy(pending - multiset{r}, r.origin)
  {
    var pending' := pending - multiset{r};
    forall x | x in pending' && !x.checkPassed
      ensures pending'[x] == 1 && NoUncheckedCopy(pending' - multiset{x}, x.origin)
    {
      assert pending[x] == 1 && NoUncheckedCopy(pending - multiset{x}, x.origin);
      assert forall y | y in pending' - multiset{x} :: y in pending - multiset{x};
    }
  }

  /** What holds of retries and deliveries survives a new arrival and a newly cleared message. */
  lemma ExtendHistories(clears: Clearing, l: Ledger, arrivals: seq<WireMessage>, clearances: seq<nat>)
    requires PendingOk(clears, l.arrived, l.cleared, l.pending)
        && DeliveriesOk(clears, l.arrived, l.cleared, l.deliveries)
    requires forall i | 0 <= i < |clearances| :: NoUncheckedCopy(l.pending, clearances[i])
    ensures PendingOk(clears, l.arrived + arrivals, l.cleared + clearances, l.pending)
    ensures DeliveriesOk(clears, l.arrived + arrivals, l.cleared + clearances, l.deliveries)
  {
    forall r | r in l.pending
      ensures RetryOk(clears, l.arrived + arrivals, l.cleared + clearances, r)
    {
      assert RetryOk(clears, l.arrived, l.cleared, r);
    }
    forall d | d in l.deliveries
      ensures IsCleared(clears, l.arrived + arrivals, l.cleared + clearances, d.origin, d.message)
    {
      assert IsCleared(clears, l.arrived, l.cleared, d.origin, d.message);
    }
  }

  lemma RetryKeeps(
      clears: Clearing, l: Ledger, origin: nat, msg: WireMessage, attempts: U16, checkPassed: bool, waited: nat)
    requires LedgerOk(clears, l, 1)
    requires 1 <= attempts <= MAX_ATTEMPTS + 1 && waited == TotalWait(attempts - 1)
    requires if checkPassed then IsCleared(clears, l.arrived, l.cleared, origin, msg)
             else IsUntouched(l.arrived, l.cleared, origin, msg) && NoUncheckedCopy(l.pending, origin)
    ensures LedgerOk(clears, Retry(l, origin, msg, attempts, checkPassed, waited), 0)
  {
    if attempts <= MAX_ATTEMPTS {
      AddPending(clears, l.arrived, l.cleared, l.pending,
                 Scheduled(origin, msg, attempts, checkPassed, waited + Delay(attempts)));
    }
  }

  lemma HandOversAreOf(c: Codec, rs: Runners, origin: nat, msg: WireMessage)
    ensures forall d | d in HandOvers(c, rs, origin, msg) :: d.origin == origin && d.message == msg
  {
  }

  lemma SettleKeeps(
      clears: Clearing, l: Ledger, taken: seq<Delivery>, origin: nat, msg: WireMessage, attempts: U16, waited: nat)
    requires LedgerOk(clears, l, 1)
    requires attempts <= MAX_ATTEMPTS && waited == TotalWait(attempts)
    requires IsCleared(clears, l.arrived, l.cleared, origin, msg)
    requires forall d | d in taken :: d.origin == origin && d.message == msg
    ensures LedgerOk(clears, Settle(l, taken, origin, msg, attempts, waited), 0)
  {
    if taken == [] {
      RetryKeeps(clears, l, origin, msg, attempts + 1, true, waited);
    } else {
      assert DeliveriesOk(clears, l.arrived, l.cleared, l.deliveries + taken);
    }
  }

  lemma RouteKeeps(
      c: Codec, clears: Clearing, rs: Runners, l: Ledger, origin: nat, msg: WireMessage, attempts: U16, waited: nat)
    requires LedgerOk(clears, l, 1)
    requires attempts <= MAX_ATTEMPTS && waited == TotalWait(attempts)
    requires IsCleared(clears, l.arrived, l.cleared, origin, msg)
    ensures LedgerOk(clears, Route(c, rs, l, origin, msg, attempts, waited), 0)
  {
    HandOversAreOf(c, rs, origin, msg);
    SettleKeeps(clears, l, HandOvers(c, rs, origin, msg), origin, msg, attempts, waited);
  }

  /** Passing the check marks the message as cleared and takes it in hand as such. */
  lemma ClearKeeps(clears: Clearing, l: Ledger, origin: nat, plain: WireMessage)
    requires LedgerOk(clears, l, 1)
    requires origin < |l.arrived| && origin !in l.cleared && NoUncheckedCopy(l.pending, origin)
    requires clears(l.arrived[origin], plain)
    ensures LedgerOk(clears, l.(cleared := l.cleared + [origin]), 1)
    ensures IsCleared(clears, l.arrived, l.cleared + [origin], origin, plain)
  {
    ExtendHistories(clears, l, [], [origin]);
    assert l.arrived + [] == l.arrived;
  }

  lemma TakeArrivalKeeps(clears: Clearing, l: Ledger, msg: WireMessage)
    requires LedgerOk(clears, l, 0)
    ensures var l' := l.(arrived := l.arrived + [msg]);
            && LedgerOk(clears, l', 1)
            && IsUntouched(l'.arrived, l'.cleared, |l.arrived|, msg) && NoUncheckedCopy(l'.pending, |l.arrived|)
  {
    ExtendHistories(clears, l, [msg], []);
    assert l.cleared + [] == l.cleared;
    forall r | r in l.pending && !r.checkPassed
      ensures r.origin != |l.arrived|
    {
      assert RetryOk(clears, l.arrived, l.cleared, r);
    }
  }

  lemma TakeRetryKeeps(clears: Clearing, l: Ledger, r: Scheduled)
    requires LedgerOk(clears, l, 0) && r in l.pending
    ensures var l' := l.(pending := l.pending - multiset{r});
            && LedgerOk(clears, l', 1)
            && RetryOk(clears, l'.arrived, l'.cleared, r)
            && (!r.checkPassed ==> NoUncheckedCopy(l'.pending, r.origin))
  {
    RemovePending(clears, l.arrived, l.cleared, l.pending, r);
  }

  // ---- Each handler ----

  lemma {:induction false} ClearAndRouteKeeps(
      c: Codec, clears: Clearing, rs: Runners, l: Ledger, origin: nat, plain: WireMessage, attempts: U16, waited: nat)
    requires LedgerOk(clears, l, 1)
    requires origin < |l.arrived| && origin !in l.cleared && NoUncheckedCopy(l.pending, origin)
    requires clears(l.arrived[origin], plain)
    requires attempts <= MAX_ATTEMPTS && waited == TotalWait(attempts)
    ensures LedgerOk(clears, Route(c, rs, l.(cleared := l.cleared + [origin]), origin, plain, attempts, waited), 0)
  {
    ClearKeeps(clears, l, origin, plain);
    RouteKeeps(c, clears, rs, l.(cleared := l.cleared + [origin]), origin, plain, attempts, waited);
  }

  lemma {:induction false} AdmitKeeps(
      c: Codec, clears: Clearing, rs: Runners, l: Ledger, origin: nat, msg: WireMessage, verdict: Verdict,
      plain: Option<WireMessage>)
    requires LedgerOk(clears, l, 1)
    requires IsUntouched(l.arrived, l.cleared, origin, msg) && NoUncheckedCopy(l.pending, origin)
    requires verdict.Pass? && plain.Some? ==> clears(msg, plain.value)
    ensures var l' := Admit(c, rs, l, origin, msg, verdict, plain);
            l'.Some? ==> LedgerOk(clears, l'.value, 0)
  {
    if verdict.Refused? {
      RetryKeeps(clears, l, origin, msg, 1, false, 0);
    } else if verdict.Pass? && plain.Some? {
      ClearAndRouteKeeps(c, clears, rs, l, origin, plain.value, 0, 0);
    }
  }

  lemma {:induction false} ArriveKeeps(cfg: Config, tree: Tree, rs: Runners, l: Ledger, msg: WireMessage)
    requires LedgerOk(ClearingOf(cfg, tree), l, 0)
    ensures var l' := Arrive(cfg, tree, rs, l, msg);
            l'.Some? ==> LedgerOk(ClearingOf(cfg, tree), l'.value, 0)
  {
    var clears := ClearingOf(cfg, tree);
    TakeArrivalKeeps(clears, l, msg);
    AdmitKeeps(cfg.codec, clears, rs, l.(arrived := l.arrived + [msg]), |l.arrived|, msg,
               Check(cfg, tree, msg), MaybeDecrypt(cfg.codec, cfg.sk, msg));
  }

  /** A failed recheck queues the message as it was. */
  lemma RequeueKeeps(clears: Clearing, l: Ledger, r: Scheduled)
    requires LedgerOk(clears, l, 1)
    requires !r.checkPassed && RetryOk(clears, l.arrived, l.cleared, r) && NoUncheckedCopy(l.pending, r.origin)
    ensures LedgerOk(clears, Retry(l, r.origin, r.message, Truncate16(r.attempts + 1), false, r.waited), 0)
  {
    assert Truncate16(r.attempts + 1) == r.attempts + 1;
    RetryKeeps(clears, l, r.origin, r.message, r.attempts + 1, false, r.waited);
  }

  lemma {:induction false} RecheckKeeps(
      c: Codec, clears: Clearing, rs: Runners, l: Ledger, r: Scheduled, verdict: Verdict, plain: Option<WireMessage>)
    requires LedgerOk(clears, l, 1)
    requires !r.checkPassed && RetryOk(clears, l.arrived, l.cleared, r) && NoUncheckedCopy(l.pending, r.origin)
    requires verdict.Pass? && plain.Some? ==> clears(r.message, plain.value)
    ensures var l' := Recheck(c, rs, l, r, verdict, plain);
            l'.Some? ==> LedgerOk(clears, l'.value, 0)
  {
    if verdict.Pass? && plain.Some? {
      ClearAndRouteKeeps(c, clears, rs, l, r.origin, plain.value, r.attempts, r.waited);
    } else {
      RequeueKeeps(clears, l, r);
    }
  }

  lemma {:induction false} FireKeeps(cfg: Config, tree: Tree, rs: Runners, l: Ledger, r: Scheduled)
    requires LedgerOk(ClearingOf(cfg, tree), l, 0) && r in l.pending
    ensures var l' := Fire(cfg, tree, rs, l, r);
            l'.Some? ==> LedgerOk(ClearingOf(cfg, tree), l'.value, 0)
  {
    var clears := ClearingOf(cfg, tree);
    var l1 := l.(pending := l.pending - multiset{r});
    TakeRetryKeeps(clears, l, r);
    if r.checkPassed {
      RouteKeeps(cfg.codec, clears, rs, l1, r.origin, r.message, r.attempts, r.waited);
    } else {
      RecheckKeeps(cfg.codec, clears, rs, l1, r, Check(cfg, tree, r.message),
          MaybeDecrypt(cfg.codec, cfg.sk, r.message));
    }
  }

  lemma BounceKeeps(cfg: Config, tree: Tree, l: Ledger, d: Delivery)
    requires LedgerOk(ClearingOf(cfg, tree), l, 0) && d in l.deliveries
    ensures LedgerOk(ClearingOf(cfg, tree), Bounce(l, d), 0)
  {
    RetryKeeps(ClearingOf(cfg, tree), l.(bounces := l.bounces + 1), d.origin, d.message, 1, true, 0);
  }

  // ---- First-write-wins makes a passed check last ----

  ghost predicate Grows(tree: Tree, tree': Tree) {
    forall key | key in tree :: key in tree' && tree'[key] == tree[key]
  }

  lemma CheckLasts(cfg: Config, tree: Tree, tree': Tree, msg: WireMessage)
    requires Grows(tree, tree') && Check(cfg, tree, msg) == Pass
    ensures Check(cfg, tree', msg) == Pass
  {
    var groupId := ExtractGroupId(msg.room).value;
    assert groupId in tree;
    assert GroupAt(tree', groupId) == GroupAt(tree, groupId);
  }

  lemma GrowthKeeps(cfg: Config, tree: Tree, tree': Tree, l: Ledger)
    requires Grows(tree, tree') && LedgerOk(ClearingOf(cfg, tree), l, 0)
    ensures LedgerOk(ClearingOf(cfg, tree'), l, 0)
  {
    var was, now := ClearingOf(cfg, tree), ClearingOf(cfg, tree');
    forall original, plain | was(original, plain)
      ensures now(original, plain)
    {
      CheckLasts(cfg, tree, tree', original);
    }
    forall r | r in l.pending
      ensures RetryOk(now, l.arrived, l.cleared, r)
    {
      assert RetryOk(was, l.arrived, l.cleared, r);
    }
    forall d | d in l.deliveries
      ensures IsCleared(now, l.arrived, l.cleared, d.origin, d.message)
    {
      assert IsCleared(was, l.arrived, l.cleared, d.origin, d.message);
    }
  }

  ghost predicate IsMessageEvent(ev: Event) {
    ev.Incoming? || ev.TimerFires? || ev.OutOfOrder?
  }

  /** Message events touch the ledger and nothing else. */
  lemma MessageEventsTouchLedgerOnly(cfg: Config, s: State, ev: Event)
    requires Enabled(s, ev) && IsMessageEvent(ev)
    ensures var s' := Step(cfg, s, ev); s' == s.(ledger := s'.ledger, alive := s'.alive)
  {
    match ev
    case Incoming(msg) => var _ := Arrive(cfg, s.tree, s.runners, s.ledger, msg);
    case TimerFires(r) => var _ := Fire(cfg, s.tree, s.runners, s.ledger, r);
    case OutOfOrder(_) =>
  }

  lemma SignWithGrowsTree(cfg: Config, s: State, req: SignRequest, stored: StoredShare, machineStarts: bool)
    ensures SignWith(cfg, s, req, stored, machineStarts).ledger == s.ledger
    ensures Grows(s.tree, SignWith(cfg, s, req, stored, machineStarts).tree)
  {
  }

  /** All other events leave the ledger alone and only add to the database. */
  lemma OtherEventsGrowTree(cfg: Config, s: State, ev: Event)
    requires Enabled(s, ev) && !IsMessageEvent(ev)
    ensures Step(cfg, s, ev).ledger == s.ledger
    ensures Grows(s.tree, Step(cfg, s, ev).tree)
  {
    match ev
    case SignRequested(req, machineStarts) =>
      var stored := ShareAt(cfg.codec, cfg.sk, s.tree, req.publicKey);
      if stored.Some? {
        SignWithGrowsTree(cfg, Use(s, req.requestId), req, stored.value, machineStarts);
      }
    case KeygenRequested(req, machineStarts) =>
    case KeygenFinished(room, key, nonce) =>
      var task := s.history.waiting.keygen[room];
      assert Grows(s.tree, WithShare(cfg.codec, s.tree, StoredShare(task.request.participants, cfg.Own(), key), nonce));
    case _ =>
  }

  lemma {:induction false} StepKeepsLedger(cfg: Config, s: State, ev: Event)
    requires Enabled(s, ev) && LedgerOk(ClearingOf(cfg, s.tree), s.ledger, 0)
    ensures var s' := Step(cfg, s, ev); LedgerOk(ClearingOf(cfg, s'.tree), s'.ledger, 0)
  {
    match ev
    case Incoming(msg) => ArriveKeeps(cfg, s.tree, s.runners, s.ledger, msg);
    case TimerFires(r) => FireKeeps(cfg, s.tree, s.runners, s.ledger, r);
    case OutOfOrder(d) => BounceKeeps(cfg, s.tree, s.ledger, d);
    case _ =>
      OtherEventsGrowTree(cfg, s, ev);
      GrowthKeeps(cfg, s.tree, Step(cfg, s, ev).tree, s.ledger);
  }

  // ---- Histories only grow ----

  ghost predicate Extends(l: Ledger, l': Ledger) {
    l.arrived <= l'.arrived && l.cleared <= l'.cleared && l.deliveries <= l'.deliveries
  }

  lemma RouteExtends(c: Codec, rs: Runners, l: Ledger, origin: nat, msg: WireMessage, attempts: U16, waited: nat)
    ensures Extends(l, Route(c, rs, l, origin, msg, attempts, waited))
  {
    var taken := HandOvers(c, rs, origin, msg);
    assert Extends(l, Settle(l, taken, origin, msg, attempts, waited));
  }

  lemma AdmitExtends(
      c: Codec, rs: Runners, l: Ledger, origin: nat, msg: WireMessage, verdict: Verdict, plain: Option<WireMessage>)
    ensures var l' := Admit(c, rs, l, origin, msg, verdict, plain); l'.Some? ==> Extends(l, l'.value)
  {
    if plain.Some? {
      RouteExtends(c, rs, l.(cleared := l.cleared + [origin]), origin, plain.value, 0, 0);
    }
  }

  lemma RecheckExtends(c: Codec, rs: Runners, l: Ledger, r: Scheduled, verdict: Verdict, plain: Option<WireMessage>)
    ensures var l' := Recheck(c, rs, l, r, verdict, plain); l'.Some? ==> Extends(l, l'.value)
  {
    if plain.Some? {
      RouteExtends(c, rs, l.(cleared := l.cleared + [r.origin]), r.origin, plain.value, r.attempts, r.waited);
    }
  }

  lemma StepExtends(cfg: Config, s: State, ev: Event)
    requires Enabled(s, ev)
    ensures Extends(s.ledger, Step(cfg, s, ev).ledger)
  {
    var c, rs, l := cfg.codec, s.runners, s.ledger;
    match ev
    case Incoming(msg) =>
      AdmitExtends(c, rs, l.(arrived := l.arrived + [msg]), |l.arrived|, msg, Check(cfg, s.tree, msg),
          MaybeDecrypt(c, cfg.sk, msg));
    case TimerFires(r) =>
      var l1 := l.(pending := l.pending - multiset{r});
      RouteExtends(c, rs, l1, r.origin, r.message, r.attempts, r.waited);
      RecheckExtends(c, rs, l1, r, Check(cfg, s.tree, r.message), MaybeDecrypt(c, cfg.sk, r.message));
    case OutOfOrder(_) =>
    case _ => OtherEventsGrowTree(cfg, s, ev);
  }
}

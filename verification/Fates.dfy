/**
 * What becomes of each thing that reaches the coordinator, said of the state before and after and
 * of nothing in between: every mail with all its outcomes, and who a hand-over can come from.
 */
module Fates {
  import opened Basics
  import opened Codecs
  import opened Rooms
  import opened Groups
  import opened Storage
  import opened Envelopes
  import opened CoordinatorSpec
  import opened MessageLife
  import opened Routing
  import opened CoordinatorTheorems
  import opened Conservation

  // ---- Where a message stands ----

  /** The sender is in the group on file for the room, and the payload is readable. */
  ghost predicate Vouched(cfg: Config, tree: Tree, msg: WireMessage) {
    msg.senderPublicKey in FiledFor(tree, msg.room) && cfg.codec.parseGeneric(msg.payload).Some?
  }

  function ReceiverOf(c: Codec, msg: WireMessage): Option<U16> {
    match c.parseGeneric(msg.payload)
    case Some(m) => m.receiver
    case None => None
  }

  /** For all, or for this node's own place in the group. */
  ghost predicate IsMine(cfg: Config, tree: Tree, msg: WireMessage) {
    var receiver, keys := ReceiverOf(cfg.codec, msg), FiledFor(tree, msg.room);
    receiver.Some? ==> cfg.Own() in keys && receiver == OwnIndex(keys, cfg.Own())
  }

  /** Addressed within a group that this node is not in; the node then panics. */
  ghost predicate IsMisfiled(cfg: Config, tree: Tree, msg: WireMessage) {
    ReceiverOf(cfg.codec, msg).Some? && cfg.Own() !in FiledFor(tree, msg.room)
  }

  lemma CheckSays(cfg: Config, s: State, msg: WireMessage)
    requires NodeOk(cfg, AnyKeys(), s)
    ensures Check(cfg, s.tree, msg).Refused? <==> !Vouched(cfg, s.tree, msg)
    ensures Check(cfg, s.tree, msg).Panics? <==> Vouched(cfg, s.tree, msg) && IsMisfiled(cfg, s.tree, msg)
    ensures Check(cfg, s.tree, msg).Pass? <==> Vouched(cfg, s.tree, msg) && IsMine(cfg, s.tree, msg)
  {
    var keys := FiledFor(s.tree, msg.room);
    assert ExtractGroupId(msg.room).Ok? && GroupAt(s.tree, ExtractGroupId(msg.room).value).Some? ==>
        GroupAt(s.tree, ExtractGroupId(msg.room).value).value.ownPublicKey == cfg.Own();
    assert OwnIndex(keys, cfg.Own()).None? <==> cfg.Own() !in keys;
  }

  // ---- What it is handed to ----

  /** These hand-overs go to every runner in the room that can read the message, once each, and to nobody else. */
  ghost predicate GivenToTakers(c: Codec, rs: Runners, origin: nat, msg: WireMessage, given: seq<Delivery>) {
    && (forall d | d in given ::
          && Takes(c, rs, d.kind, msg)
          && d == Delivery(origin, d.kind, TaskAt(rs, d.kind, msg.room).value.i, msg))
    && (forall kind | Takes(c, rs, kind, msg) :: exists d :: d in given && d.kind == kind)
    && (forall i, j | 0 <= i < j < |given| :: given[i].kind != given[j].kind)
  }

  ghost predicate Taken(c: Codec, rs: Runners, msg: WireMessage) {
    exists kind :: Takes(c, rs, kind, msg)
  }

  lemma HandOversAreGiven(c: Codec, rs: Runners, origin: nat, msg: WireMessage)
    ensures GivenToTakers(c, rs, origin, msg, HandOvers(c, rs, origin, msg))
    ensures HandOvers(c, rs, origin, msg) != [] <==> Taken(c, rs, msg)
  {
    var given := HandOvers(c, rs, origin, msg);
    forall kind | Takes(c, rs, kind, msg)
      ensures exists d :: d in given && d.kind == kind
    {
      var d := Delivery(origin, kind, TaskAt(rs, kind, msg.room).value.i, msg);
      assert HandOver(c, rs, kind, origin, msg) == [d];
      assert d in given;
    }
  }

  /** The message was handed to its takers, and nothing else of the ledger changed. */
  ghost predicate Given(c: Codec, rs: Runners, l: Ledger, origin: nat, msg: WireMessage, l': Ledger) {
    && l.deliveries <= l'.deliveries
    && GivenToTakers(c, rs, origin, msg, l'.deliveries[|l.deliveries|..])
    && l' == l.(deliveries := l'.deliveries, routed := l.routed + 1)
  }

  // ---- Arrivals ----

  ghost predicate AdmittedFate(cfg: Config, s: State, msg: WireMessage, plain: WireMessage, l': Ledger) {
    var origin := |s.ledger.arrived|;
    var l := s.ledger.(arrived := s.ledger.arrived + [msg], cleared := s.ledger.cleared + [origin]);
    if Taken(cfg.codec, s.runners, plain) then Given(cfg.codec, s.runners, l, origin, plain, l')
    else l' == l.(pending := l.pending + multiset{Scheduled(origin, plain, 1, true, 2)})
  }

  /** A message of a foreign group, or for another party, is dropped; an unvouched one waits two seconds as it is. */
  ghost predicate ArrivalFate(cfg: Config, s: State, msg: WireMessage, s': State) {
    var c, l := cfg.codec, s.ledger.(arrived := s.ledger.arrived + [msg]);
    if !Contains(msg.room, Prefix(cfg.Own())) then s' == s.(ledger := l.(dropped := l.dropped + 1))
    else if !Vouched(cfg, s.tree, msg) then
      s' == s.(ledger := l.(pending := l.pending + multiset{Scheduled(|s.ledger.arrived|, msg, 1, false, 2)}))
    else if IsMisfiled(cfg, s.tree, msg) then s' == s.(alive := false)
    else if !IsMine(cfg, s.tree, msg) then s' == s.(ledger := l.(dropped := l.dropped + 1))
    else if forall plain :: !IsOpenedForm(c, cfg.sk, msg, plain) then s' == s.(ledger := l.(failed := l.failed + 1))
    else
      s' == s.(ledger := s'.ledger) &&
      exists plain :: IsOpenedForm(c, cfg.sk, msg, plain) && AdmittedFate(cfg, s, msg, plain, s'.ledger)
  }

  lemma RouteGives(c: Codec, rs: Runners, l: Ledger, origin: nat, msg: WireMessage, attempts: U16, waited: nat)
    requires Taken(c, rs, msg)
    ensures Given(c, rs, l, origin, msg, Route(c, rs, l, origin, msg, attempts, waited))
  {
    HandOversAreGiven(c, rs, origin, msg);
    var l' := Route(c, rs, l, origin, msg, attempts, waited);
    assert l'.deliveries[|l.deliveries|..] == HandOvers(c, rs, origin, msg);
  }

  lemma AdmittedHasFate(cfg: Config, s: State, msg: WireMessage, plain: WireMessage)
    ensures var origin := |s.ledger.arrived|;
            var l := s.ledger.(arrived := s.ledger.arrived + [msg], cleared := s.ledger.cleared + [origin]);
            AdmittedFate(cfg, s, msg, plain, Route(cfg.codec, s.runners, l, origin, plain, 0, 0))
  {
    var origin := |s.ledger.arrived|;
    var l := s.ledger.(arrived := s.ledger.arrived + [msg], cleared := s.ledger.cleared + [origin]);
    HandOversAreGiven(cfg.codec, s.runners, origin, plain);
    if Taken(cfg.codec, s.runners, plain) {
      RouteGives(cfg.codec, s.runners, l, origin, plain, 0, 0);
    }
    assert Delay(1) == 2;
  }

  lemma UnopenedIsUndecryptable(c: Codec, sk: string, msg: WireMessage)
    ensures MaybeDecrypt(c, sk, msg).None? <==> forall plain :: !IsOpenedForm(c, sk, msg, plain)
    ensures MaybeDecrypt(c, sk, msg).Some? ==> IsOpenedForm(c, sk, msg, MaybeDecrypt(c, sk, msg).value)
  {
    forall plain
      ensures MaybeDecrypt(c, sk, msg) == Some(plain) <==> IsOpenedForm(c, sk, msg, plain)
    {
      DecryptExactly(c, sk, msg, plain);
    }
  }

  /** Every arrival, with all its outcomes. */
  lemma ArrivalHasFate(cfg: Config, s: State, msg: WireMessage)
    requires NodeOk(cfg, AnyKeys(), s) && s.alive
    ensures ArrivalFate(cfg, s, msg, Step(cfg, s, Incoming(msg)))
  {
    CheckSays(cfg, s, msg);
    UnopenedIsUndecryptable(cfg.codec, cfg.sk, msg);
    assert Delay(1) == 2;
    if MaybeDecrypt(cfg.codec, cfg.sk, msg).Some? {
      AdmittedHasFate(cfg, s, msg, MaybeDecrypt(cfg.codec, cfg.sk, msg).value);
    }
  }

  // ---- Retries ----

  /** One more attempt with the next waiting time, or the end after the 33rd. */
  ghost predicate QueuedOn(l: Ledger, r: Scheduled, msg: WireMessage, checkPassed: bool, l': Ledger) {
    var n := r.attempts + 1;
    var seconds := if n <= 9 then Power2(n) else 600;
    if n <= 33
        then l' == l.(pending := l.pending + multiset{Scheduled(r.origin, msg, n, checkPassed, r.waited + seconds)})
    else l' == l.(dropped := l.dropped + 1)
  }

  ghost predicate OfferedFate(c: Codec, rs: Runners, l: Ledger, r: Scheduled, msg: WireMessage, l': Ledger) {
    if Taken(c, rs, msg) then Given(c, rs, l, r.origin, msg, l') else QueuedOn(l, r, msg, true, l')
  }

  /** The checks pass and the message opens. */
  ghost predicate Admissible(cfg: Config, tree: Tree, msg: WireMessage) {
    Vouched(cfg, tree, msg) && IsMine(cfg, tree, msg) && exists plain :: IsOpenedForm(cfg.codec, cfg.sk, msg, plain)
  }

  /** An unchecked message is checked again, and waits on as it was if that fails. */
  ghost predicate RecheckFate(cfg: Config, s: State, l: Ledger, r: Scheduled, l': Option<Ledger>) {
    if Vouched(cfg, s.tree, r.message) && IsMisfiled(cfg, s.tree, r.message) then l' == None
    else if Admissible(cfg, s.tree, r.message) then
      l'.Some? &&
      exists plain ::
        && IsOpenedForm(cfg.codec, cfg.sk, r.message, plain)
        && OfferedFate(cfg.codec, s.runners, l.(cleared := l.cleared + [r.origin]), r, plain, l'.value)
    else l'.Some? && QueuedOn(l, r, r.message, false, l'.value)
  }

  /** A checked message is offered to the runners again. */
  ghost predicate RetryFate(cfg: Config, s: State, r: Scheduled, s': State) {
    var l := s.ledger.(pending := s.ledger.pending - multiset{r});
    if r.checkPassed then
      s' == s.(ledger := s'.ledger) && OfferedFate(cfg.codec, s.runners, l, r, r.message, s'.ledger)
    else if s'.alive then
      s' == s.(ledger := s'.ledger) && RecheckFate(cfg, s, l, r, Some(s'.ledger))
    else
      s' == s.(alive := false) && RecheckFate(cfg, s, l, r, None)
  }

  lemma RouteHasFate(c: Codec, rs: Runners, l: Ledger, r: Scheduled, msg: WireMessage)
    requires r.attempts <= 33
    ensures OfferedFate(c, rs, l, r, msg, Route(c, rs, l, r.origin, msg, r.attempts, r.waited))
  {
    HandOversAreGiven(c, rs, r.origin, msg);
    assert Truncate16(r.attempts + 1) == r.attempts + 1;
    if Taken(c, rs, msg) {
      RouteGives(c, rs, l, r.origin, msg, r.attempts, r.waited);
    }
  }

  lemma OpenedRecheck(cfg: Config, s: State, l: Ledger, r: Scheduled, plain: WireMessage)
    requires r.attempts <= 33 && Vouched(cfg, s.tree, r.message) && IsMine(cfg, s.tree, r.message)
    requires IsOpenedForm(cfg.codec, cfg.sk, r.message, plain)
    ensures var l1 := l.(cleared := l.cleared + [r.origin]);
            var l' := Route(cfg.codec, s.runners, l1, r.origin, plain, r.attempts, r.waited);
            RecheckFate(cfg, s, l, r, Some(l'))
  {
    var l1 := l.(cleared := l.cleared + [r.origin]);
    RouteHasFate(cfg.codec, s.runners, l1, r, plain);
  }

  lemma FailedRecheck(cfg: Config, s: State, l: Ledger, r: Scheduled)
    requires r.attempts <= 33 && !Admissible(cfg, s.tree, r.message)
    requires !(Vouched(cfg, s.tree, r.message) && IsMisfiled(cfg, s.tree, r.message))
    ensures RecheckFate(cfg, s, l, r, Some(Retry(l, r.origin, r.message, Truncate16(r.attempts + 1), false, r.waited)))
  {
    assert Truncate16(r.attempts + 1) == r.attempts + 1;
  }

  lemma RecheckHasFate(cfg: Config, s: State, l: Ledger, r: Scheduled)
    requires NodeOk(cfg, AnyKeys(), s) && r.attempts <= 33
    ensures var verdict, plain := Check(cfg, s.tree, r.message), MaybeDecrypt(cfg.codec, cfg.sk, r.message);
            RecheckFate(cfg, s, l, r, Recheck(cfg.codec, s.runners, l, r, verdict, plain))
  {
    var verdict, plain := Check(cfg, s.tree, r.message), MaybeDecrypt(cfg.codec, cfg.sk, r.message);
    CheckSays(cfg, s, r.message);
    UnopenedIsUndecryptable(cfg.codec, cfg.sk, r.message);
    if verdict.Pass? && plain.Some? {
      OpenedRecheck(cfg, s, l, r, plain.value);
    } else if !verdict.Panics? {
      FailedRecheck(cfg, s, l, r);
    }
  }

  /** Every fired timer, with all its outcomes. */
  lemma RetryHasFate(cfg: Config, s: State, r: Scheduled)
    requires NodeOk(cfg, AnyKeys(), s) && LedgerOk(ClearingOf(cfg, s.tree), s.ledger, 0) && Enabled(s, TimerFires(r))
    ensures RetryFate(cfg, s, r, Step(cfg, s, TimerFires(r)))
  {
    assert RetryOk(ClearingOf(cfg, s.tree), s.ledger.arrived, s.ledger.cleared, r);
    var l := s.ledger.(pending := s.ledger.pending - multiset{r});
    RouteHasFate(cfg.codec, s.runners, l, r, r.message);
    RecheckHasFate(cfg, s, l, r);
  }

  /** A bounced message is queued again as checked, for two seconds, and counted. */
  ghost predicate BounceFate(s: State, d: Delivery, s': State) {
    s' == s.(ledger := s.ledger.(
      pending := s.ledger.pending + multiset{Scheduled(d.origin, d.message, 1, true, 2)},
      bounces := s.ledger.bounces + 1))
  }

  lemma BounceHasFate(cfg: Config, s: State, d: Delivery)
    requires Enabled(s, OutOfOrder(d))
    ensures BounceFate(s, d, Step(cfg, s, OutOfOrder(d)))
  {
    assert Delay(1) == 2;
  }

  ghost predicate MessageFate(cfg: Config, s: State, ev: Event, s': State) {
    match ev
    case Incoming(msg) => ArrivalFate(cfg, s, msg, s')
    case TimerFires(r) => RetryFate(cfg, s, r, s')
    case OutOfOrder(d) => BounceFate(s, d, s')
    case _ => s'.ledger == s.ledger
  }

  lemma StateMeetsFate(cfg: Config, s: State, ev: Event)
    requires NodeOk(cfg, AnyKeys(), s) && LedgerOk(ClearingOf(cfg, s.tree), s.ledger, 0) && Enabled(s, ev)
    ensures MessageFate(cfg, s, ev, Step(cfg, s, ev))
  {
    match ev
    case Incoming(msg) => ArrivalHasFate(cfg, s, msg);
    case TimerFires(r) => RetryHasFate(cfg, s, r);
    case OutOfOrder(d) => BounceHasFate(cfg, s, d);
    case _ => OtherEventsGrowTree(cfg, s, ev);
  }

  /** In every legal run every next event does to the messages exactly this; other events do nothing to them. */
  lemma {:induction false} MessagesMeetTheirFate(cfg: Config, events: seq<Event>, ev: Event)
    requires Legal(cfg, events) && Enabled(After(cfg, events), ev)
    ensures MessageFate(cfg, After(cfg, events), ev, Step(cfg, After(cfg, events), ev))
  {
    RunKeepsNode(cfg, AnyKeys(), events);
    RunKeepsLedger(cfg, events);
    StateMeetsFate(cfg, After(cfg, events), ev);
  }

  // ---- Strangers ----

  /** The room of the message as received leads to a group on file, and its sender is in that group. */
  ghost predicate SenderBelongs(tree: Tree, msg: WireMessage) {
    && ExtractGroupId(msg.room).Ok?
    && GroupAt(tree, ExtractGroupId(msg.room).value).Some?
    && msg.senderPublicKey in GroupAt(tree, ExtractGroupId(msg.room).value).value.publicKeys
  }

  ghost predicate SendersBelong(s: State) {
    forall d | d in s.ledger.deliveries ::
      && d.origin < |s.ledger.arrived|
      && SenderBelongs(s.tree, s.ledger.arrived[d.origin])
      && d.message.senderPublicKey == s.ledger.arrived[d.origin].senderPublicKey
      && d.message.room == s.ledger.arrived[d.origin].room
  }

  lemma ClearedBelongs(cfg: Config, s: State, original: WireMessage, plain: WireMessage)
    requires NodeOk(cfg, AnyKeys(), s) && Clears(cfg, s.tree, original, plain)
    ensures SenderBelongs(s.tree, original)
    ensures plain.senderPublicKey == original.senderPublicKey && plain.room == original.room
  {
    CheckSays(cfg, s, original);
    DecryptExactly(cfg.codec, cfg.sk, original, plain);
  }

  /**
   * In every legal run, messages of strangers included: whatever a runner was handed came from
   * a member of the group on file for its room.
   */
  lemma {:induction false} OnlyMembersReachRunners(cfg: Config, events: seq<Event>)
    requires Legal(cfg, events)
    ensures SendersBelong(After(cfg, events))
  {
    RunKeepsNode(cfg, AnyKeys(), events);
    RunKeepsLedger(cfg, events);
    var s := After(cfg, events);
    forall d | d in s.ledger.deliveries
      ensures d.origin < |s.ledger.arrived| && SenderBelongs(s.tree, s.ledger.arrived[d.origin])
      ensures d.message.senderPublicKey == s.ledger.arrived[d.origin].senderPublicKey
      ensures d.message.room == s.ledger.arrived[d.origin].room
    {
      assert IsCleared(ClearingOf(cfg, s.tree), s.ledger.arrived, s.ledger.cleared, d.origin, d.message);
      ClearedBelongs(cfg, s, s.ledger.arrived[d.origin], d.message);
    }
  }

  /** The converse for one arrival: a stranger's message is handed to nobody. */
  lemma {:induction false} StrangersReachNobody(cfg: Config, events: seq<Event>, msg: WireMessage)
    requires Legal(cfg, events) && After(cfg, events).alive && !SenderBelongs(After(cfg, events).tree, msg)
    ensures Step(cfg, After(cfg, events), Incoming(msg)).ledger.deliveries == After(cfg, events).ledger.deliveries
  {
    MessagesMeetTheirFate(cfg, events, Incoming(msg));
  }
}

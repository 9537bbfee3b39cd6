/** What becomes of a queued message: from its first queuing through every retry to its end. */
module Retries {
  import opened Basics
  import opened Codecs
  import opened Groups
  import opened Storage
  import opened Envelopes
  import opened CoordinatorSpec
  import opened MessageLife
  import opened CoordinatorTheorems

  /** What a fired timer can lead to: delivery, one more attempt, or the end after the last one. */
  datatype Outcome = Delivered | Queued(again: Scheduled) | GivenUp

  ghost predicate LeadsTo(l: Ledger, r: Scheduled, l': Ledger, outcome: Outcome) {
    var rest := l.pending - multiset{r};
    match outcome
    case Delivered =>
      l'.routed == l.routed + 1 && |l'.deliveries| > |l.deliveries| && l'.pending == rest && l'.dropped == l.dropped
    case Queued(again) =>
      && l'.routed == l.routed && l'.deliveries == l.deliveries && l'.pending == rest + multiset{again}
        && l'.dropped == l.dropped
      && again.origin == r.origin && again.attempts == r.attempts + 1 <= MAX_ATTEMPTS
      && again.waited == r.waited + (if again.attempts <= 9 then Power2(again.attempts) else 600)
      && (r.checkPassed ==> again.checkPassed && again.message == r.message)
    case GivenUp =>
      && l'.routed == l.routed && l'.deliveries == l.deliveries && l'.pending == rest && l'.dropped == l.dropped + 1
      && r.attempts == MAX_ATTEMPTS && r.waited == 15422
  }

  lemma RetryLeadsOn(
      l: Ledger, r: Scheduled, l1: Ledger, msg: WireMessage, checkPassed: bool) returns (outcome: Outcome)
    requires 1 <= r.attempts <= MAX_ATTEMPTS && r.waited == TotalWait(r.attempts)
    requires l1.pending == l.pending - multiset{r} && l1.routed == l.routed && l1.deliveries == l.deliveries
        && l1.dropped == l.dropped
    requires r.checkPassed ==> checkPassed && msg == r.message
    ensures LeadsTo(l, r, Retry(l1, r.origin, msg, Truncate16(r.attempts + 1), checkPassed, r.waited), outcome)
  {
    assert Truncate16(r.attempts + 1) == r.attempts + 1;
    if r.attempts == MAX_ATTEMPTS {
      WaitAtTheEnd(r.attempts);
      outcome := GivenUp;
    } else {
      outcome := Queued(Scheduled(r.origin, msg, r.attempts + 1, checkPassed, r.waited + Delay(r.attempts + 1)));
    }
  }

  lemma RouteLeadsOn(
      c: Codec, rs: Runners, l: Ledger, r: Scheduled, l1: Ledger, msg: WireMessage) returns (outcome: Outcome)
    requires 1 <= r.attempts <= MAX_ATTEMPTS && r.waited == TotalWait(r.attempts)
    requires l1.pending == l.pending - multiset{r} && l1.routed == l.routed && l1.deliveries == l.deliveries
        && l1.dropped == l.dropped
    requires r.checkPassed ==> msg == r.message
    ensures LeadsTo(l, r, Route(c, rs, l1, r.origin, msg, r.attempts, r.waited), outcome)
  {
    if HandOvers(c, rs, r.origin, msg) == [] {
      outcome := RetryLeadsOn(l, r, l1, msg, true);
    } else {
      outcome := Delivered;
    }
  }

  lemma RecheckLeadsOn(
      c: Codec, rs: Runners, l: Ledger, r: Scheduled, l1: Ledger, verdict: Verdict, plain: Option<WireMessage>)
    returns (outcome: Outcome)
    requires 1 <= r.attempts <= MAX_ATTEMPTS && r.waited == TotalWait(r.attempts) && !r.checkPassed && !verdict.Panics?
    requires l1.pending == l.pending - multiset{r} && l1.routed == l.routed && l1.deliveries == l.deliveries
        && l1.dropped == l.dropped
    ensures LeadsTo(l, r, Recheck(c, rs, l1, r, verdict, plain).value, outcome)
  {
    if verdict.Pass? && plain.Some? {
      outcome := RouteLeadsOn(c, rs, l, r, l1.(cleared := l1.cleared + [r.origin]), plain.value);
    } else {
      outcome := RetryLeadsOn(l, r, l1, r.message, false);
    }
  }

  lemma FireLeadsOn(cfg: Config, tree: Tree, rs: Runners, l: Ledger, r: Scheduled) returns (outcome: Outcome)
    requires LedgerOk(ClearingOf(cfg, tree), l, 0) && r in l.pending
    ensures var l' := Fire(cfg, tree, rs, l, r); l'.Some? ==> LeadsTo(l, r, l'.value, outcome)
  {
    assert RetryOk(ClearingOf(cfg, tree), l.arrived, l.cleared, r);
    var l1 := l.(pending := l.pending - multiset{r});
    var verdict, plain := Check(cfg, tree, r.message), MaybeDecrypt(cfg.codec, cfg.sk, r.message);
    outcome := GivenUp;
    if r.checkPassed {
      outcome := RouteLeadsOn(cfg.codec, rs, l, r, l1, r.message);
    } else if !verdict.Panics? {
      outcome := RecheckLeadsOn(cfg.codec, rs, l, r, l1, verdict, plain);
    }
  }

  /**
   * The retry step, whatever mix of checked and unchecked retries: attempts go up by one each
   * time, so after at most 33 queuings a message is delivered or dropped, and it is dropped
   * only after the full 15422 seconds.
   */
  lemma {:induction false} TimerOutcomes(cfg: Config, events: seq<Event>, r: Scheduled)
    requires Legal(cfg, events) && Enabled(After(cfg, events), TimerFires(r))
    ensures var s := After(cfg, events);
            var s' := Step(cfg, s, TimerFires(r));
            s'.alive ==> exists outcome :: LeadsTo(s.ledger, r, s'.ledger, outcome)
  {
    RunKeepsLedger(cfg, events);
    var s := After(cfg, events);
    var _ := FireLeadsOn(cfg, s.tree, s.runners, s.ledger, r);
  }

  // ---- One message through a run ----

  ghost function StateAt(cfg: Config, events: seq<Event>, k: nat): State
    requires Legal(cfg, events) && k <= |events|
  {
    PrefixIsLegal(cfg, events, k);
    After(cfg, events[..k])
  }

  lemma {:induction false} StateAtSteps(cfg: Config, events: seq<Event>, k: nat)
    requires Legal(cfg, events) && k < |events|
    ensures Enabled(StateAt(cfg, events, k), events[k])
    ensures StateAt(cfg, events, k + 1) == Step(cfg, StateAt(cfg, events, k), events[k])
  {
    PrefixIsLegal(cfg, events, k + 1);
    assert events[..k + 1][..k] == events[..k];
  }

  lemma {:induction false} AliveTillTheEnd(cfg: Config, events: seq<Event>, k: nat)
    requires Legal(cfg, events) && After(cfg, events).alive && k <= |events|
    ensures StateAt(cfg, events, k).alive
  {
    if k < |events| {
      StateAtSteps(cfg, events, k);
    } else {
      assert events[..k] == events;
    }
  }

  ghost predicate QueuedFirst(s: State, ev: Event, s': State, r: Scheduled) {
    (ev.Incoming? || ev.OutOfOrder?) && s'.ledger.pending == s.ledger.pending + multiset{r}
  }

  ghost predicate QueuedAgain(s: State, ev: Event, s': State, r: Scheduled, again: Scheduled) {
    ev == TimerFires(r) && s'.ledger.pending == s.ledger.pending - multiset{r} + multiset{again}
  }

  /**
   * One message's queuings in a run: the first by an arrival or a bounce, at position `first`,
   * each next one when the one before fires, at the positions `fired`.
   */
  ghost predicate Stretch(cfg: Config, events: seq<Event>, first: nat, fired: seq<nat>, queued: seq<Scheduled>) {
    && Legal(cfg, events) && After(cfg, events).alive
    && |queued| == |fired| + 1
    && first < |events|
    && QueuedFirst(StateAt(cfg, events, first), events[first], StateAt(cfg, events, first + 1), queued[0])
    && (forall i | 0 <= i < |fired| :: (if i == 0 then first else fired[i - 1]) < fired[i] < |events|)
    && (forall i | 0 <= i < |fired| ::
          QueuedAgain(StateAt(cfg, events, fired[i]), events[fired[i]], StateAt(cfg, events, fired[i] + 1),
                      queued[i], queued[i + 1]))
  }

  lemma SameAddition<T>(m: multiset<T>, a: T, b: T)
    requires m + multiset{a} == m + multiset{b}
    ensures a == b
  {
    assert (m + multiset{a})[a] == m[a] + 1;
  }

  lemma NoAddition<T>(m: multiset<T>, a: T)
    ensures m != m + multiset{a}
  {
    assert |m + multiset{a}| == |m| + 1;
  }

  lemma AdmitQueuesFirst(c: Codec, rs: Runners, l: Ledger, origin: nat, msg: WireMessage,
                         verdict: Verdict, plain: Option<WireMessage>, r: Scheduled)
    requires var l' := Admit(c, rs, l, origin, msg, verdict, plain);
             l'.Some? && l'.value.pending == l.pending + multiset{r}
    ensures r.attempts == 1 && r.waited == 2
  {
    NoAddition(l.pending, r);
    assert Delay(1) == 2;
    var l' := Admit(c, rs, l, origin, msg, verdict, plain).value;
    if l'.pending != l.pending {
      var x :| l'.pending == l.pending + multiset{x} && x.attempts == 1 && x.waited == 2;
      SameAddition(l.pending, x, r);
    }
  }

  lemma FirstQueuing(cfg: Config, s: State, ev: Event, r: Scheduled)
    requires Enabled(s, ev) && Step(cfg, s, ev).alive && QueuedFirst(s, ev, Step(cfg, s, ev), r)
    ensures r.attempts == 1 && r.waited == 2
  {
    NoAddition(s.ledger.pending, r);
    match ev
    case Incoming(msg) =>
      var l1 := s.ledger.(arrived := s.ledger.arrived + [msg]);
      if Contains(msg.room, Prefix(cfg.Own())) {
        AdmitQueuesFirst(cfg.codec, s.runners, l1, |s.ledger.arrived|, msg,
                         Check(cfg, s.tree, msg), MaybeDecrypt(cfg.codec, cfg.sk, msg), r);
      }
    case OutOfOrder(d) =>
      assert Delay(1) == 2;
      SameAddition(s.ledger.pending, Scheduled(d.origin, d.message, 1, true, 2), r);
  }

  lemma OutcomeIsQueuing(l: Ledger, r: Scheduled, l': Ledger, outcome: Outcome, again: Scheduled)
    requires LeadsTo(l, r, l', outcome) && l'.pending == l.pending - multiset{r} + multiset{again}
    ensures outcome == Queued(again)
  {
    NoAddition(l.pending - multiset{r}, again);
    if outcome.Queued? {
      SameAddition(l.pending - multiset{r}, outcome.again, again);
    }
  }

  /** The link between two queuings, from what a fired timer can lead to. */
  lemma FiringCountsUp(cfg: Config, s: State, r: Scheduled, again: Scheduled)
    requires LedgerOk(ClearingOf(cfg, s.tree), s.ledger, 0) && Enabled(s, TimerFires(r))
        && Step(cfg, s, TimerFires(r)).alive
    requires QueuedAgain(s, TimerFires(r), Step(cfg, s, TimerFires(r)), r, again)
    ensures again.origin == r.origin && again.attempts == r.attempts + 1 <= 33
    ensures again.waited == r.waited + Delay(again.attempts)
  {
    var outcome := FireLeadsOn(cfg, s.tree, s.runners, s.ledger, r);
    OutcomeIsQueuing(s.ledger, r, Step(cfg, s, TimerFires(r)).ledger, outcome, again);
  }

  lemma LastFiringEnds(cfg: Config, s: State, r: Scheduled)
    requires LedgerOk(ClearingOf(cfg, s.tree), s.ledger, 0) && Enabled(s, TimerFires(r))
        && Step(cfg, s, TimerFires(r)).alive
    requires r.attempts == 33
    ensures var l' := Step(cfg, s, TimerFires(r)).ledger;
        LeadsTo(s.ledger, r, l', Delivered) || LeadsTo(s.ledger, r, l', GivenUp)
  {
    var outcome := FireLeadsOn(cfg, s.tree, s.runners, s.ledger, r);
    assert !outcome.Queued?;
  }

  lemma {:induction false} LedgerOkAt(cfg: Config, events: seq<Event>, k: nat)
    requires Legal(cfg, events) && k <= |events|
    ensures LedgerOk(ClearingOf(cfg, StateAt(cfg, events, k).tree), StateAt(cfg, events, k).ledger, 0)
  {
    PrefixIsLegal(cfg, events, k);
    RunKeepsLedger(cfg, events[..k]);
  }

  lemma {:induction false} RetryCountsUp(cfg: Config, events: seq<Event>, k: nat, r: Scheduled, again: Scheduled)
    requires Legal(cfg, events) && After(cfg, events).alive && k < |events|
    requires QueuedAgain(StateAt(cfg, events, k), events[k], StateAt(cfg, events, k + 1), r, again)
    ensures again.origin == r.origin && again.attempts == r.attempts + 1 <= 33
    ensures again.waited == r.waited + Delay(again.attempts)
  {
    StateAtSteps(cfg, events, k);
    AliveTillTheEnd(cfg, events, k + 1);
    LedgerOkAt(cfg, events, k);
    FiringCountsUp(cfg, StateAt(cfg, events, k), r, again);
  }

  lemma {:induction false} StretchBegins(
      cfg: Config, events: seq<Event>, first: nat, fired: seq<nat>, queued: seq<Scheduled>)
    requires Stretch(cfg, events, first, fired, queued)
    ensures queued[0].attempts == 1 && queued[0].waited == 2
  {
    StateAtSteps(cfg, events, first);
    AliveTillTheEnd(cfg, events, first + 1);
    FirstQueuing(cfg, StateAt(cfg, events, first), events[first], queued[0]);
  }

  lemma {:induction false} StretchGoesOn(
      cfg: Config, events: seq<Event>, first: nat, fired: seq<nat>, queued: seq<Scheduled>, i: nat)
    requires Stretch(cfg, events, first, fired, queued) && i < |fired|
    ensures queued[i + 1].origin == queued[i].origin && queued[i + 1].attempts == queued[i].attempts + 1 <= 33
    ensures queued[i + 1].waited == queued[i].waited + Delay(queued[i + 1].attempts)
  {
    RetryCountsUp(cfg, events, fired[i], queued[i], queued[i + 1]);
  }

  /** Queuings of one message, each with one attempt and one timer more than the one before. */
  ghost predicate CountsUp(queued: seq<Scheduled>) {
    && queued != [] && queued[0].attempts == 1 && queued[0].waited == 2
    && forall i | 0 <= i < |queued| - 1 ::
         && queued[i + 1].origin == queued[i].origin && queued[i + 1].attempts == queued[i].attempts + 1 <= 33
         && queued[i + 1].waited == queued[i].waited + Delay(queued[i + 1].attempts)
  }

  lemma {:induction false} StretchCountsUp(
      cfg: Config, events: seq<Event>, first: nat, fired: seq<nat>, queued: seq<Scheduled>)
    requires Stretch(cfg, events, first, fired, queued)
    ensures CountsUp(queued)
  {
    StretchBegins(cfg, events, first, fired, queued);
    forall i | 0 <= i < |queued| - 1
      ensures queued[i + 1].origin == queued[i].origin && queued[i + 1].attempts == queued[i].attempts + 1 <= 33
      ensures queued[i + 1].waited == queued[i].waited + Delay(queued[i + 1].attempts)
    {
      StretchGoesOn(cfg, events, first, fired, queued, i);
    }
  }

  lemma {:induction false} CountedUp(queued: seq<Scheduled>, i: nat)
    requires CountsUp(queued) && i < |queued|
    ensures queued[i].origin == queued[0].origin
    ensures queued[i].attempts == i + 1 <= 33 && queued[i].waited == TotalWait(i + 1)
  {
    if i == 0 {
      assert TotalWait(1) == Delay(1) == 2;
    } else {
      CountedUp(queued, i - 1);
    }
  }

  /**
   * Between two deliveries. In every run a message is queued at most 33 times from an arrival
   * or a bounce on, whatever mix of checked and unchecked retries; its n-th queuing has n
   * attempts behind it and has been scheduled for exactly what the closed form says.
   */
  lemma {:induction false} StretchIsBounded(
      cfg: Config, events: seq<Event>, first: nat, fired: seq<nat>, queued: seq<Scheduled>)
    requires Stretch(cfg, events, first, fired, queued)
    ensures |queued| <= 33
    ensures forall i | 0 <= i < |queued| :: queued[i].attempts == i + 1 && queued[i].waited == ClosedWait(i + 1)
    ensures forall i | 0 <= i < |queued| :: queued[i].origin == queued[0].origin
  {
    StretchCountsUp(cfg, events, first, fired, queued);
    forall i | 0 <= i < |queued|
      ensures queued[i].attempts == i + 1 <= 33 && queued[i].waited == ClosedWait(i + 1)
      ensures queued[i].origin == queued[0].origin
    {
      CountedUp(queued, i);
      WaitInClosedForm(i + 1);
    }
    assert queued[|queued| - 1].attempts <= 33;
  }

  lemma {:induction false} LastFiringAt(cfg: Config, events: seq<Event>, k: nat, r: Scheduled)
    requires Legal(cfg, events) && After(cfg, events).alive && k < |events|
    requires events[k] == TimerFires(r) && r.attempts == 33
    ensures var l, l' := StateAt(cfg, events, k).ledger, StateAt(cfg, events, k + 1).ledger;
            LeadsTo(l, r, l', Delivered) || LeadsTo(l, r, l', GivenUp)
  {
    StateAtSteps(cfg, events, k);
    AliveTillTheEnd(cfg, events, k + 1);
    LedgerOkAt(cfg, events, k);
    LastFiringEnds(cfg, StateAt(cfg, events, k), r);
  }

  /** When the 33rd queuing fires, the message is delivered, or given up after 15422 seconds. */
  lemma {:induction false} LastRetryEnds(
      cfg: Config, events: seq<Event>, first: nat, fired: seq<nat>, queued: seq<Scheduled>, k: nat)
    requires Stretch(cfg, events, first, fired, queued) && |queued| == 33
    requires k < |events| && events[k] == TimerFires(queued[32])
    ensures var l, l' := StateAt(cfg, events, k).ledger, StateAt(cfg, events, k + 1).ledger;
            LeadsTo(l, queued[32], l', Delivered) || LeadsTo(l, queued[32], l', GivenUp)
  {
    StretchCountsUp(cfg, events, first, fired, queued);
    CountedUp(queued, 32);
    LastFiringAt(cfg, events, k, queued[32]);
  }
}

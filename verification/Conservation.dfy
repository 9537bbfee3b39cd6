/** Conservation of messages, and exactly when hand-overs can be counted one by one. */
module Conservation {
  import opened Basics
  import opened Codecs
  import opened Rooms
  import opened Groups
  import opened Storage
  import opened Envelopes
  import opened CoordinatorSpec
  import opened MessageLife
  import opened CoordinatorTheorems

  /** The message that this step offers to the runners, if there is one. */
  function Offered(cfg: Config, s: State, ev: Event): Option<WireMessage> {
    match ev
    case Incoming(msg) =>
      if !Contains(msg.room, Prefix(cfg.Own())) || Check(cfg, s.tree, msg) != Pass then None
      else MaybeDecrypt(cfg.codec, cfg.sk, msg)
    case TimerFires(r) =>
      if r.checkPassed then Some(r.message)
      else if Check(cfg, s.tree, r.message) == Pass then MaybeDecrypt(cfg.codec, cfg.sk, r.message)
      else None
    case _ => None
  }

  /** The room has a runner of this kind, and the payload is of its message type. */
  predicate Takes(c: Codec, rs: Runners, kind: Kind, msg: WireMessage) {
    TaskAt(rs, kind, msg.room).Some? && c.decodes(kind, msg.payload)
  }

  /** The payload decodes for no two of the runners in its room. */
  ghost predicate OneTaker(c: Codec, rs: Runners, msg: WireMessage) {
    forall kind, kind' | Takes(c, rs, kind, msg) && Takes(c, rs, kind', msg) :: kind == kind'
  }

  ghost predicate OffersToOne(cfg: Config, s: State, ev: Event) {
    Offered(cfg, s, ev).Some? ==> OneTaker(cfg.codec, s.runners, Offered(cfg, s, ev).value)
  }

  /** Every offered message of the run decodes for only one of the runners in its room. */
  ghost predicate AlwaysOneTaker(cfg: Config, events: seq<Event>)
    requires Legal(cfg, events)
  {
    events == [] ||
    var n := |events| - 1;
    AlwaysOneTaker(cfg, events[..n]) && OffersToOne(cfg, After(cfg, events[..n]), events[n])
  }

  lemma OneTakerIff(c: Codec, rs: Runners, origin: nat, msg: WireMessage)
    ensures |HandOvers(c, rs, origin, msg)| <= 1 <==> OneTaker(c, rs, msg)
  {
    var offline, signing, keygen :=
      HandOver(c, rs, Offline, origin, msg), HandOver(c, rs, Signing, origin, msg),
          HandOver(c, rs, Keygen, origin, msg);
    assert forall kind :: |HandOver(c, rs, kind, origin, msg)| == if Takes(c, rs, kind, msg) then 1 else 0;
    assert |HandOvers(c, rs, origin, msg)| == |offline| + |signing| + |keygen|;
    if !OneTaker(c, rs, msg) {
      var kind, kind' :| Takes(c, rs, kind, msg) && Takes(c, rs, kind', msg) && kind != kind';
    }
  }

  /** The surplus of hand-overs over routed messages stays, or grows, by whether there is only one taker. */
  ghost predicate SurplusStays(l: Ledger, l': Ledger, one: bool) {
    var before, after := |l.deliveries| - l.routed, |l'.deliveries| - l'.routed;
    if one then after == before else after > before
  }

  lemma RouteSurplus(c: Codec, rs: Runners, l: Ledger, origin: nat, msg: WireMessage, attempts: U16, waited: nat)
    ensures SurplusStays(l, Route(c, rs, l, origin, msg, attempts, waited), OneTaker(c, rs, msg))
  {
    OneTakerIff(c, rs, origin, msg);
  }

  lemma AdmitSurplus(c: Codec, rs: Runners, l: Ledger, origin: nat, msg: WireMessage,
                     verdict: Verdict, plain: Option<WireMessage>)
    ensures var l' := Admit(c, rs, l, origin, msg, verdict, plain);
            l'.Some? ==> SurplusStays(l, l'.value, verdict.Pass? && plain.Some? ==> OneTaker(c, rs, plain.value))
  {
    if plain.Some? {
      RouteSurplus(c, rs, l.(cleared := l.cleared + [origin]), origin, plain.value, 0, 0);
    }
  }

  lemma RecheckSurplus(c: Codec, rs: Runners, l: Ledger, r: Scheduled, verdict: Verdict, plain: Option<WireMessage>)
    ensures var l' := Recheck(c, rs, l, r, verdict, plain);
            l'.Some? ==> SurplusStays(l, l'.value, verdict.Pass? && plain.Some? ==> OneTaker(c, rs, plain.value))
  {
    if plain.Some? {
      RouteSurplus(c, rs, l.(cleared := l.cleared + [r.origin]), r.origin, plain.value, r.attempts, r.waited);
    }
  }

  lemma PanicOffersNothing(cfg: Config, s: State, ev: Event)
    requires Enabled(s, ev) && IsMessageEvent(ev) && !Step(cfg, s, ev).alive
    ensures Offered(cfg, s, ev).None? && Step(cfg, s, ev).ledger == s.ledger
  {
  }

  lemma StepSurplus(cfg: Config, s: State, ev: Event)
    requires Enabled(s, ev)
    ensures SurplusStays(s.ledger, Step(cfg, s, ev).ledger, OffersToOne(cfg, s, ev))
  {
    var c, rs, l := cfg.codec, s.runners, s.ledger;
    if !IsMessageEvent(ev) {
      OtherEventsGrowTree(cfg, s, ev);
    } else if !Step(cfg, s, ev).alive {
      PanicOffersNothing(cfg, s, ev);
    } else {
      match ev
      case Incoming(msg) =>
        AdmitSurplus(c, rs, l.(arrived := l.arrived + [msg]), |l.arrived|, msg,
                     Check(cfg, s.tree, msg), MaybeDecrypt(c, cfg.sk, msg));
      case TimerFires(r) =>
        var l1 := l.(pending := l.pending - multiset{r});
        RouteSurplus(c, rs, l1, r.origin, r.message, r.attempts, r.waited);
        RecheckSurplus(c, rs, l1, r, Check(cfg, s.tree, r.message), MaybeDecrypt(c, cfg.sk, r.message));
      case _ =>
    }
  }

  lemma {:induction false} RunSurplus(cfg: Config, events: seq<Event>)
    requires Legal(cfg, events)
    ensures var l := After(cfg, events).ledger;
            l.routed <= |l.deliveries| && (l.routed == |l.deliveries| <==> AlwaysOneTaker(cfg, events))
  {
    if events != [] {
      var n := |events| - 1;
      RunSurplus(cfg, events[..n]);
      StepSurplus(cfg, After(cfg, events[..n]), events[n]);
    }
  }

  // ---- Main results ----

  /**
   * Nothing is lost or made up: received and bounced messages against those dropped,
   * undecryptable, waiting and handled.
   */
  ghost predicate Balanced(l: Ledger, handled: nat) {
    |l.arrived| + l.bounces == l.dropped + l.failed + |l.pending| + handled
  }

  /**
   * Conservation. In every run each received or bounced message is dropped, undecryptable,
   * waiting for a timer or routed. Counting hand-overs to runners instead of routed messages
   * balances if and only if every offered message decodes for only one of the runners in its room.
   */
  lemma {:induction false} MessagesAreConserved(cfg: Config, events: seq<Event>)
    requires Legal(cfg, events) && After(cfg, events).alive
    ensures Balanced(After(cfg, events).ledger, After(cfg, events).ledger.routed)
    ensures Balanced(After(cfg, events).ledger, |After(cfg, events).ledger.deliveries|) <==> AlwaysOneTaker(cfg, events)
  {
    RunKeepsLedger(cfg, events);
    RunSurplus(cfg, events);
  }

  /** No payload is of two message types. */
  ghost predicate DisjointDecoders(c: Codec) {
    forall kind, kind', payload | c.decodes(kind, payload) && c.decodes(kind', payload) :: kind == kind'
  }

  /** With disjoint message types hand-overs balance in every run, ids reused or not. */
  lemma {:induction false} DisjointDecodersSuffice(cfg: Config, events: seq<Event>)
    requires Legal(cfg, events) && DisjointDecoders(cfg.codec)
    ensures AlwaysOneTaker(cfg, events)
  {
    if events != [] {
      DisjointDecodersSuffice(cfg, events[..|events| - 1]);
    }
  }

  /** With unique ids they balance whatever the message types. */
  lemma {:induction false} UniqueIdsSuffice(cfg: Config, events: seq<Event>)
    requires LegalUnique(cfg, events)
    ensures AlwaysOneTaker(cfg, events)
  {
    if events != [] {
      var n := |events| - 1;
      UniqueIdsSuffice(cfg, events[..n]);
      RunKeepsUnique(cfg, events[..n]);
    }
  }

  // ---- A run in which a message reaches two runners ----

  /** One id for a key generation and a signing of the same two parties, and a payload of both message types. */
  ghost predicate Reuse(cfg: Config, id: string, other: string, payload: string) {
    && Lawful(cfg.codec)
    && |other| >= 10 && other != cfg.Own()
    && SEPARATOR !in id && SEPARATOR !in Prefix(cfg.Own()) && SEPARATOR !in Prefix(other)
    && cfg.codec.parseGeneric(payload).Some? && cfg.codec.parseGeneric(payload).value.receiver.None?
    && cfg.codec.decodes(Keygen, payload) && cfg.codec.decodes(Offline, payload)
  }

  function Parties(cfg: Config, other: string): (keys: seq<string>)
    ensures |keys| == 2
  {
    [cfg.Own(), other]
  }

  function SharedKey(): LocalKey {
    LocalKey(1, seq(66, _ => '0'), "")
  }

  ghost function ReuseEvents(cfg: Config, id: string, other: string, payload: string): (events: seq<Event>)
    requires |other| >= 10
    ensures |events| == 4
  {
    var keys := Parties(cfg, other);
    var room := RoomId(id, GroupId(keys));
    [KeygenRequested(KeygenRequest(id, keys, 1), true),
     KeygenFinished(room, SharedKey(), 0),
     SignRequested(SignRequest(id, keys, SharedKey().sumPublicKey, ""), true),
     Incoming(WireMessage(room, payload, other, ""))]
  }

  /** Both runners are there, and the group is on file. */
  ghost predicate BothRun(cfg: Config, s: State, keys: seq<string>, room: string) {
    && s.alive && Sliceable(keys)
    && room in s.runners.keygen && room in s.runners.offline && room !in s.runners.signing
    && GroupAt(s.tree, GroupId(keys)) == Some(GroupOf(keys, 1, cfg.Own()))
  }

  /** After the key-generation request there is its runner and its group. */
  ghost predicate KeygenRuns(cfg: Config, s: State, keys: seq<string>, room: string) {
    && s.alive && Sliceable(keys) && s.runners == s.history.waiting
    && s.runners.keygen.Keys == {room} && s.runners.offline == map[] && s.runners.signing == map[]
    && s.runners.keygen[room].request.participants == keys
    && s.tree == map[GroupId(keys) := GroupRecord(GroupOf(keys, 1, cfg.Own()))]
  }

  lemma KeygenBegins(cfg: Config, id: string, other: string, payload: string)
    requires Reuse(cfg, id, other, payload)
    ensures var keys := Parties(cfg, other);
            var s := Step(cfg, INITIAL, ReuseEvents(cfg, id, other, payload)[0]);
            KeygenRuns(cfg, s, keys, RoomId(id, GroupId(keys)))
  {
    assert Parties(cfg, other)[0] == cfg.Own();
  }

  /** The share is on file, and the runner is still mapped. */
  ghost predicate KeygenRan(cfg: Config, s: State, keys: seq<string>, room: string) {
    && s.alive && Sliceable(keys)
    && room in s.runners.keygen && s.runners.offline == map[] && s.runners.signing == map[]
    && GroupAt(s.tree, GroupId(keys)) == Some(GroupOf(keys, 1, cfg.Own()))
    && ShareAt(cfg.codec, cfg.sk, s.tree, SharedKey().sumPublicKey) == Some(StoredShare(keys, cfg.Own(), SharedKey()))
  }

  lemma KeygenEnds(cfg: Config, s: State, keys: seq<string>, room: string)
    requires Lawful(cfg.codec) && KeygenRuns(cfg, s, keys, room) && |keys| == 2
    ensures Enabled(s, KeygenFinished(room, SharedKey(), 0))
    ensures KeygenRan(cfg, Step(cfg, s, KeygenFinished(room, SharedKey(), 0)), keys, room)
  {
    GroupIdLength(keys);
    ShareRoundTrip(cfg.codec, cfg.sk, StoredShare(keys, cfg.Own(), SharedKey()), 0);
  }

  lemma SigningStarts(cfg: Config, s: State, keys: seq<string>, req: SignRequest)
    requires Sliceable(keys) && |keys| == 2 && cfg.Own() in keys
    requires KeygenRan(cfg, s, keys, RoomId(req.requestId, GroupId(keys)))
    requires req.participants == keys
    ensures BothRun(cfg, SignWith(cfg, s, req, StoredShare(keys, cfg.Own(), SharedKey()), true), keys,
                    RoomId(req.requestId, GroupId(keys)))
  {
    SelectionIsExact(keys, keys, 1);
  }

  lemma SigningJoins(cfg: Config, s: State, keys: seq<string>, req: SignRequest)
    requires Sliceable(keys) && |keys| == 2 && cfg.Own() in keys
    requires KeygenRan(cfg, s, keys, RoomId(req.requestId, GroupId(keys)))
    requires req.participants == keys && req.publicKey == SharedKey().sumPublicKey
    ensures BothRun(cfg, OnSignRequest(cfg, s, req, true), keys, RoomId(req.requestId, GroupId(keys)))
  {
    SigningStarts(cfg, Use(s, req.requestId), keys, req);
  }

  lemma MessageReachesBoth(cfg: Config, id: string, other: string, payload: string, s: State)
    requires Reuse(cfg, id, other, payload)
    requires var keys := Parties(cfg, other); BothRun(cfg, s, keys, RoomId(id, GroupId(keys)))
    ensures !OffersToOne(cfg, s, ReuseEvents(cfg, id, other, payload)[3])
    ensures Step(cfg, s, ReuseEvents(cfg, id, other, payload)[3]).alive
  {
    var keys := Parties(cfg, other);
    var room := RoomId(id, GroupId(keys));
    var msg := WireMessage(room, payload, other, "");
    assert keys[0] == cfg.Own() && keys[1] == other;
    FilterKeepsOwnGroups(id, keys, cfg.Own());
    GroupIdHasNoSeparator(keys);
    ExtractOfRoomId(id, GroupId(keys));
    assert Check(cfg, s.tree, msg) == Pass;
    assert Offered(cfg, s, Incoming(msg)) == Some(msg);
    assert Takes(cfg.codec, s.runners, Keygen, msg) && Takes(cfg.codec, s.runners, Offline, msg);
  }

  /** States that the events lead through, one by one. */
  ghost predicate LeadThrough(cfg: Config, events: seq<Event>, states: seq<State>) {
    && |states| == |events| + 1 && states[0] == INITIAL
    && forall i | 0 <= i < |events| :: Enabled(states[i], events[i]) && states[i + 1] == Step(cfg, states[i], events[i])
  }

  lemma {:induction false} RunLeadsThrough(cfg: Config, events: seq<Event>, states: seq<State>)
    requires LeadThrough(cfg, events, states)
    ensures Legal(cfg, events) && After(cfg, events) == states[|events|]
  {
    if events != [] {
      var n := |events| - 1;
      RunLeadsThrough(cfg, events[..n], states[..n + 1]);
    }
  }

  lemma {:induction false} LastOffersToTwo(cfg: Config, events: seq<Event>, states: seq<State>)
    requires events != [] && LeadThrough(cfg, events, states)
    requires !OffersToOne(cfg, states[|events| - 1], events[|events| - 1]) && states[|events|].alive
    ensures Legal(cfg, events) && After(cfg, events).alive && !AlwaysOneTaker(cfg, events)
  {
    var n := |events| - 1;
    RunLeadsThrough(cfg, events[..n], states[..n + 1]);
    RunLeadsThrough(cfg, events, states);
  }

  lemma FourStates(cfg: Config, e: seq<Event>, s1: State, s2: State, s3: State)
    requires |e| == 4
    requires Enabled(INITIAL, e[0]) && s1 == Step(cfg, INITIAL, e[0])
    requires Enabled(s1, e[1]) && s2 == Step(cfg, s1, e[1])
    requires Enabled(s2, e[2]) && s3 == Step(cfg, s2, e[2]) && Enabled(s3, e[3])
    ensures LeadThrough(cfg, e, [INITIAL, s1, s2, s3, Step(cfg, s3, e[3])])
  {
  }

  lemma ReuseStates(cfg: Config, id: string, other: string, payload: string) returns (s1: State, s2: State, s3: State)
    requires Reuse(cfg, id, other, payload)
    ensures var next := ReuseEvents(cfg, id, other, payload);
            && Enabled(INITIAL, next[0]) && s1 == Step(cfg, INITIAL, next[0])
            && Enabled(s1, next[1]) && s2 == Step(cfg, s1, next[1])
            && Enabled(s2, next[2]) && s3 == Step(cfg, s2, next[2])
            && Enabled(s3, next[3]) && Step(cfg, s3, next[3]).alive && !OffersToOne(cfg, s3, next[3])
  {
    var next := ReuseEvents(cfg, id, other, payload);
    var keys := Parties(cfg, other);
    assert keys[0] == cfg.Own();
    KeygenBegins(cfg, id, other, payload);
    s1 := Step(cfg, INITIAL, next[0]);
    KeygenEnds(cfg, s1, keys, RoomId(id, GroupId(keys)));
    s2 := Step(cfg, s1, next[1]);
    SigningJoins(cfg, s2, keys, next[2].sign);
    s3 := Step(cfg, s2, next[2]);
    MessageReachesBoth(cfg, id, other, payload, s3);
  }

  /**
   * The failing case. If some payload is of two message types, reusing the id of a finished key
   * generation for a signing of the same parties gives a run in which one message reaches two
   * runners: the finished key-generation runner is still mapped.
   */
  lemma {:induction false} ReusedIdReachesTwoRunners(cfg: Config, id: string, other: string, payload: string)
    returns (events: seq<Event>)
    requires Reuse(cfg, id, other, payload)
    ensures Legal(cfg, events) && After(cfg, events).alive && !AlwaysOneTaker(cfg, events)
    ensures |After(cfg, events).ledger.deliveries| > After(cfg, events).ledger.routed
  {
    var next := ReuseEvents(cfg, id, other, payload);
    var s1, s2, s3 := ReuseStates(cfg, id, other, payload);
    FourStates(cfg, next, s1, s2, s3);
    LastOffersToTwo(cfg, next, [INITIAL, s1, s2, s3, Step(cfg, s3, next[3])]);
    events := next;
    RunSurplus(cfg, events);
  }
}

/**
 * The coordinator as a state machine: what each handler does to the database, the three
 * runner maps, the retry timers, the response channel and the counters.
 */
module CoordinatorSpec {
  import opened Basics
  import opened Codecs
  import opened Rooms
  import opened Groups
  import opened Storage
  import opened Envelopes

  // ---- Requests and responses ----

  datatype KeygenRequest = KeygenRequest(requestId: string, participants: seq<string>, threshold: nat)

  datatype SignRequest = SignRequest(requestId: string, participants: seq<string>, publicKey: string, hash: string)

  /** What a key-generation runner is started with. */
  datatype KeygenTask = KeygenTask(request: KeygenRequest, room: string, i: U16)

  /** What an offline-stage runner, and later a signer, is started with. */
  datatype EnrichedSignRequest = EnrichedSignRequest(inner: SignRequest, room: string, i: U16, signers: seq<U16>)

  datatype RequestType = KeygenType | SignType

  datatype RequestStatus = Received | Processing | Done | Error

  datatype Response = Response(requestId: string, result: string, requestType: RequestType, status: RequestStatus)

  // ---- State ----

  /**
   * A retry that waits for its timer. `origin` numbers the received message it stems from and
   * `waited` adds up the timers it has been given since it was last delivered or received;
   * both are proof tags.
   */
  datatype Scheduled = Scheduled(origin: nat, message: WireMessage, attempts: U16, checkPassed: bool, waited: nat)

  /** One hand-over to a runner; `index` is the runner's own party index. */
  datatype Delivery = Delivery(origin: nat, kind: Kind, index: U16, message: WireMessage)

  /** The life of incoming messages: counters, timers and hand-overs. */
  datatype Ledger = Ledger(
    arrived: seq<WireMessage>,
    cleared: seq<nat>,            // origins that passed check and decryption, in that order
    pending: multiset<Scheduled>,
    deliveries: seq<Delivery>,
    routed: nat,                  // messages that at least one runner took
    dropped: nat,
    failed: nat,                  // undecryptable on first arrival
    bounces: nat)

  datatype Runners = Runners(
    keygen: map<string, KeygenTask>,
    offline: map<string, EnrichedSignRequest>,
    signing: map<string, EnrichedSignRequest>)

  function AddKeygen(rs: Runners, task: KeygenTask): Runners {
    rs.(keygen := rs.keygen[task.room := task])
  }

  function AddOffline(rs: Runners, task: EnrichedSignRequest): Runners {
    rs.(offline := rs.offline[task.room := task])
  }

  function AddSigner(rs: Runners, task: EnrichedSignRequest): Runners {
    rs.(signing := rs.signing[task.room := task])
  }

  function DropKeygen(rs: Runners, room: string): Runners {
    rs.(keygen := rs.keygen - {room})
  }

  function DropSigner(rs: Runners, room: string): Runners {
    rs.(signing := rs.signing - {room})
  }

  function DropOffline(rs: Runners, room: string): Runners {
    rs.(offline := rs.offline - {room})
  }

  /** A finished key generation. */
  datatype Completed = Completed(task: KeygenTask, key: LocalKey)

  /**
   * What has happened outside the maps: runners that have not yet reported a result, ids in use, finished key
   * generations.
   */
  datatype History = History(waiting: Runners, used: set<string>, completed: seq<Completed>)

  /** `alive` turns false when a handler panics. */
  datatype State = State(
    alive: bool,
    tree: Tree,
    runners: Runners,
    history: History,
    ledger: Ledger,
    responses: seq<Response>,
    outbox: seq<CoreMessage>)

  datatype Config = Config(codec: Codec, sk: string) {
    function Own(): PointHex {
      codec.publicKey(sk)
    }
  }

  const NO_MESSAGES := Ledger([], [], multiset{}, [], 0, 0, 0, 0)

  const NO_RUNNERS := Runners(map[], map[], map[])

  const INITIAL := State(true, map[], NO_RUNNERS, History(NO_RUNNERS, {}, []), NO_MESSAGES, [], [])

  // ---- Back-off ----

  const MAX_ATTEMPTS := 33

  function Power2(n: nat): nat {
    if n == 0 then 1 else 2 * Power2(n - 1)
  }

  /** Seconds until the timer of the given attempt fires. */
  function Delay(attempts: nat): nat {
    if attempts <= 9 then Power2(attempts) else 600
  }

  // ---- Incoming messages ----

  datatype CheckError = InvalidRoom | UnknownGroup | WrongPublicKey | InvalidPayload

  datatype Verdict = Pass | NotForMe | Refused(error: CheckError) | Panics

  /** `valid_sender_and_receiver`. */
  function Check(cfg: Config, tree: Tree, msg: WireMessage): Verdict {
    match ExtractGroupId(msg.room)
    case Err(_) => Refused(InvalidRoom)
    case Ok(groupId) =>
      match GroupAt(tree, groupId)
      case None => Refused(UnknownGroup)
      case Some(group) =>
        if IndexOf(group.publicKeys, msg.senderPublicKey).None? then Refused(WrongPublicKey)
        else
          match cfg.codec.parseGeneric(msg.payload)
          case None => Refused(InvalidPayload)
          case Some(m) =>
            if m.receiver.None? then Pass
            else
              match OwnIndex(group.publicKeys, group.ownPublicKey)
              case None => Panics
              case Some(i) => if m.receiver.value != i then NotForMe else Pass
  }

  /** What all runners have in common. */
  datatype Task = Task(requestId: string, keys: seq<string>, room: string, i: U16)

  function TaskOfKeygen(t: KeygenTask): Task {
    Task(t.request.requestId, t.request.participants, t.room, t.i)
  }

  function TaskOfSign(t: EnrichedSignRequest): Task {
    Task(t.inner.requestId, t.inner.participants, t.room, t.i)
  }

  /** The runner of this kind in this room, if there is one. */
  function TaskAt(rs: Runners, kind: Kind, room: string): Option<Task> {
    match kind
    case Keygen => if room in rs.keygen then Some(TaskOfKeygen(rs.keygen[room])) else None
    case Offline => if room in rs.offline then Some(TaskOfSign(rs.offline[room])) else None
    case Signing => if room in rs.signing then Some(TaskOfSign(rs.signing[room])) else None
  }

  /** One of the three `handle_incoming_*`: needs a runner and a payload of its message type. */
  function HandOver(c: Codec, rs: Runners, kind: Kind, origin: nat, msg: WireMessage): seq<Delivery> {
    match TaskAt(rs, kind, msg.room)
    case Some(task) => if c.decodes(kind, msg.payload) then [Delivery(origin, kind, task.i, msg)] else []
    case None => []
  }

  /** All three handlers are always tried. */
  function HandOvers(c: Codec, rs: Runners, origin: nat, msg: WireMessage): seq<Delivery> {
    HandOver(c, rs, Offline, origin, msg) + HandOver(c, rs, Signing, origin, msg) + HandOver(c, rs, Keygen, origin, msg)
  }

  /** `retry`: drop beyond the last attempt, else set the timer. */
  function Retry(l: Ledger, origin: nat, msg: WireMessage, attempts: U16, checkPassed: bool, waited: nat): Ledger {
    if attempts > MAX_ATTEMPTS then l.(dropped := l.dropped + 1)
    else l.(pending := l.pending + multiset{Scheduled(origin, msg, attempts, checkPassed, waited + Delay(attempts))})
  }

  /** Retry what no runner took. */
  function Settle(l: Ledger, taken: seq<Delivery>, origin: nat, msg: WireMessage, attempts: U16, waited: nat): Ledger {
    if taken == [] then Retry(l, origin, msg, Truncate16(attempts + 1), true, waited)
    else l.(deliveries := l.deliveries + taken, routed := l.routed + 1)
  }

  /** `handle_incoming_unsafe`. */
  function Route(c: Codec, rs: Runners, l: Ledger, origin: nat, msg: WireMessage, attempts: U16, waited: nat): Ledger {
    Settle(l, HandOvers(c, rs, origin, msg), origin, msg, attempts, waited)
  }

  /**
   * `handle_incoming` behind the foreign-group filter, given the outcomes of check and decryption; `None` is a
   * panic.
   */
  function Admit(
      c: Codec, rs: Runners, l: Ledger, origin: nat, msg: WireMessage, verdict: Verdict,
      plain: Option<WireMessage>): Option<Ledger> {
    match verdict
    case Pass =>
      (match plain
       case Some(m) => Some(Route(c, rs, l.(cleared := l.cleared + [origin]), origin, m, 0, 0))
       case None => Some(l.(failed := l.failed + 1)))
    case NotForMe => Some(l.(dropped := l.dropped + 1))
    case Refused(_) => Some(Retry(l, origin, msg, 1, false, 0))
    case Panics => None
  }

  /** `handle_incoming`. */
  function Arrive(cfg: Config, tree: Tree, rs: Runners, l: Ledger, msg: WireMessage): Option<Ledger> {
    var l1 := l.(arrived := l.arrived + [msg]);
    if !Contains(msg.room, Prefix(cfg.Own())) then Some(l1.(dropped := l1.dropped + 1))
    else Admit(cfg.codec, rs, l1, |l.arrived|, msg, Check(cfg, tree, msg), MaybeDecrypt(cfg.codec, cfg.sk, msg))
  }

  /** `handle_retry`: any failure, also a message for another party, is queued again. */
  function Recheck(
      c: Codec, rs: Runners, l: Ledger, r: Scheduled, verdict: Verdict, plain: Option<WireMessage>): Option<Ledger> {
    if verdict.Panics? then None
    else if verdict.Pass? && plain.Some? then
      Some(Route(c, rs, l.(cleared := l.cleared + [r.origin]), r.origin, plain.value, r.attempts, r.waited))
    else Some(Retry(l, r.origin, r.message, Truncate16(r.attempts + 1), false, r.waited))
  }

  /** A timer fires: `handle_incoming_unsafe` if the check has passed, else `handle_retry`. */
  function Fire(cfg: Config, tree: Tree, rs: Runners, l: Ledger, r: Scheduled): Option<Ledger> {
    var l1 := l.(pending := l.pending - multiset{r});
    if r.checkPassed then Some(Route(cfg.codec, rs, l1, r.origin, r.message, r.attempts, r.waited))
    else Recheck(cfg.codec, rs, l1, r, Check(cfg, tree, r.message), MaybeDecrypt(cfg.codec, cfg.sk, r.message))
  }

  /** A runner reports a message as out of order: back to the first attempt. */
  function Bounce(l: Ledger, d: Delivery): Ledger {
    Retry(l.(bounces := l.bounces + 1), d.origin, d.message, 1, true, 0)
  }

  // ---- Requests and results ----

  function Dead(s: State): State {
    s.(alive := false)
  }

  function Respond(
      s: State, requestId: string, result: string, requestType: RequestType, status: RequestStatus): State {
    s.(responses := s.responses + [Response(requestId, result, requestType, status)])
  }

  function Use(s: State, requestId: string): State {
    s.(history := s.history.(used := s.history.used + {requestId}))
  }

  /** The started player is mapped and owes a result. */
  function StartKeygen(s: State, task: KeygenTask): State {
    s.(runners := AddKeygen(s.runners, task), history := s.history.(waiting := AddKeygen(s.history.waiting, task)))
  }

  function StartOffline(s: State, task: EnrichedSignRequest): State {
    s.(runners := AddOffline(s.runners, task), history := s.history.(waiting := AddOffline(s.history.waiting, task)))
  }

  function StartSigner(s: State, task: EnrichedSignRequest): State {
    s.(runners := AddSigner(s.runners, task), history := s.history.(waiting := AddSigner(s.history.waiting, task)))
  }

  function StoreGroup(s: State, group: PublicKeyGroup): State {
    s.(tree := WithGroup(s.tree, group))
  }

  function OnKeygenRequest(cfg: Config, s: State, req: KeygenRequest, machineStarts: bool): State {
    var s1 := Respond(Use(s, req.requestId), req.requestId, "", KeygenType, Processing);
    if !Sliceable(req.participants) || OwnIndex(req.participants, cfg.Own()).None? then Dead(s1)
    else if !machineStarts then s1
    else
      var group := GroupOf(req.participants, Truncate16(req.threshold), cfg.Own());
      var task := KeygenTask(req, RoomId(req.requestId, group.groupId), OwnIndex(req.participants, cfg.Own()).value);
      StartKeygen(StoreGroup(s1, group), task)
  }

  /** `handle_sign_request` once the local share has been read. */
  function SignWith(cfg: Config, s: State, req: SignRequest, stored: StoredShare, machineStarts: bool): State {
    if !Sliceable(stored.publicKeys) || !Sliceable(req.participants) then Dead(s)
    else
      var subgroup := GroupOf(req.participants, stored.share.t, cfg.Own());
      var s1 := StoreGroup(s, subgroup);
      match SelectSigners(stored.publicKeys, req.participants, stored.share.t)
      case Err(_) => s1
      case Ok(signers) =>
        var s2 := Respond(s1, req.requestId, "", SignType, Processing);
        if OwnIndex(stored.publicKeys, cfg.Own()).None? || OwnIndex(req.participants, cfg.Own()).None? then Dead(s2)
        else if !machineStarts then s2
        else
          var room := RoomId(req.requestId, subgroup.groupId);
          StartOffline(s2, EnrichedSignRequest(req, room, OwnIndex(req.participants, cfg.Own()).value, signers))
  }

  function OnSignRequest(cfg: Config, s: State, req: SignRequest, machineStarts: bool): State {
    var s1 := Use(s, req.requestId);
    match ShareAt(cfg.codec, cfg.sk, s1.tree, req.publicKey)
    case None => s1
    case Some(stored) => SignWith(cfg, s1, req, stored, machineStarts)
  }

  /** The share of a finished key generation is sealed and saved. */
  function StoreShare(cfg: Config, s: State, task: KeygenTask, key: LocalKey, nonce: nat): State {
    s.(tree := WithShare(cfg.codec, s.tree, StoredShare(task.request.participants, cfg.Own(), key), nonce),
       history := s.history.(completed := s.history.completed + [Completed(task, key)]))
  }

  /** The result of key generation. The room is removed from the offline runners, not from the keygen ones. */
  function OnKeygenDone(cfg: Config, s: State, task: KeygenTask, key: LocalKey, nonce: nat): State {
    var req := task.request;
    if !Sliceable(req.participants) then Dead(s)
    else
      var room := RoomId(req.requestId, GroupId(req.participants));
      var s1 := s.(
        runners := DropOffline(s.runners, room),
        history := s.history.(waiting := DropKeygen(s.history.waiting, task.room)));
      Respond(StoreShare(cfg, s1, task, key, nonce), req.requestId, key.sumPublicKey, KeygenType, Done)
  }

  /** The result of the offline stage: hand over to a signer, unless the hash does not parse. */
  function OnOfflineDone(cfg: Config, s: State, task: EnrichedSignRequest): State {
    var s1 := s.(
      runners := DropOffline(s.runners, task.room),
      history := s.history.(waiting := DropOffline(s.history.waiting, task.room)));
    if !cfg.codec.hashParses(task.inner.hash) then Respond(s1, task.inner.requestId, "", SignType, Error)
    else Respond(StartSigner(s1, task), task.inner.requestId, "", SignType, Processing)
  }

  /** The signature: the signer stays mapped. */
  function OnSignDone(s: State, task: EnrichedSignRequest, signature: string): State {
    var s1 := s.(history := s.history.(waiting := DropSigner(s.history.waiting, task.room)));
    Respond(s1, task.inner.requestId, signature, SignType, Done)
  }

  function OnOutgoing(cfg: Config, s: State, msg: CoreMessage, nonce: nat): State {
    match MaybeEncrypt(cfg.codec, s.tree, msg, nonce)
    case Some(m) => s.(outbox := s.outbox + [m])
    case None => s
  }

  function WithLedger(s: State, l: Option<Ledger>): State {
    match l
    case Some(ledger) => s.(ledger := ledger)
    case None => Dead(s)
  }

  // ---- Runs ----

  datatype Event =
    | Incoming(message: WireMessage)
    | TimerFires(retry: Scheduled)
    | OutOfOrder(delivery: Delivery)
    | Outgoing(core: CoreMessage, nonce: nat)
    | KeygenRequested(keygen: KeygenRequest, machineStarts: bool)
    | SignRequested(sign: SignRequest, machineStarts: bool)
    | KeygenFinished(room: string, key: LocalKey, nonce: nat)
    | OfflineFinished(room: string)
    | SignFinished(room: string, signature: string)

  /** What can happen next: only set timers fire, only delivered messages bounce, only waiting runners finish. */
  predicate Enabled(s: State, ev: Event) {
    && s.alive
    && match ev
       case TimerFires(r) => r in s.ledger.pending
       case OutOfOrder(d) => d in s.ledger.deliveries && !d.kind.Signing?
       case KeygenFinished(room, _, _) => room in s.history.waiting.keygen
       case OfflineFinished(room) => room in s.history.waiting.offline
       case SignFinished(room, _) => room in s.history.waiting.signing
       case _ => true
  }

  function Step(cfg: Config, s: State, ev: Event): State
    requires Enabled(s, ev)
  {
    match ev
    case Incoming(msg) => WithLedger(s, Arrive(cfg, s.tree, s.runners, s.ledger, msg))
    case TimerFires(r) => WithLedger(s, Fire(cfg, s.tree, s.runners, s.ledger, r))
    case OutOfOrder(d) => s.(ledger := Bounce(s.ledger, d))
    case Outgoing(msg, nonce) => OnOutgoing(cfg, s, msg, nonce)
    case KeygenRequested(req, machineStarts) => OnKeygenRequest(cfg, s, req, machineStarts)
    case SignRequested(req, machineStarts) => OnSignRequest(cfg, s, req, machineStarts)
    case KeygenFinished(room, key, nonce) => OnKeygenDone(cfg, s, s.history.waiting.keygen[room], key, nonce)
    case OfflineFinished(room) => OnOfflineDone(cfg, s, s.history.waiting.offline[room])
    case SignFinished(room, signature) => OnSignDone(s, s.history.waiting.signing[room], signature)
  }

  /** Every interleaving of events that the outside can produce, from the initial state. */
  ghost predicate Legal(cfg: Config, events: seq<Event>)
    decreases |events|, 0
  {
    events == [] ||
    var n := |events| - 1;
    Legal(cfg, events[..n]) && Enabled(After(cfg, events[..n]), events[n])
  }

  ghost function After(cfg: Config, events: seq<Event>): State
    requires Legal(cfg, events)
    decreases |events|, 1
  {
    if events == [] then INITIAL
    else
      var n := |events| - 1;
      Step(cfg, After(cfg, events[..n]), events[n])
  }

  /** A request id is separator-free and new to this node. */
  predicate FreshRequest(s: State, ev: Event) {
    match ev
    case KeygenRequested(req, _) => SEPARATOR !in req.requestId && req.requestId !in s.history.used
    case SignRequested(req, _) => SEPARATOR !in req.requestId && req.requestId !in s.history.used
    case _ => true
  }

  /** A legal run in which no request id is ever reused. */
  ghost predicate LegalUnique(cfg: Config, events: seq<Event>)
    ensures LegalUnique(cfg, events) ==> Legal(cfg, events)
  {
    events == [] ||
    var n := |events| - 1;
    && LegalUnique(cfg, events[..n])
    && Enabled(After(cfg, events[..n]), events[n])
    && FreshRequest(After(cfg, events[..n]), events[n])
  }
}

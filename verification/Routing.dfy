/**
 * What every run keeps about the database and the runner maps: stored groups carry their own
 * key list, each room belongs to one runner, signers keep their key-generation index.
 */
module Routing {
  import opened Basics
  import opened Codecs
  import opened Rooms
  import opened Groups
  import opened Storage
  import opened Envelopes
  import opened CoordinatorSpec
  import opened MessageLife

  /** Whatever is known of every key list that requests bring in. */
  type KeyLaw = seq<string> -> bool

  ghost function AnyKeys(): KeyLaw {
    keys => true
  }

  ghost predicate KeysKnown(known: KeyLaw, ev: Event) {
    match ev
    case KeygenRequested(req, _) => known(req.participants)
    case SignRequested(req, _) => known(req.participants)
    case _ => true
  }

  // ---- The database ----

  /** Group records are keyed by their own key list, share records by a curve point. */
  ghost predicate TreeOk(own: string, known: KeyLaw, tree: Tree) {
    && Separated(tree)
    && forall key | key in tree && tree[key].GroupRecord? ::
         var g := tree[key].group;
             Sliceable(g.publicKeys) && known(g.publicKeys) && g == GroupOf(g.publicKeys, g.t, own)
  }

  lemma WithGroupKeepsTree(own: string, known: KeyLaw, tree: Tree, keys: seq<string>, t: U16)
    requires TreeOk(own, known, tree) && Sliceable(keys) && known(keys)
    ensures TreeOk(own, known, WithGroup(tree, GroupOf(keys, t, own)))
    ensures GroupAt(WithGroup(tree, GroupOf(keys, t, own)), GroupId(keys)).Some?
  {
    GroupIdLength(keys);
  }

  lemma WithShareKeepsTree(c: Codec, own: string, known: KeyLaw, tree: Tree, stored: StoredShare, nonce: nat)
    requires TreeOk(own, known, tree)
    ensures TreeOk(own, known, WithShare(c, tree, stored, nonce))
  {
  }

  // ---- The runner maps ----

  /** A runner sits in the room of its own request, knows its own index and has its group on file. */
  ghost predicate TaskOk(own: string, known: KeyLaw, tree: Tree, used: set<string>, room: string, t: Task) {
    && t.room == room && t.requestId in used && known(t.keys)
    && Sliceable(t.keys) && room == RoomId(t.requestId, GroupId(t.keys))
    && OwnIndex(t.keys, own) == Some(t.i)
    && GroupAt(tree, GroupId(t.keys)).Some?
  }

  ghost predicate RunnersOk(own: string, known: KeyLaw, tree: Tree, used: set<string>, rs: Runners) {
    forall kind, room :: TaskAt(rs, kind, room).Some? ==>
      TaskOk(own, known, tree, used, room, TaskAt(rs, kind, room).value)
  }

  /** A larger database and more used ids take nothing from a runner. */
  lemma GrowthKeepsRunners(
      own: string, known: KeyLaw, tree: Tree, tree': Tree, used: set<string>, used': set<string>, rs: Runners)
    requires RunnersOk(own, known, tree, used, rs) && Grows(tree, tree') && used <= used'
    ensures RunnersOk(own, known, tree', used', rs)
  {
    forall kind, room | TaskAt(rs, kind, room).Some?
      ensures TaskOk(own, known, tree', used', room, TaskAt(rs, kind, room).value)
    {
      assert TaskOk(own, known, tree, used, room, TaskAt(rs, kind, room).value);
    }
  }

  lemma AddKeygenKeeps(own: string, known: KeyLaw, tree: Tree, used: set<string>, rs: Runners, task: KeygenTask)
    requires RunnersOk(own, known, tree, used, rs) && TaskOk(own, known, tree, used, task.room, TaskOfKeygen(task))
    ensures RunnersOk(own, known, tree, used, AddKeygen(rs, task))
  {
    assert forall kind, room ::
        (kind == Keygen && room == task.room) || TaskAt(AddKeygen(rs, task), kind, room) == TaskAt(rs, kind, room);
  }

  lemma AddOfflineKeeps(
      own: string, known: KeyLaw, tree: Tree, used: set<string>, rs: Runners, task: EnrichedSignRequest)
    requires RunnersOk(own, known, tree, used, rs) && TaskOk(own, known, tree, used, task.room, TaskOfSign(task))
    ensures RunnersOk(own, known, tree, used, AddOffline(rs, task))
  {
    assert forall kind, room ::
        (kind == Offline && room == task.room) || TaskAt(AddOffline(rs, task), kind, room) == TaskAt(rs, kind, room);
  }

  lemma AddSignerKeeps(
      own: string, known: KeyLaw, tree: Tree, used: set<string>, rs: Runners, task: EnrichedSignRequest)
    requires RunnersOk(own, known, tree, used, rs) && TaskOk(own, known, tree, used, task.room, TaskOfSign(task))
    ensures RunnersOk(own, known, tree, used, AddSigner(rs, task))
  {
    assert forall kind, room ::
        (kind == Signing && room == task.room) || TaskAt(AddSigner(rs, task), kind, room) == TaskAt(rs, kind, room);
  }

  lemma FewerKeeps(own: string, known: KeyLaw, tree: Tree, used: set<string>, rs: Runners, rs': Runners)
    requires RunnersOk(own, known, tree, used, rs)
    requires forall kind, room :: TaskAt(rs', kind, room).Some? ==> TaskAt(rs', kind, room) == TaskAt(rs, kind, room)
    ensures RunnersOk(own, known, tree, used, rs')
  {
    forall kind, room | TaskAt(rs', kind, room).Some?
      ensures TaskOk(own, known, tree, used, room, TaskAt(rs', kind, room).value)
    {
      assert TaskAt(rs', kind, room) == TaskAt(rs, kind, room);
    }
  }

  lemma DropKeeps(own: string, known: KeyLaw, tree: Tree, used: set<string>, rs: Runners, room: string)
    requires RunnersOk(own, known, tree, used, rs)
    ensures RunnersOk(own, known, tree, used, DropKeygen(rs, room))
    ensures RunnersOk(own, known, tree, used, DropOffline(rs, room))
    ensures RunnersOk(own, known, tree, used, DropSigner(rs, room))
  {
    FewerKeeps(own, known, tree, used, rs, DropKeygen(rs, room));
    FewerKeeps(own, known, tree, used, rs, DropOffline(rs, room));
    FewerKeeps(own, known, tree, used, rs, DropSigner(rs, room));
  }

  ghost predicate NodeOk(cfg: Config, known: KeyLaw, s: State) {
    && TreeOk(cfg.Own(), known, s.tree)
    && RunnersOk(cfg.Own(), known, s.tree, s.history.used, s.runners)
    && RunnersOk(cfg.Own(), known, s.tree, s.history.used, s.history.waiting)
  }

  // ---- The pieces of the handlers ----

  lemma UseKeeps(cfg: Config, known: KeyLaw, s: State, requestId: string)
    requires NodeOk(cfg, known, s)
    ensures NodeOk(cfg, known, Use(s, requestId))
  {
    var used := s.history.used + {requestId};
    GrowthKeepsRunners(cfg.Own(), known, s.tree, s.tree, s.history.used, used, s.runners);
    GrowthKeepsRunners(cfg.Own(), known, s.tree, s.tree, s.history.used, used, s.history.waiting);
  }

  lemma StoreGroupKeeps(cfg: Config, known: KeyLaw, s: State, keys: seq<string>, t: U16)
    requires NodeOk(cfg, known, s) && Sliceable(keys) && known(keys)
    ensures NodeOk(cfg, known, StoreGroup(s, GroupOf(keys, t, cfg.Own())))
    ensures GroupAt(StoreGroup(s, GroupOf(keys, t, cfg.Own())).tree, GroupId(keys)).Some?
  {
    var tree := WithGroup(s.tree, GroupOf(keys, t, cfg.Own()));
    WithGroupKeepsTree(cfg.Own(), known, s.tree, keys, t);
    GrowthKeepsRunners(cfg.Own(), known, s.tree, tree, s.history.used, s.history.used, s.runners);
    GrowthKeepsRunners(cfg.Own(), known, s.tree, tree, s.history.used, s.history.used, s.history.waiting);
  }

  lemma StoreShareKeeps(cfg: Config, known: KeyLaw, s: State, task: KeygenTask, key: LocalKey, nonce: nat)
    requires NodeOk(cfg, known, s)
    ensures NodeOk(cfg, known, StoreShare(cfg, s, task, key, nonce))
  {
    var stored := StoredShare(task.request.participants, cfg.Own(), key);
    var tree := WithShare(cfg.codec, s.tree, stored, nonce);
    WithShareKeepsTree(cfg.codec, cfg.Own(), known, s.tree, stored, nonce);
    GrowthKeepsRunners(cfg.Own(), known, s.tree, tree, s.history.used, s.history.used, s.runners);
    GrowthKeepsRunners(cfg.Own(), known, s.tree, tree, s.history.used, s.history.used, s.history.waiting);
  }

  lemma StartKeygenKeeps(cfg: Config, known: KeyLaw, s: State, task: KeygenTask)
    requires NodeOk(cfg, known, s) && TaskOk(cfg.Own(), known, s.tree, s.history.used, task.room, TaskOfKeygen(task))
    ensures NodeOk(cfg, known, StartKeygen(s, task))
  {
    AddKeygenKeeps(cfg.Own(), known, s.tree, s.history.used, s.runners, task);
    AddKeygenKeeps(cfg.Own(), known, s.tree, s.history.used, s.history.waiting, task);
  }

  lemma StartOfflineKeeps(cfg: Config, known: KeyLaw, s: State, task: EnrichedSignRequest)
    requires NodeOk(cfg, known, s) && TaskOk(cfg.Own(), known, s.tree, s.history.used, task.room, TaskOfSign(task))
    ensures NodeOk(cfg, known, StartOffline(s, task))
  {
    AddOfflineKeeps(cfg.Own(), known, s.tree, s.history.used, s.runners, task);
    AddOfflineKeeps(cfg.Own(), known, s.tree, s.history.used, s.history.waiting, task);
  }

  lemma StartSignerKeeps(cfg: Config, known: KeyLaw, s: State, task: EnrichedSignRequest)
    requires NodeOk(cfg, known, s) && TaskOk(cfg.Own(), known, s.tree, s.history.used, task.room, TaskOfSign(task))
    ensures NodeOk(cfg, known, StartSigner(s, task))
  {
    AddSignerKeeps(cfg.Own(), known, s.tree, s.history.used, s.runners, task);
    AddSignerKeeps(cfg.Own(), known, s.tree, s.history.used, s.history.waiting, task);
  }

  // ---- The handlers ----

  lemma KeygenRequestKeepsNode(cfg: Config, known: KeyLaw, s: State, req: KeygenRequest, machineStarts: bool)
    requires NodeOk(cfg, known, s) && known(req.participants)
    ensures NodeOk(cfg, known, OnKeygenRequest(cfg, s, req, machineStarts))
  {
    UseKeeps(cfg, known, s, req.requestId);
    var s1 := Respond(Use(s, req.requestId), req.requestId, "", KeygenType, Processing);
    if Sliceable(req.participants) && OwnIndex(req.participants, cfg.Own()).Some? {
      var group := GroupOf(req.participants, Truncate16(req.threshold), cfg.Own());
      StoreGroupKeeps(cfg, known, s1, req.participants, Truncate16(req.threshold));
      StartKeygenKeeps(cfg, known, StoreGroup(s1, group),
                       KeygenTask(req, RoomId(req.requestId, group.groupId),
                           OwnIndex(req.participants, cfg.Own()).value));
    }
  }

  lemma {:induction false} SignWithKeepsNode(
      cfg: Config, known: KeyLaw, s: State, req: SignRequest, stored: StoredShare, machineStarts: bool)
    requires NodeOk(cfg, known, s) && req.requestId in s.history.used && known(req.participants)
    ensures NodeOk(cfg, known, SignWith(cfg, s, req, stored, machineStarts))
  {
    if Sliceable(req.participants) {
      var subgroup := GroupOf(req.participants, stored.share.t, cfg.Own());
      StoreGroupKeeps(cfg, known, s, req.participants, stored.share.t);
      var s2 := Respond(StoreGroup(s, subgroup), req.requestId, "", SignType, Processing);
      var selected := SelectSigners(stored.publicKeys, req.participants, stored.share.t);
      if selected.Ok? && OwnIndex(req.participants, cfg.Own()).Some? {
        var room := RoomId(req.requestId, subgroup.groupId);
        StartOfflineKeeps(cfg, known, s2,
            EnrichedSignRequest(req, room, OwnIndex(req.participants, cfg.Own()).value, selected.value));
      }
    }
  }

  lemma KeygenDoneKeepsNode(cfg: Config, known: KeyLaw, s: State, room: string, key: LocalKey, nonce: nat)
    requires NodeOk(cfg, known, s) && room in s.history.waiting.keygen
    ensures NodeOk(cfg, known, OnKeygenDone(cfg, s, s.history.waiting.keygen[room], key, nonce))
  {
    var task := s.history.waiting.keygen[room];
    assert TaskAt(s.history.waiting, Keygen, room) == Some(TaskOfKeygen(task));
    DropKeeps(cfg.Own(), known, s.tree, s.history.used, s.runners, room);
    DropKeeps(cfg.Own(), known, s.tree, s.history.used, s.history.waiting, room);
    var s1 := s.(
      runners := DropOffline(s.runners, room),
      history := s.history.(waiting := DropKeygen(s.history.waiting, room)));
    StoreShareKeeps(cfg, known, s1, task, key, nonce);
  }

  lemma OfflineDoneKeepsNode(cfg: Config, known: KeyLaw, s: State, room: string)
    requires NodeOk(cfg, known, s) && room in s.history.waiting.offline
    ensures NodeOk(cfg, known, OnOfflineDone(cfg, s, s.history.waiting.offline[room]))
  {
    var task := s.history.waiting.offline[room];
    assert TaskAt(s.history.waiting, Offline, room) == Some(TaskOfSign(task));
    DropKeeps(cfg.Own(), known, s.tree, s.history.used, s.runners, room);
    DropKeeps(cfg.Own(), known, s.tree, s.history.used, s.history.waiting, room);
    var s1 := s.(
      runners := DropOffline(s.runners, room),
      history := s.history.(waiting := DropOffline(s.history.waiting, room)));
    StartSignerKeeps(cfg, known, s1, task);
  }

  lemma SignDoneKeepsNode(cfg: Config, known: KeyLaw, s: State, room: string, signature: string)
    requires NodeOk(cfg, known, s) && room in s.history.waiting.signing
    ensures NodeOk(cfg, known, OnSignDone(s, s.history.waiting.signing[room], signature))
  {
    DropKeeps(cfg.Own(), known, s.tree, s.history.used, s.history.waiting, s.history.waiting.signing[room].room);
  }

  lemma StepKeepsNode(cfg: Config, known: KeyLaw, s: State, ev: Event)
    requires NodeOk(cfg, known, s) && Enabled(s, ev) && KeysKnown(known, ev)
    ensures NodeOk(cfg, known, Step(cfg, s, ev))
  {
    match ev
    case KeygenRequested(req, machineStarts) => KeygenRequestKeepsNode(cfg, known, s, req, machineStarts);
    case SignRequested(req, machineStarts) =>
      UseKeeps(cfg, known, s, req.requestId);
      var stored := ShareAt(cfg.codec, cfg.sk, s.tree, req.publicKey);
      if stored.Some? {
        SignWithKeepsNode(cfg, known, Use(s, req.requestId), req, stored.value, machineStarts);
      }
    case KeygenFinished(room, key, nonce) => KeygenDoneKeepsNode(cfg, known, s, room, key, nonce);
    case OfflineFinished(room) => OfflineDoneKeepsNode(cfg, known, s, room);
    case SignFinished(room, signature) => SignDoneKeepsNode(cfg, known, s, room, signature);
    case _ =>
  }

  // ---- Unique request ids ----

  /** A room belongs to at most one runner. */
  ghost predicate Exclusive(rs: Runners) {
    && (forall room | room in rs.keygen :: room !in rs.offline && room !in rs.signing)
    && (forall room | room in rs.offline :: room !in rs.signing)
  }

  ghost predicate UniqueOk(s: State) {
    && (forall id | id in s.history.used :: SEPARATOR !in id)
    && Exclusive(s.runners)
    && s.history.waiting.offline == s.runners.offline
    && (forall room | room in s.history.waiting.keygen :: room in s.runners.keygen)
    && s.ledger.routed == |s.ledger.deliveries|
  }

  /** A new request's room is nobody's yet. */
  lemma FreshRoom(cfg: Config, known: KeyLaw, s: State, requestId: string, groupId: string, kind: Kind)
    requires NodeOk(cfg, known, s) && UniqueOk(s)
    requires requestId !in s.history.used && SEPARATOR !in requestId
    ensures TaskAt(s.runners, kind, RoomId(requestId, groupId)).None?
  {
    var room := RoomId(requestId, groupId);
    var there := TaskAt(s.runners, kind, room);
    if there.Some? {
      RoomIdInjective(requestId, groupId, there.value.requestId, GroupId(there.value.keys));
    }
  }

  lemma StartKeygenUnique(s: State, task: KeygenTask)
    requires UniqueOk(s) && task.room !in s.runners.offline && task.room !in s.runners.signing
    ensures UniqueOk(StartKeygen(s, task))
  {
  }

  lemma StartOfflineUnique(s: State, task: EnrichedSignRequest)
    requires UniqueOk(s) && task.room !in s.runners.keygen && task.room !in s.runners.signing
    ensures UniqueOk(StartOffline(s, task))
  {
  }

  lemma StartSignerUnique(s: State, task: EnrichedSignRequest)
    requires UniqueOk(s) && task.room !in s.runners.keygen && task.room !in s.runners.offline
    ensures UniqueOk(StartSigner(s, task))
  {
  }

  lemma KeygenRequestUnique(cfg: Config, known: KeyLaw, s: State, req: KeygenRequest, machineStarts: bool)
    requires NodeOk(cfg, known, s) && UniqueOk(s)
    requires req.requestId !in s.history.used && SEPARATOR !in req.requestId
    ensures UniqueOk(OnKeygenRequest(cfg, s, req, machineStarts))
  {
    var s1 := Respond(Use(s, req.requestId), req.requestId, "", KeygenType, Processing);
    if Sliceable(req.participants) && OwnIndex(req.participants, cfg.Own()).Some? {
      var group := GroupOf(req.participants, Truncate16(req.threshold), cfg.Own());
      FreshRoom(cfg, known, s, req.requestId, group.groupId, Offline);
      FreshRoom(cfg, known, s, req.requestId, group.groupId, Signing);
      StartKeygenUnique(StoreGroup(s1, group),
                        KeygenTask(req, RoomId(req.requestId, group.groupId),
                            OwnIndex(req.participants, cfg.Own()).value));
    }
  }

  lemma SignWithUnique(cfg: Config, s: State, req: SignRequest, stored: StoredShare, machineStarts: bool)
    requires UniqueOk(s)
    requires Sliceable(req.participants) ==>
               var room := RoomId(req.requestId, GroupId(req.participants));
               room !in s.runners.keygen && room !in s.runners.signing
    ensures UniqueOk(SignWith(cfg, s, req, stored, machineStarts))
  {
    if Sliceable(req.participants) {
      var subgroup := GroupOf(req.participants, stored.share.t, cfg.Own());
      var s2 := Respond(StoreGroup(s, subgroup), req.requestId, "", SignType, Processing);
      var selected := SelectSigners(stored.publicKeys, req.participants, stored.share.t);
      if selected.Ok? && OwnIndex(req.participants, cfg.Own()).Some? {
        StartOfflineUnique(s2,
            EnrichedSignRequest(req, RoomId(req.requestId, subgroup.groupId),
                OwnIndex(req.participants, cfg.Own()).value, selected.value));
      }
    }
  }

  lemma {:induction false} SignRequestUnique(
      cfg: Config, known: KeyLaw, s: State, req: SignRequest, machineStarts: bool)
    requires NodeOk(cfg, known, s) && UniqueOk(s)
    requires req.requestId !in s.history.used && SEPARATOR !in req.requestId
    ensures UniqueOk(OnSignRequest(cfg, s, req, machineStarts))
  {
    if Sliceable(req.participants) {
      FreshRoom(cfg, known, s, req.requestId, GroupId(req.participants), Keygen);
      FreshRoom(cfg, known, s, req.requestId, GroupId(req.participants), Signing);
    }
    var stored := ShareAt(cfg.codec, cfg.sk, s.tree, req.publicKey);
    if stored.Some? {
      SignWithUnique(cfg, Use(s, req.requestId), req, stored.value, machineStarts);
    }
  }

  /** Removing the finished room from the offline runners, as the keygen output handler does, removes nothing. */
  lemma KeygenDoneKeepsUnique(cfg: Config, known: KeyLaw, s: State, room: string, key: LocalKey, nonce: nat)
    requires NodeOk(cfg, known, s) && UniqueOk(s) && room in s.history.waiting.keygen
    ensures UniqueOk(OnKeygenDone(cfg, s, s.history.waiting.keygen[room], key, nonce))
    ensures OnKeygenDone(cfg, s, s.history.waiting.keygen[room], key, nonce).runners == s.runners
  {
    assert TaskAt(s.history.waiting, Keygen, room).Some?;
    assert s.runners.offline - {room} == s.runners.offline;
  }

  /** The hand-over from the offline stage to the signer keeps rooms apart. */
  lemma OfflineDoneKeepsUnique(cfg: Config, known: KeyLaw, s: State, room: string)
    requires NodeOk(cfg, known, s) && UniqueOk(s) && room in s.history.waiting.offline
    ensures UniqueOk(OnOfflineDone(cfg, s, s.history.waiting.offline[room]))
  {
    var task := s.history.waiting.offline[room];
    assert TaskAt(s.history.waiting, Offline, room).Some?;
    StartSignerUnique(s.(
      runners := DropOffline(s.runners, room),
      history := s.history.(waiting := DropOffline(s.history.waiting, room))), task);
  }

  /** All three handlers are tried, and at most one of them succeeds. */
  lemma AtMostOneHandOver(c: Codec, rs: Runners, origin: nat, msg: WireMessage)
    requires Exclusive(rs)
    ensures |HandOvers(c, rs, origin, msg)| <= 1
  {
  }

  lemma RouteIsOneHandOver(c: Codec, rs: Runners, l: Ledger, origin: nat, msg: WireMessage, attempts: U16, waited: nat)
    requires Exclusive(rs) && l.routed == |l.deliveries|
    ensures var l' := Route(c, rs, l, origin, msg, attempts, waited);
            l'.routed == |l'.deliveries|
  {
    AtMostOneHandOver(c, rs, origin, msg);
  }

  lemma AdmitIsOneHandOver(
      c: Codec, rs: Runners, l: Ledger, origin: nat, msg: WireMessage, verdict: Verdict, plain: Option<WireMessage>)
    requires Exclusive(rs) && l.routed == |l.deliveries|
    ensures var l' := Admit(c, rs, l, origin, msg, verdict, plain);
            l'.Some? ==> l'.value.routed == |l'.value.deliveries|
  {
    if plain.Some? {
      RouteIsOneHandOver(c, rs, l.(cleared := l.cleared + [origin]), origin, plain.value, 0, 0);
    }
  }

  lemma RecheckIsOneHandOver(
      c: Codec, rs: Runners, l: Ledger, r: Scheduled, verdict: Verdict, plain: Option<WireMessage>)
    requires Exclusive(rs) && l.routed == |l.deliveries|
    ensures var l' := Recheck(c, rs, l, r, verdict, plain);
            l'.Some? ==> l'.value.routed == |l'.value.deliveries|
  {
    if plain.Some? {
      RouteIsOneHandOver(c, rs, l.(cleared := l.cleared + [r.origin]), r.origin, plain.value, r.attempts, r.waited);
    }
  }

  lemma {:induction false} MessageKeepsUnique(cfg: Config, s: State, ev: Event)
    requires UniqueOk(s) && Enabled(s, ev)
    requires IsMessageEvent(ev)
    ensures UniqueOk(Step(cfg, s, ev))
  {
    var c, rs, l := cfg.codec, s.runners, s.ledger;
    MessageEventsTouchLedgerOnly(cfg, s, ev);
    match ev
    case Incoming(msg) =>
      AdmitIsOneHandOver(c, rs, l.(arrived := l.arrived + [msg]), |l.arrived|, msg, Check(cfg, s.tree, msg),
          MaybeDecrypt(c, cfg.sk, msg));
    case TimerFires(r) =>
      var l1 := l.(pending := l.pending - multiset{r});
      RouteIsOneHandOver(c, rs, l1, r.origin, r.message, r.attempts, r.waited);
      RecheckIsOneHandOver(c, rs, l1, r, Check(cfg, s.tree, r.message), MaybeDecrypt(c, cfg.sk, r.message));
    case OutOfOrder(_) =>
  }

  lemma StepKeepsUnique(cfg: Config, known: KeyLaw, s: State, ev: Event)
    requires NodeOk(cfg, known, s) && UniqueOk(s) && Enabled(s, ev) && FreshRequest(s, ev)
    ensures UniqueOk(Step(cfg, s, ev))
  {
    match ev
    case Incoming(_) => MessageKeepsUnique(cfg, s, ev);
    case TimerFires(_) => MessageKeepsUnique(cfg, s, ev);
    case OutOfOrder(_) => MessageKeepsUnique(cfg, s, ev);
    case Outgoing(_, _) =>
    case KeygenRequested(req, machineStarts) => KeygenRequestUnique(cfg, known, s, req, machineStarts);
    case SignRequested(req, machineStarts) => SignRequestUnique(cfg, known, s, req, machineStarts);
    case KeygenFinished(room, key, nonce) => KeygenDoneKeepsUnique(cfg, known, s, room, key, nonce);
    case OfflineFinished(room) => OfflineDoneKeepsUnique(cfg, known, s, room);
    case SignFinished(_, _) =>
  }
}

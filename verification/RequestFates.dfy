/**
 * What a request and a runner's result do to the coordinator, said of the state before and after
 * and of nothing in between.
 */
module RequestFates {
  import opened Basics
  import opened Codecs
  import opened Rooms
  import opened Groups
  import opened Storage
  import opened CoordinatorSpec
  import opened Routing
  import opened CoordinatorTheorems

  /** The first place of the key in the list, counted from 1 and cut to 16 bits. */
  ghost predicate IsPlaceOf(keys: seq<string>, key: string, i: U16) {
    exists k :: 0 <= k < |keys| && keys[k] == key && key !in keys[..k] && i == (k + 1) % 0x10000
  }

  lemma OwnIndexIsPlace(keys: seq<string>, own: string)
    requires own in keys
    ensures OwnIndex(keys, own).Some? && IsPlaceOf(keys, own, OwnIndex(keys, own).value)
  {
    var first := IndexOf(keys, own).value;
    assert keys[first - 1] == own && own !in keys[..first - 1];
  }

  /** The group of this key list and threshold is on file, unless its id was taken before; nothing else changed. */
  ghost predicate FiledFirst(cfg: Config, tree: Tree, keys: seq<string>, threshold: nat, tree': Tree)
    requires Sliceable(keys)
  {
    var group := PublicKeyGroup(GroupId(keys), threshold % 0x10000, keys, cfg.Own());
    if GroupId(keys) in tree then tree' == tree else tree' == tree[GroupId(keys) := GroupRecord(group)]
  }

  // ---- Requests ----

  /** The new player of a key generation sits in the room of its id and group, at this node's own place. */
  ghost predicate KeygenPlayerOf(cfg: Config, req: KeygenRequest, task: KeygenTask)
    requires Sliceable(req.participants)
  {
    && task.request == req && task.room == req.requestId + ['@'] + GroupId(req.participants)
    && IsPlaceOf(req.participants, cfg.Own(), task.i)
  }

  ghost predicate KeygenStarted(cfg: Config, s: State, req: KeygenRequest, task: KeygenTask, s': State)
    requires Sliceable(req.participants)
  {
    && KeygenPlayerOf(cfg, req, task)
    && s'.runners == s.runners.(keygen := s.runners.keygen[task.room := task])
    && s'.history.waiting == s.history.waiting.(keygen := s.history.waiting.keygen[task.room := task])
    && FiledFirst(cfg, s.tree, req.participants, req.threshold, s'.tree)
  }

  /** Processing is always announced. Without this node among the keys, or with too short a key, it panics. */
  ghost predicate KeygenFate(cfg: Config, s: State, req: KeygenRequest, starts: bool, s': State) {
    && s'.responses == s.responses + [Response(req.requestId, "", KeygenType, Processing)]
    && s'.ledger == s.ledger && s'.outbox == s.outbox && s'.history.completed == s.history.completed
    && s'.history.used == s.history.used + {req.requestId}
    && if Sliceable(req.participants) && cfg.Own() in req.participants && starts then
         s'.alive == s.alive && exists task :: KeygenStarted(cfg, s, req, task, s')
       else
         && s'.runners == s.runners && s'.tree == s.tree && s'.history.waiting == s.history.waiting
         && s'.alive == (s.alive && Sliceable(req.participants) && cfg.Own() in req.participants)
  }

  lemma KeygenHasFate(cfg: Config, s: State, req: KeygenRequest, starts: bool)
    requires Enabled(s, KeygenRequested(req, starts))
    ensures KeygenFate(cfg, s, req, starts, Step(cfg, s, KeygenRequested(req, starts)))
  {
    var s' := Step(cfg, s, KeygenRequested(req, starts));
    if Sliceable(req.participants) && cfg.Own() in req.participants && starts {
      OwnIndexIsPlace(req.participants, cfg.Own());
      var room := RoomId(req.requestId, GroupId(req.participants));
      assert KeygenStarted(cfg, s, req, s'.runners.keygen[room], s');
    }
  }

  /** The list of group places of the participants, in their order. */
  ghost predicate ArePlacesOf(keys: seq<string>, participants: seq<string>, signers: seq<U16>) {
    |signers| == |participants| && forall k | 0 <= k < |signers| :: IsPlaceOf(keys, participants[k], signers[k])
  }

  /** As many participants as the threshold needs, all of them from the group. */
  ghost predicate CanSign(keys: seq<string>, participants: seq<string>, t: U16) {
    |participants| == (t + 1) % 0x10000 && forall k | 0 <= k < |participants| :: participants[k] in keys
  }

  ghost predicate SigningPlayerOf(cfg: Config, req: SignRequest, stored: StoredShare, task: EnrichedSignRequest)
    requires Sliceable(req.participants)
  {
    && task.inner == req && task.room == req.requestId + ['@'] + GroupId(req.participants)
    && IsPlaceOf(req.participants, cfg.Own(), task.i)
    && ArePlacesOf(stored.publicKeys, req.participants, task.signers)
  }

  ghost predicate SigningStarted(
      cfg: Config, s: State, req: SignRequest, stored: StoredShare, task: EnrichedSignRequest, s': State)
    requires Sliceable(req.participants)
  {
    && SigningPlayerOf(cfg, req, stored, task)
    && s'.runners == s.runners.(offline := s.runners.offline[task.room := task])
    && s'.history.waiting == s.history.waiting.(offline := s.history.waiting.offline[task.room := task])
  }

  /** The subgroup is filed even if the signers do not fit; Processing is announced only if they do. */
  ghost predicate ShareFoundFate(cfg: Config, s: State, req: SignRequest, stored: StoredShare, starts: bool, s': State)
    requires Sliceable(req.participants)
  {
    var fits := CanSign(stored.publicKeys, req.participants, stored.share.t);
    var member := cfg.Own() in stored.publicKeys && cfg.Own() in req.participants;
    && FiledFirst(cfg, s.tree, req.participants, stored.share.t, s'.tree)
    && s'.responses ==
         (if fits then s.responses + [Response(req.requestId, "", SignType, Processing)] else s.responses)
    && s'.alive == (s.alive && (fits ==> member))
    && if fits && member && starts then exists task :: SigningStarted(cfg, s, req, stored, task, s')
       else s'.runners == s.runners && s'.history.waiting == s.history.waiting
  }

  /** With a key too short the node panics. */
  ghost predicate WithShareFate(cfg: Config, s: State, req: SignRequest, stored: StoredShare, starts: bool, s': State) {
    && s'.ledger == s.ledger && s'.outbox == s.outbox
    && s'.history == s.history.(waiting := s'.history.waiting)
    && if Sliceable(stored.publicKeys) && Sliceable(req.participants) then
         ShareFoundFate(cfg, s, req, stored, starts, s')
       else s' == s.(alive := false)
  }

  /** The id counts as used; without a readable share nothing else happens at all. */
  ghost predicate SignFate(cfg: Config, s: State, req: SignRequest, starts: bool, s': State) {
    var s1 := s.(history := s.history.(used := s.history.used + {req.requestId}));
    match ShareAt(cfg.codec, cfg.sk, s.tree, req.publicKey)
    case None => s' == s1
    case Some(stored) => WithShareFate(cfg, s1, req, stored, starts, s')
  }

  lemma SelectedAre(keys: seq<string>, participants: seq<string>, t: U16)
    ensures SelectSigners(keys, participants, t).Ok? <==> CanSign(keys, participants, t)
    ensures SelectSigners(keys, participants, t).Ok? ==>
              ArePlacesOf(keys, participants, SelectSigners(keys, participants, t).value)
  {
    SelectionIsExact(keys, participants, t);
    if SelectSigners(keys, participants, t).Ok? {
      forall k | 0 <= k < |participants|
        ensures IsPlaceOf(keys, participants[k], SelectSigners(keys, participants, t).value[k])
      {
        OwnIndexIsPlace(keys, participants[k]);
      }
    }
  }

  /** The subgroup, the answer and the panic. */
  lemma ShareFoundAnswers(cfg: Config, s: State, req: SignRequest, stored: StoredShare, starts: bool)
    requires Sliceable(stored.publicKeys) && Sliceable(req.participants)
    ensures var s' := SignWith(cfg, s, req, stored, starts);
            var fits := CanSign(stored.publicKeys, req.participants, stored.share.t);
            && FiledFirst(cfg, s.tree, req.participants, stored.share.t, s'.tree)
            && s'.responses ==
                 (if fits then s.responses + [Response(req.requestId, "", SignType, Processing)] else s.responses)
            && s'.alive ==
                 (s.alive && (fits ==> cfg.Own() in stored.publicKeys && cfg.Own() in req.participants))
  {
    SelectedAre(stored.publicKeys, req.participants, stored.share.t);
  }

  lemma SigningHasNotStarted(cfg: Config, s: State, req: SignRequest, stored: StoredShare, starts: bool)
    requires Sliceable(stored.publicKeys) && Sliceable(req.participants)
    requires !(&& CanSign(stored.publicKeys, req.participants, stored.share.t) && starts
               && cfg.Own() in stored.publicKeys && cfg.Own() in req.participants)
    ensures var s' := SignWith(cfg, s, req, stored, starts);
            s'.runners == s.runners && s'.history.waiting == s.history.waiting
  {
    SelectedAre(stored.publicKeys, req.participants, stored.share.t);
  }

  lemma SigningHasStarted(cfg: Config, s: State, req: SignRequest, stored: StoredShare)
    requires Sliceable(stored.publicKeys) && Sliceable(req.participants)
    requires CanSign(stored.publicKeys, req.participants, stored.share.t)
    requires cfg.Own() in stored.publicKeys && cfg.Own() in req.participants
    ensures exists task :: SigningStarted(cfg, s, req, stored, task, SignWith(cfg, s, req, stored, true))
  {
    SelectedAre(stored.publicKeys, req.participants, stored.share.t);
    OwnIndexIsPlace(req.participants, cfg.Own());
    var s' := SignWith(cfg, s, req, stored, true);
    var room := RoomId(req.requestId, GroupId(req.participants));
    assert SigningStarted(cfg, s, req, stored, s'.runners.offline[room], s');
  }

  lemma ShareFoundHasFate(cfg: Config, s: State, req: SignRequest, stored: StoredShare, starts: bool)
    requires Sliceable(stored.publicKeys) && Sliceable(req.participants)
    ensures ShareFoundFate(cfg, s, req, stored, starts, SignWith(cfg, s, req, stored, starts))
  {
    ShareFoundAnswers(cfg, s, req, stored, starts);
    if && CanSign(stored.publicKeys, req.participants, stored.share.t) && starts
       && cfg.Own() in stored.publicKeys && cfg.Own() in req.participants {
      SigningHasStarted(cfg, s, req, stored);
    } else {
      SigningHasNotStarted(cfg, s, req, stored, starts);
    }
  }

  lemma WithShareHasFate(cfg: Config, s: State, req: SignRequest, stored: StoredShare, starts: bool)
    ensures WithShareFate(cfg, s, req, stored, starts, SignWith(cfg, s, req, stored, starts))
  {
    if Sliceable(stored.publicKeys) && Sliceable(req.participants) {
      ShareFoundHasFate(cfg, s, req, stored, starts);
    }
  }

  lemma SignHasFate(cfg: Config, s: State, req: SignRequest, starts: bool)
    requires Enabled(s, SignRequested(req, starts))
    ensures SignFate(cfg, s, req, starts, Step(cfg, s, SignRequested(req, starts)))
  {
    var share := ShareAt(cfg.codec, cfg.sk, s.tree, req.publicKey);
    if share.Some? {
      WithShareHasFate(cfg, Use(s, req.requestId), req, share.value, starts);
    }
  }

  // ---- Results ----

  /** A new public key's share is on file, sealed so that this node can open it; one already there stays. */
  ghost predicate ShareFiledFirst(cfg: Config, tree: Tree, task: KeygenTask, key: LocalKey, tree': Tree) {
    if key.sumPublicKey in tree then tree' == tree
    else
      && key.sumPublicKey in tree' && tree' == tree[key.sumPublicKey := tree'[key.sumPublicKey]]
      && ShareAt(cfg.codec, cfg.sk, tree', key.sumPublicKey) ==
           Some(StoredShare(task.request.participants, cfg.Own(), key))
  }

  /** The room leaves the offline map, the key-generation map keeps its player, and the public key is answered. */
  ghost predicate KeygenDoneFate(cfg: Config, s: State, room: string, key: LocalKey, s': State)
    requires room in s.history.waiting.keygen
  {
    var task := s.history.waiting.keygen[room];
    && s'.alive == s.alive && s'.ledger == s.ledger && s'.outbox == s.outbox
    && s'.runners == s.runners.(offline := s.runners.offline - {room})
    && s'.history.waiting == s.history.waiting.(keygen := s.history.waiting.keygen - {room})
    && s'.history.used == s.history.used && s'.history.completed == s.history.completed + [Completed(task, key)]
    && s'.responses == s.responses + [Response(task.request.requestId, key.sumPublicKey, KeygenType, Done)]
    && ShareFiledFirst(cfg, s.tree, task, key, s'.tree)
  }

  lemma KeygenDoneHasFate(cfg: Config, known: KeyLaw, s: State, room: string, key: LocalKey, nonce: nat)
    requires Lawful(cfg.codec) && NodeOk(cfg, known, s) && Enabled(s, KeygenFinished(room, key, nonce))
    ensures KeygenDoneFate(cfg, s, room, key, Step(cfg, s, KeygenFinished(room, key, nonce)))
  {
    var task := s.history.waiting.keygen[room];
    assert TaskAt(s.history.waiting, Keygen, room) == Some(TaskOfKeygen(task));
    ShareRoundTrip(cfg.codec, cfg.sk, StoredShare(task.request.participants, cfg.Own(), key), nonce);
  }

  /** The room leaves the offline map; if the hash parses a signer takes it over with the same task. */
  ghost predicate OfflineDoneFate(cfg: Config, s: State, room: string, s': State)
    requires room in s.history.waiting.offline
  {
    var task := s.history.waiting.offline[room];
    var parses := cfg.codec.hashParses(task.inner.hash);
    var rs, w := s.runners.(offline := s.runners.offline - {room}),
        s.history.waiting.(offline := s.history.waiting.offline - {room});
    s' == s.(
      runners := if parses then rs.(signing := rs.signing[room := task]) else rs,
      history := s.history.(waiting := if parses then w.(signing := w.signing[room := task]) else w),
      responses := s.responses + [Response(task.inner.requestId, "", SignType, if parses then Processing else Error)])
  }

  lemma OfflineDoneHasFate(cfg: Config, known: KeyLaw, s: State, room: string)
    requires NodeOk(cfg, known, s) && Enabled(s, OfflineFinished(room))
    ensures OfflineDoneFate(cfg, s, room, Step(cfg, s, OfflineFinished(room)))
  {
    assert TaskAt(s.history.waiting, Offline, room) == Some(TaskOfSign(s.history.waiting.offline[room]));
  }

  /** The signature is answered; the signer stays mapped. */
  ghost predicate SignDoneFate(s: State, room: string, signature: string, s': State)
    requires room in s.history.waiting.signing
  {
    s' == s.(
      history := s.history.(waiting := s.history.waiting.(signing := s.history.waiting.signing - {room})),
      responses := s.responses + [Response(s.history.waiting.signing[room].inner.requestId, signature, SignType, Done)])
  }

  lemma SignDoneHasFate(cfg: Config, known: KeyLaw, s: State, room: string, signature: string)
    requires NodeOk(cfg, known, s) && Enabled(s, SignFinished(room, signature))
    ensures SignDoneFate(s, room, signature, Step(cfg, s, SignFinished(room, signature)))
  {
    assert TaskAt(s.history.waiting, Signing, room) == Some(TaskOfSign(s.history.waiting.signing[room]));
  }

  ghost predicate RequestFate(cfg: Config, s: State, ev: Event, s': State)
    requires Enabled(s, ev)
  {
    match ev
    case KeygenRequested(req, starts) => KeygenFate(cfg, s, req, starts, s')
    case SignRequested(req, starts) => SignFate(cfg, s, req, starts, s')
    case KeygenFinished(room, key, _) => KeygenDoneFate(cfg, s, room, key, s')
    case OfflineFinished(room) => OfflineDoneFate(cfg, s, room, s')
    case SignFinished(room, signature) => SignDoneFate(s, room, signature, s')
    case _ => true
  }

  /** Every request and every result, with all outcomes, in the states that runs lead to. */
  lemma RequestsMeetTheirFate(cfg: Config, known: KeyLaw, s: State, ev: Event)
    requires Lawful(cfg.codec) && NodeOk(cfg, known, s) && Enabled(s, ev)
    ensures RequestFate(cfg, s, ev, Step(cfg, s, ev))
  {
    match ev
    case KeygenRequested(req, starts) => KeygenHasFate(cfg, s, req, starts);
    case SignRequested(req, starts) => SignHasFate(cfg, s, req, starts);
    case KeygenFinished(room, key, nonce) => KeygenDoneHasFate(cfg, known, s, room, key, nonce);
    case OfflineFinished(room) => OfflineDoneHasFate(cfg, known, s, room);
    case SignFinished(room, signature) => SignDoneHasFate(cfg, known, s, room, signature);
    case _ =>
  }

  /** The same in every legal run. */
  lemma {:induction false} RunsMeetTheirFate(cfg: Config, events: seq<Event>, ev: Event)
    requires Lawful(cfg.codec) && Legal(cfg, events) && Enabled(After(cfg, events), ev)
    ensures RequestFate(cfg, After(cfg, events), ev, Step(cfg, After(cfg, events), ev))
  {
    RunKeepsNode(cfg, AnyKeys(), events);
    RequestsMeetTheirFate(cfg, AnyKeys(), After(cfg, events), ev);
  }
}

/**
 * Signing uses the indices of key generation: what a sign request reads back from the
 * database is what a finished key generation put there.
 */
module KeyShares {
  import opened Basics
  import opened Codecs
  import opened Rooms
  import opened Groups
  import opened Storage
  import opened CoordinatorSpec
  import opened MessageLife
  import opened Routing

  /** The record is the sealed share of this key generation. */
  ghost predicate SealedFrom(cfg: Config, key: string, sealed: EncryptedShare, c: Completed) {
    && c.key.sumPublicKey == key
    && OpenShare(cfg.codec, cfg.sk, sealed) == Some(StoredShare(c.task.request.participants, cfg.Own(), c.key))
  }

  /** The signers were selected, in the order of the request, from the group of this key generation. */
  ghost predicate SelectedFrom(e: EnrichedSignRequest, c: Completed) {
    && c.key.sumPublicKey == e.inner.publicKey
    && SelectSigners(c.task.request.participants, e.inner.participants, c.key.t) == Ok(e.signers)
  }

  ghost predicate ShareHasOrigin(cfg: Config, completed: seq<Completed>, key: string, sealed: EncryptedShare) {
    exists c :: c in completed && SealedFrom(cfg, key, sealed, c)
  }

  ghost predicate SharesOk(cfg: Config, tree: Tree, completed: seq<Completed>) {
    forall key | key in tree && tree[key].ShareRecord? :: ShareHasOrigin(cfg, completed, key, tree[key].share)
  }

  ghost predicate CompletedOk(cfg: Config, completed: seq<Completed>) {
    forall c | c in completed :: OwnIndex(c.task.request.participants, cfg.Own()) == Some(c.task.i)
  }

  ghost predicate SignerHasOrigin(completed: seq<Completed>, e: EnrichedSignRequest) {
    exists c :: c in completed && SelectedFrom(e, c)
  }

  ghost predicate SignersOk(completed: seq<Completed>, rs: Runners) {
    && (forall room | room in rs.offline :: SignerHasOrigin(completed, rs.offline[room]))
    && (forall room | room in rs.signing :: SignerHasOrigin(completed, rs.signing[room]))
  }

  ghost predicate AgreementOk(cfg: Config, s: State) {
    && SharesOk(cfg, s.tree, s.history.completed)
    && CompletedOk(cfg, s.history.completed)
    && SignersOk(s.history.completed, s.runners)
    && SignersOk(s.history.completed, s.history.waiting)
  }

  lemma MoreCompletedKeeps(cfg: Config, tree: Tree, completed: seq<Completed>, c: Completed, rs: Runners)
    ensures SharesOk(cfg, tree, completed) ==> SharesOk(cfg, tree, completed + [c])
    ensures SignersOk(completed, rs) ==> SignersOk(completed + [c], rs)
  {
    assert forall x | x in completed :: x in completed + [c];
    assert forall key, sealed | ShareHasOrigin(cfg, completed, key, sealed) ::
        ShareHasOrigin(cfg, completed + [c], key, sealed);
    assert forall e | SignerHasOrigin(completed, e) :: SignerHasOrigin(completed + [c], e);
  }

  /** Whatever is newly written under the group's key is its own share; anything older stays. */
  lemma SavedShareHasOrigin(
      cfg: Config, tree: Tree, completed: seq<Completed>, task: KeygenTask, key: LocalKey, nonce: nat)
    requires Lawful(cfg.codec) && SharesOk(cfg, tree, completed)
    ensures var stored := StoredShare(task.request.participants, cfg.Own(), key);
            SharesOk(cfg, WithShare(cfg.codec, tree, stored, nonce), completed + [Completed(task, key)])
  {
    var stored := StoredShare(task.request.participants, cfg.Own(), key);
    var c := Completed(task, key);
    ShareRoundTrip(cfg.codec, cfg.sk, stored, nonce);
    MoreCompletedKeeps(cfg, tree, completed, c, NO_RUNNERS);
    assert c in completed + [c] && SealedFrom(cfg, key.sumPublicKey, SealShare(cfg.codec, stored, nonce).value, c);
  }

  lemma KeygenDoneAgrees(cfg: Config, known: KeyLaw, s: State, room: string, key: LocalKey, nonce: nat)
    requires Lawful(cfg.codec) && NodeOk(cfg, known, s) && AgreementOk(cfg, s) && room in s.history.waiting.keygen
    ensures AgreementOk(cfg, OnKeygenDone(cfg, s, s.history.waiting.keygen[room], key, nonce))
  {
    var task := s.history.waiting.keygen[room];
    assert TaskAt(s.history.waiting, Keygen, room) == Some(TaskOfKeygen(task));
    SavedShareHasOrigin(cfg, s.tree, s.history.completed, task, key, nonce);
    MoreCompletedKeeps(cfg, s.tree, s.history.completed, Completed(task, key), s.runners);
    MoreCompletedKeeps(cfg, s.tree, s.history.completed, Completed(task, key), s.history.waiting);
  }

  lemma GroupsAreNoShares(cfg: Config, s: State, group: PublicKeyGroup)
    requires AgreementOk(cfg, s)
    ensures AgreementOk(cfg, StoreGroup(s, group))
  {
  }

  lemma StartOfflineAgrees(cfg: Config, s: State, task: EnrichedSignRequest)
    requires AgreementOk(cfg, s) && SignerHasOrigin(s.history.completed, task)
    ensures AgreementOk(cfg, StartOffline(s, task)) && AgreementOk(cfg, StartSigner(s, task))
  {
  }

  lemma SignWithAgrees(cfg: Config, s: State, req: SignRequest, stored: StoredShare, machineStarts: bool, c: Completed)
    requires AgreementOk(cfg, s) && c in s.history.completed
    requires c.key.sumPublicKey == req.publicKey && stored == StoredShare(c.task.request.participants, cfg.Own(), c.key)
    ensures AgreementOk(cfg, SignWith(cfg, s, req, stored, machineStarts))
  {
    if Sliceable(req.participants) {
      var subgroup := GroupOf(req.participants, stored.share.t, cfg.Own());
      GroupsAreNoShares(cfg, s, subgroup);
      var s2 := Respond(StoreGroup(s, subgroup), req.requestId, "", SignType, Processing);
      var selected := SelectSigners(stored.publicKeys, req.participants, stored.share.t);
      if selected.Ok? && OwnIndex(req.participants, cfg.Own()).Some? {
        var task := EnrichedSignRequest(req, RoomId(req.requestId, subgroup.groupId),
            OwnIndex(req.participants, cfg.Own()).value, selected.value);
        assert SelectedFrom(task, c);
        StartOfflineAgrees(cfg, s2, task);
      }
    }
  }

  lemma {:induction false} SignRequestAgrees(cfg: Config, s: State, req: SignRequest, machineStarts: bool)
    requires AgreementOk(cfg, s)
    ensures AgreementOk(cfg, OnSignRequest(cfg, s, req, machineStarts))
  {
    var stored := ShareAt(cfg.codec, cfg.sk, s.tree, req.publicKey);
    if stored.Some? {
      var c :| c in s.history.completed && SealedFrom(cfg, req.publicKey, s.tree[req.publicKey].share, c);
      SignWithAgrees(cfg, Use(s, req.requestId), req, stored.value, machineStarts, c);
    }
  }

  lemma DropOfflineAgrees(cfg: Config, s: State, room: string)
    requires AgreementOk(cfg, s)
    ensures AgreementOk(cfg,
        s.(runners := DropOffline(s.runners, room),
            history := s.history.(waiting := DropOffline(s.history.waiting, room))))
  {
  }

  lemma {:induction false} OfflineDoneAgrees(cfg: Config, s: State, room: string)
    requires AgreementOk(cfg, s) && room in s.history.waiting.offline
    ensures AgreementOk(cfg, OnOfflineDone(cfg, s, s.history.waiting.offline[room]))
  {
    var task := s.history.waiting.offline[room];
    var s1 := s.(
      runners := DropOffline(s.runners, task.room),
      history := s.history.(waiting := DropOffline(s.history.waiting, task.room)));
    assert SignerHasOrigin(s.history.completed, task);
    DropOfflineAgrees(cfg, s, task.room);
    StartOfflineAgrees(cfg, s1, task);
  }

  lemma {:induction false} StepKeepsAgreement(cfg: Config, known: KeyLaw, s: State, ev: Event)
    requires Lawful(cfg.codec) && NodeOk(cfg, known, s) && AgreementOk(cfg, s) && Enabled(s, ev)
    ensures AgreementOk(cfg, Step(cfg, s, ev))
  {
    match ev
    case KeygenRequested(req, _) =>
      if Sliceable(req.participants) {
        GroupsAreNoShares(cfg, s, GroupOf(req.participants, Truncate16(req.threshold), cfg.Own()));
      }
    case SignRequested(req, machineStarts) => SignRequestAgrees(cfg, s, req, machineStarts);
    case KeygenFinished(room, key, nonce) => KeygenDoneAgrees(cfg, known, s, room, key, nonce);
    case OfflineFinished(room) => OfflineDoneAgrees(cfg, s, room);
    case SignFinished(_, _) =>
    case _ => if IsMessageEvent(ev) { MessageEventsTouchLedgerOnly(cfg, s, ev); }
  }
}

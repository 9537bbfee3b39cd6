/** What holds of the coordinator after every legal run. */
module CoordinatorTheorems {
  import opened Basics
  import opened Codecs
  import opened Rooms
  import opened Groups
  import opened Storage
  import opened CoordinatorSpec
  import opened MessageLife
  import opened Routing
  import opened KeyShares

  ghost predicate AllKeysKnown(known: KeyLaw, events: seq<Event>) {
    forall i | 0 <= i < |events| :: KeysKnown(known, events[i])
  }

  lemma {:induction false} RunKeepsLedger(cfg: Config, events: seq<Event>)
    requires Legal(cfg, events)
    ensures LedgerOk(ClearingOf(cfg, After(cfg, events).tree), After(cfg, events).ledger, 0)
  {
    if events != [] {
      var n := |events| - 1;
      RunKeepsLedger(cfg, events[..n]);
      StepKeepsLedger(cfg, After(cfg, events[..n]), events[n]);
    }
  }

  lemma {:induction false} RunKeepsNode(cfg: Config, known: KeyLaw, events: seq<Event>)
    requires Legal(cfg, events) && AllKeysKnown(known, events)
    ensures NodeOk(cfg, known, After(cfg, events))
  {
    if events != [] {
      var n := |events| - 1;
      RunKeepsNode(cfg, known, events[..n]);
      StepKeepsNode(cfg, known, After(cfg, events[..n]), events[n]);
    }
  }

  lemma {:induction false} RunKeepsUnique(cfg: Config, events: seq<Event>)
    requires LegalUnique(cfg, events)
    ensures UniqueOk(After(cfg, events))
  {
    if events != [] {
      var n := |events| - 1;
      RunKeepsUnique(cfg, events[..n]);
      RunKeepsNode(cfg, AnyKeys(), events[..n]);
      StepKeepsUnique(cfg, AnyKeys(), After(cfg, events[..n]), events[n]);
    }
  }

  lemma {:induction false} RunKeepsAgreement(cfg: Config, events: seq<Event>)
    requires Lawful(cfg.codec) && Legal(cfg, events)
    ensures AgreementOk(cfg, After(cfg, events))
  {
    if events != [] {
      var n := |events| - 1;
      RunKeepsAgreement(cfg, events[..n]);
      RunKeepsNode(cfg, AnyKeys(), events[..n]);
      StepKeepsAgreement(cfg, AnyKeys(), After(cfg, events[..n]), events[n]);
    }
  }

  lemma {:induction false} PrefixIsLegal(cfg: Config, events: seq<Event>, n: nat)
    requires Legal(cfg, events) && n <= |events|
    ensures Legal(cfg, events[..n])
  {
    if n == |events| {
      assert events[..n] == events;
    } else {
      var m := |events| - 1;
      assert events[..m][..n] == events[..n];
      PrefixIsLegal(cfg, events[..m], n);
    }
  }

  lemma {:induction false} RunOnlyExtends(cfg: Config, events: seq<Event>, n: nat)
    requires Legal(cfg, events) && n <= |events|
    ensures Legal(cfg, events[..n])
    ensures Extends(After(cfg, events[..n]).ledger, After(cfg, events).ledger)
  {
    if n == |events| {
      assert events[..n] == events;
    } else {
      var m := |events| - 1;
      assert events[..m][..n] == events[..n];
      RunOnlyExtends(cfg, events[..m], n);
      StepExtends(cfg, After(cfg, events[..m]), events[m]);
    }
  }

  // ---- Main results ----

  /**
   * Checked and decrypted exactly once: no received message is cleared twice; what is marked as
   * checked is the decrypted form of a received message, and what is not is that message untouched.
   */
  lemma {:induction false} CheckedAndDecryptedOnce(cfg: Config, events: seq<Event>)
    requires Legal(cfg, events) && After(cfg, events).alive
    ensures var s := After(cfg, events);
            var l := s.ledger;
            && NoDuplicates(l.cleared)
            && (forall r | r in l.pending ::
                  && r.origin < |l.arrived|
                  && (r.checkPassed <==> r.origin in l.cleared)
                  && (r.checkPassed ==> Clears(cfg, s.tree, l.arrived[r.origin], r.message))
                  && (!r.checkPassed ==> r.message == l.arrived[r.origin]))
            && (forall d | d in l.deliveries ::
                  && d.origin < |l.arrived| && d.origin in l.cleared
                  && Clears(cfg, s.tree, l.arrived[d.origin], d.message))
  {
    RunKeepsLedger(cfg, events);
    var s := After(cfg, events);
    assert forall r | r in s.ledger.pending :: RetryOk(ClearingOf(cfg, s.tree), s.ledger.arrived, s.ledger.cleared, r);
    assert forall d | d in s.ledger.deliveries ::
        IsCleared(ClearingOf(cfg, s.tree), s.ledger.arrived, s.ledger.cleared, d.origin, d.message);
  }

  /** The flag never goes back: a message cleared at some point of a run is never again queued unchecked. */
  lemma {:induction false} ClearedForGood(cfg: Config, events: seq<Event>, n: nat)
    requires Legal(cfg, events) && After(cfg, events).alive && n <= |events|
    ensures Legal(cfg, events[..n])
    ensures forall r | r in After(cfg, events).ledger.pending && r.origin in After(cfg, events[..n]).ledger.cleared ::
        r.checkPassed
  {
    RunOnlyExtends(cfg, events, n);
    CheckedAndDecryptedOnce(cfg, events);
  }

  /** Every waiting message has waited exactly what its attempts say, and none is beyond the last attempt. */
  lemma {:induction false} BackoffIsExact(cfg: Config, events: seq<Event>, r: Scheduled)
    requires Legal(cfg, events) && r in After(cfg, events).ledger.pending
    ensures 1 <= r.attempts <= 33 && r.waited == ClosedWait(r.attempts)
  {
    RunKeepsLedger(cfg, events);
    var s := After(cfg, events);
    assert RetryOk(ClearingOf(cfg, s.tree), s.ledger.arrived, s.ledger.cleared, r);
    WaitInClosedForm(r.attempts);
  }

  /** Although all three handlers are tried, at most one takes the message, whatever it is. */
  ghost predicate RoutedOnce(c: Codec, rs: Runners) {
    forall origin, msg :: |HandOvers(c, rs, origin, msg)| <= 1
  }

  /** Exclusive routing: with unique ids no room is a key of two runner maps, so no message reaches two runners. */
  lemma {:induction false} RoomsAreExclusive(cfg: Config, events: seq<Event>)
    requires LegalUnique(cfg, events)
    ensures Exclusive(After(cfg, events).runners)
    ensures RoutedOnce(cfg.codec, After(cfg, events).runners)
  {
    RunKeepsUnique(cfg, events);
    var rs := After(cfg, events).runners;
    forall origin, msg
      ensures |HandOvers(cfg.codec, rs, origin, msg)| <= 1
    {
      AtMostOneHandOver(cfg.codec, rs, origin, msg);
    }
  }

  /** Entries that are indices of a group of n keys, and no two of them alike unless the participants are. */
  ghost predicate AreIndices(signers: seq<U16>, n: nat, participants: seq<string>) {
    && (forall k | 0 <= k < |signers| :: 1 <= signers[k] <= n)
    && (NoDuplicates(participants) <==> NoDuplicates(signers))
  }

  /** The list that the key list, the participants and the threshold give: t + 1 indices in the participants' order. */
  ghost predicate IsSelection(signers: seq<U16>, keys: seq<string>, participants: seq<string>, t: U16) {
    && SelectSigners(keys, participants, t) == Ok(signers)
    && |signers| == |participants| == Truncate16(t + 1)
    && (forall k | 0 <= k < |signers| ::
          participants[k] in keys && signers[k] == Truncate16(IndexOf(keys, participants[k]).value))
    && (|keys| < 0x10000 ==> AreIndices(signers, |keys|, participants))
  }

  /** The signing of `e` speaks in the indices of the key generation `c`. */
  ghost predicate AgreesWith(e: EnrichedSignRequest, c: Completed) {
    && c.key.sumPublicKey == e.inner.publicKey
    && IsSelection(e.signers, c.task.request.participants, e.inner.participants, c.key.t)
    && 1 <= e.i <= |e.signers|
    && e.signers[e.i - 1] == c.task.i
  }

  lemma SelectionGivesIndices(keys: seq<string>, participants: seq<string>, t: U16)
    requires SelectSigners(keys, participants, t).Ok?
    ensures IsSelection(SelectSigners(keys, participants, t).value, keys, participants, t)
  {
    SelectionIsExact(keys, participants, t);
    if |keys| < 0x10000 {
      SignersAreDistinctIndices(keys, participants, t);
    }
  }

  lemma SelectionAgrees(e: EnrichedSignRequest, c: Completed, own: string)
    requires SelectedFrom(e, c)
    requires OwnIndex(e.inner.participants, own) == Some(e.i)
    requires OwnIndex(c.task.request.participants, own) == Some(c.task.i)
    ensures AgreesWith(e, c)
  {
    SelectionGivesIndices(c.task.request.participants, e.inner.participants, c.key.t);
    OwnSignerIndexAgrees(c.task.request.participants, e.inner.participants, c.key.t, own);
  }

  lemma {:induction false} SignerAgrees(
      cfg: Config, known: KeyLaw, s: State, kind: Kind, room: string, e: EnrichedSignRequest)
    requires NodeOk(cfg, known, s) && AgreementOk(cfg, s)
    requires if kind.Offline? then room in s.runners.offline && e == s.runners.offline[room]
             else kind.Signing? && room in s.runners.signing && e == s.runners.signing[room]
    ensures exists c :: c in s.history.completed && AgreesWith(e, c)
  {
    assert TaskAt(s.runners, kind, room) == Some(TaskOfSign(e));
    assert SignerHasOrigin(s.history.completed, e);
    var c :| c in s.history.completed && SelectedFrom(e, c);
    SelectionAgrees(e, c, cfg.Own());
  }

  /**
   * Signer-index agreement: every started signing goes back to a finished key generation for
   * its public key, has t + 1 signers listed by their key-generation indices, and lists this
   * node's own key-generation index at its position in the subgroup.
   */
  lemma {:induction false} SignersAgreeWithKeygen(cfg: Config, events: seq<Event>, room: string)
    requires Lawful(cfg.codec) && Legal(cfg, events)
    ensures var s := After(cfg, events);
            && (room in s.runners.offline ==>
              exists c :: c in s.history.completed && AgreesWith(s.runners.offline[room], c))
            && (room in s.runners.signing ==>
              exists c :: c in s.history.completed && AgreesWith(s.runners.signing[room], c))
  {
    RunKeepsAgreement(cfg, events);
    RunKeepsNode(cfg, AnyKeys(), events);
    var s := After(cfg, events);
    if room in s.runners.offline {
      SignerAgrees(cfg, AnyKeys(), s, Offline, room, s.runners.offline[room]);
    }
    if room in s.runners.signing {
      SignerAgrees(cfg, AnyKeys(), s, Signing, room, s.runners.signing[room]);
    }
  }

  /** Key lists that are told apart by prefixes and that 16 bits can index. */
  ghost function ListsOver(universe: set<string>): KeyLaw {
    keys => Within(keys, universe) && |keys| < 0x10000
  }

  /**
   * Group identity: the group on file for a runner's room has exactly that runner's key list,
   * whichever request wrote it first.
   */
  lemma {:induction false} GroupOfRunner(cfg: Config, universe: set<string>, s: State, kind: Kind, room: string)
    requires DistinctPrefixes(universe) && NodeOk(cfg, ListsOver(universe), s)
    requires TaskAt(s.runners, kind, room).Some? && SEPARATOR !in TaskAt(s.runners, kind, room).value.requestId
    ensures var task := TaskAt(s.runners, kind, room).value;
            && Sliceable(task.keys) && SEPARATOR !in GroupId(task.keys)
            && room == RoomId(task.requestId, GroupId(task.keys))
            && ExtractGroupId(room) == Ok(GroupId(task.keys))
            && GroupAt(s.tree, GroupId(task.keys)).Some?
            && GroupAt(s.tree, GroupId(task.keys)).value.publicKeys == task.keys
            && OwnIndex(task.keys, cfg.Own()) == Some(task.i)
            && Within(task.keys, universe) && |task.keys| < 0x10000
  {
    var task := TaskAt(s.runners, kind, room).value;
    assert TaskOk(cfg.Own(), ListsOver(universe), s.tree, s.history.used, room, task);
    GroupIdHasNoSeparator(task.keys);
    ExtractOfRoomId(task.requestId, GroupId(task.keys));
    var group := GroupAt(s.tree, GroupId(task.keys)).value;
    assert ListsOver(universe)(group.publicKeys);
    GroupIdInjective(universe, task.keys, group.publicKeys);
  }

  /** The request ids of a run hold no separator; they may be reused. */
  ghost predicate PlainIds(events: seq<Event>) {
    forall i | 0 <= i < |events| ::
      && (events[i].KeygenRequested? ==> SEPARATOR !in events[i].keygen.requestId)
      && (events[i].SignRequested? ==> SEPARATOR !in events[i].sign.requestId)
  }

  ghost predicate UsedArePlain(s: State) {
    forall id | id in s.history.used :: SEPARATOR !in id
  }

  lemma SignWithUsesNothing(cfg: Config, s: State, req: SignRequest, stored: StoredShare, machineStarts: bool)
    ensures SignWith(cfg, s, req, stored, machineStarts).history.used == s.history.used
  {
  }

  lemma StepUsesOwnId(cfg: Config, s: State, ev: Event)
    requires Enabled(s, ev) && UsedArePlain(s) && PlainIds([ev])
    ensures UsedArePlain(Step(cfg, s, ev))
  {
    assert [ev][0] == ev;
    match ev
    case SignRequested(req, machineStarts) =>
      var stored := ShareAt(cfg.codec, cfg.sk, s.tree, req.publicKey);
      if stored.Some? {
        SignWithUsesNothing(cfg, Use(s, req.requestId), req, stored.value, machineStarts);
      }
    case KeygenRequested(_, _) =>
    case KeygenFinished(_, _, _) =>
    case OfflineFinished(_) =>
    case SignFinished(_, _) =>
    case Outgoing(_, _) =>
    case _ => MessageEventsTouchLedgerOnly(cfg, s, ev);
  }

  lemma {:induction false} RunUsesPlainIds(cfg: Config, events: seq<Event>)
    requires Legal(cfg, events) && PlainIds(events)
    ensures UsedArePlain(After(cfg, events))
  {
    if events != [] {
      var n := |events| - 1;
      RunUsesPlainIds(cfg, events[..n]);
      StepUsesOwnId(cfg, After(cfg, events[..n]), events[n]);
    }
  }

  /** If the room has a runner of this kind, the group on file for the room is that runner's own. */
  ghost predicate FindsItsGroup(cfg: Config, s: State, kind: Kind, room: string) {
    var task := TaskAt(s.runners, kind, room);
    task.Some? ==>
      && ExtractGroupId(room).Ok?
      && GroupAt(s.tree, ExtractGroupId(room).value).Some?
      && GroupAt(s.tree, ExtractGroupId(room).value).value.publicKeys == task.value.keys
      && OwnIndex(task.value.keys, cfg.Own()) == Some(task.value.i)
  }

  /** The same over runs, reused ids included: first-write-wins saves never give a live room a foreign key list. */
  lemma {:induction false} LiveRoomsFindTheirGroup(cfg: Config, universe: set<string>, events: seq<Event>)
    requires DistinctPrefixes(universe) && Legal(cfg, events) && PlainIds(events)
    requires AllKeysKnown(ListsOver(universe), events)
    ensures forall kind, room :: FindsItsGroup(cfg, After(cfg, events), kind, room)
  {
    var s := After(cfg, events);
    RunUsesPlainIds(cfg, events);
    RunKeepsNode(cfg, ListsOver(universe), events);
    forall kind, room | TaskAt(s.runners, kind, room).Some?
      ensures FindsItsGroup(cfg, s, kind, room)
    {
      var task := TaskAt(s.runners, kind, room).value;
      assert TaskOk(cfg.Own(), ListsOver(universe), s.tree, s.history.used, room, task);
      GroupOfRunner(cfg, universe, s, kind, room);
    }
  }
}

/** The coordinator as the object it is: handlers that update maps, timers, counters and channels. */
module CoordinatorActor {
  import opened Basics
  import opened Codecs
  import opened Rooms
  import opened Groups
  import opened Storage
  import opened Envelopes
  import opened CoordinatorSpec
  import opened Ciphers

  /** What arrives in the mailbox: messages, fired retries, requests, and what runners report with their own task. */
  datatype Mail =
    | IncomingMail(message: WireMessage)
    | RetryMail(retry: Scheduled)
    | ErrorMail(delivery: Delivery)
    | OutgoingMail(core: CoreMessage, nonce: nat)
    | KeygenMail(keygen: KeygenRequest, machineStarts: bool)
    | SignMail(sign: SignRequest, machineStarts: bool)
    | KeygenOutput(keygenTask: KeygenTask, key: LocalKey, nonce: nat)
    | OfflineOutput(offlineTask: EnrichedSignRequest)
    | SignOutput(signTask: EnrichedSignRequest, signature: string)

  function EventOf(mail: Mail): Event {
    match mail
    case IncomingMail(message) => Incoming(message)
    case RetryMail(retry) => TimerFires(retry)
    case ErrorMail(delivery) => OutOfOrder(delivery)
    case OutgoingMail(core, nonce) => Outgoing(core, nonce)
    case KeygenMail(req, machineStarts) => KeygenRequested(req, machineStarts)
    case SignMail(req, machineStarts) => SignRequested(req, machineStarts)
    case KeygenOutput(task, key, nonce) => KeygenFinished(task.room, key, nonce)
    case OfflineOutput(task) => OfflineFinished(task.room)
    case SignOutput(task, signature) => SignFinished(task.room, signature)
  }

  /** Runners report with the task they were started with. */
  predicate Genuine(waiting: Runners, mail: Mail) {
    match mail
    case KeygenOutput(task, _, _) => task.room in waiting.keygen && waiting.keygen[task.room] == task
    case OfflineOutput(task) => task.room in waiting.offline && waiting.offline[task.room] == task
    case SignOutput(task, _) => task.room in waiting.signing && waiting.signing[task.room] == task
    case _ => true
  }

  class Coordinator {
    const cfg: Config
    const db: Database

    var alive: bool
    var keygenRunners: map<string, KeygenTask>
    var offlineRunners: map<string, EnrichedSignRequest>
    var signers: map<string, EnrichedSignRequest>
    var timers: multiset<Scheduled>
    var responses: seq<Response>
    var outbox: seq<CoreMessage>
    var mail: seq<Delivery>

    var messagesReceived: nat
    var messagesDropped: nat
    var keygenHandled: nat
    var offlineHandled: nat
    var signHandled: nat

    ghost var arrived: seq<WireMessage>
    ghost var cleared: seq<nat>
    ghost var routed: nat
    ghost var failed: nat
    ghost var bounces: nat
    ghost var history: History

    ghost function Ledger(): Ledger
      reads this
    {
      CoordinatorSpec.Ledger.Ledger(arrived, cleared, timers, mail, routed, messagesDropped, failed, bounces)
    }

    ghost function Runners(): Runners
      reads this
    {
      CoordinatorSpec.Runners.Runners(keygenRunners, offlineRunners, signers)
    }

    /** The state of the specification that this object stands for. */
    ghost function View(): State
      reads this, db
    {
      State(alive, db.tree, Runners(), history, Ledger(), responses, outbox)
    }

    /** The exported counters say what the histories say. */
    ghost predicate Valid()
      reads this
    {
      messagesReceived == |arrived| && keygenHandled + offlineHandled + signHandled == |mail|
    }

    constructor (cfg: Config)
      ensures Valid() && View() == INITIAL && this.cfg == cfg && fresh(db)
    {
      this.cfg := cfg;
      db := new Database();
      alive := true;
      keygenRunners, offlineRunners, signers := map[], map[], map[];
      timers, responses, outbox, mail := multiset{}, [], [], [];
      messagesReceived, messagesDropped := 0, 0;
      keygenHandled, offlineHandled, signHandled := 0, 0, 0;
      arrived, cleared, routed, failed, bounces := [], [], 0, 0, 0;
      history := History(NO_RUNNERS, {}, []);
    }

    // ---- Messages ----

    method Retry(origin: nat, message: WireMessage, attempts: U16, checkPassed: bool, waited: nat)
      modifies this`messagesDropped, this`timers
      ensures Ledger() == CoordinatorSpec.Retry(old(Ledger()), origin, message, attempts, checkPassed, waited)
    {
      if attempts > MAX_ATTEMPTS {
        messagesDropped := messagesDropped + 1;
      } else {
        var duration := if attempts <= 9 then Power2(attempts) else 600;
        timers := timers + multiset{Scheduled(origin, message, attempts, checkPassed, waited + duration)};
      }
    }

    method HandleIncomingKeygen(origin: nat, message: WireMessage) returns (ok: bool)
      requires Valid()
      modifies this`mail, this`keygenHandled
      ensures Valid() && mail == old(mail) + HandOver(cfg.codec, Runners(), Keygen, origin, message)
      ensures ok <==> HandOver(cfg.codec, Runners(), Keygen, origin, message) != []
    {
      ok := false;
      if message.room in keygenRunners && cfg.codec.decodes(Keygen, message.payload) {
        mail := mail + [Delivery(origin, Keygen, keygenRunners[message.room].i, message)];
        keygenHandled := keygenHandled + 1;
        ok := true;
      }
    }

    method HandleIncomingOffline(origin: nat, message: WireMessage) returns (ok: bool)
      requires Valid()
      modifies this`mail, this`offlineHandled
      ensures Valid() && mail == old(mail) + HandOver(cfg.codec, Runners(), Offline, origin, message)
      ensures ok <==> HandOver(cfg.codec, Runners(), Offline, origin, message) != []
    {
      ok := false;
      if message.room in offlineRunners && cfg.codec.decodes(Offline, message.payload) {
        mail := mail + [Delivery(origin, Offline, offlineRunners[message.room].i, message)];
        offlineHandled := offlineHandled + 1;
        ok := true;
      }
    }

    method HandleIncomingSign(origin: nat, message: WireMessage) returns (ok: bool)
      requires Valid()
      modifies this`mail, this`signHandled
      ensures Valid() && mail == old(mail) + HandOver(cfg.codec, Runners(), Signing, origin, message)
      ensures ok <==> HandOver(cfg.codec, Runners(), Signing, origin, message) != []
    {
      ok := false;
      if message.room in signers && cfg.codec.decodes(Signing, message.payload) {
        mail := mail + [Delivery(origin, Signing, signers[message.room].i, message)];
        signHandled := signHandled + 1;
        ok := true;
      }
    }

    /** All three handlers are called; the message is taken if any of them succeeds. */
    method TryHandlers(origin: nat, message: WireMessage) returns (taken: bool)
      requires Valid()
      modifies this`mail, this`keygenHandled, this`offlineHandled, this`signHandled
      ensures Valid() && mail == old(mail) + HandOvers(cfg.codec, Runners(), origin, message)
      ensures taken <==> HandOvers(cfg.codec, Runners(), origin, message) != []
    {
      var h1 := HandleIncomingOffline(origin, message);
      var h2 := HandleIncomingSign(origin, message);
      var h3 := HandleIncomingKeygen(origin, message);
      taken := h1 || h2 || h3;
      ghost var o := HandOver(cfg.codec, Runners(), Offline, origin, message);
      ghost var s := HandOver(cfg.codec, Runners(), Signing, origin, message);
      ghost var k := HandOver(cfg.codec, Runners(), Keygen, origin, message);
      assert |o + s + k| == |o| + |s| + |k|;
    }

    method HandleIncomingUnsafe(origin: nat, message: WireMessage, attempts: U16, waited: nat)
      requires Valid()
      modifies this`mail, this`keygenHandled, this`offlineHandled, this`signHandled
      modifies this`routed, this`messagesDropped, this`timers
      ensures Valid() && Ledger() == Route(cfg.codec, Runners(), old(Ledger()), origin, message, attempts, waited)
    {
      ghost var handOvers := HandOvers(cfg.codec, Runners(), origin, message);
      var taken := TryHandlers(origin, message);
      if taken {
        routed := routed + 1;
      } else {
        assert handOvers == [] && mail == old(mail);
        Retry(origin, message, Truncate16(attempts + 1), true, waited);
      }
      assert Ledger() == Settle(old(Ledger()), handOvers, origin, message, attempts, waited);
    }

    method AdmitChecked(origin: nat, message: WireMessage, verdict: Verdict, plain: Option<WireMessage>)
      requires Valid() && alive
      modifies this`alive, this`cleared, this`failed
      modifies this`mail, this`keygenHandled, this`offlineHandled, this`signHandled
      modifies this`routed, this`messagesDropped, this`timers
      ensures var l' := Admit(cfg.codec, Runners(), old(Ledger()), origin, message, verdict, plain);
              (alive <==> l'.Some?) && (alive ==> Valid() && l' == Some(Ledger()))
    {
      match verdict {
        case Pass =>
          match plain {
            case Some(transformed) =>
              cleared := cleared + [origin];
              HandleIncomingUnsafe(origin, transformed, 0, 0);
            case None =>
              failed := failed + 1;
          }
        case NotForMe => messagesDropped := messagesDropped + 1;
        case Refused(_) => Retry(origin, message, 1, false, 0);
        case Panics => alive := false;
      }
    }

    /** The decrypter works on a copy; the original is kept for a retry. */
    method Decrypted(message: WireMessage) returns (plain: Option<WireMessage>)
      ensures plain == MaybeDecrypt(cfg.codec, cfg.sk, message)
    {
      var decrypter := new SimpleDecrypter(cfg.codec, cfg.sk);
      var transformed := new WireCell(message);
      var ok := decrypter.MaybeDecrypt(transformed);
      return if ok then Some(transformed.View()) else None;
    }

    method HandleIncoming(message: WireMessage)
      requires Valid() && alive
      modifies this`alive, this`arrived, this`cleared, this`failed, this`messagesReceived
      modifies this`mail, this`keygenHandled, this`offlineHandled, this`signHandled
      modifies this`routed, this`messagesDropped, this`timers
      ensures var l' := Arrive(cfg, db.tree, Runners(), old(Ledger()), message);
              (alive <==> l'.Some?) && (alive ==> Valid() && l' == Some(Ledger()))
    {
      var origin := messagesReceived;
      messagesReceived := messagesReceived + 1;
      arrived := arrived + [message];
      if !Contains(message.room, Prefix(cfg.Own())) {
        messagesDropped := messagesDropped + 1;
      } else {
        var verdict := Check(cfg, db.tree, message);
        var plain := None;
        if verdict.Pass? {
          plain := Decrypted(message);
        }
        AdmitChecked(origin, message, verdict, plain);
      }
    }

    method Readmit(r: Scheduled, verdict: Verdict, plain: Option<WireMessage>)
      requires Valid() && alive
      modifies this`alive, this`cleared
      modifies this`mail, this`keygenHandled, this`offlineHandled, this`signHandled
      modifies this`routed, this`messagesDropped, this`timers
      ensures var l' := Recheck(cfg.codec, Runners(), old(Ledger()), r, verdict, plain);
              (alive <==> l'.Some?) && (alive ==> Valid() && l' == Some(Ledger()))
    {
      if verdict.Panics? {
        alive := false;
      } else if verdict.Pass? && plain.Some? {
        cleared := cleared + [r.origin];
        HandleIncomingUnsafe(r.origin, plain.value, r.attempts, r.waited);
      } else {
        Retry(r.origin, r.message, Truncate16(r.attempts + 1), false, r.waited);
      }
    }

    method HandleRetry(r: Scheduled)
      requires Valid() && alive
      modifies this`alive, this`cleared
      modifies this`mail, this`keygenHandled, this`offlineHandled, this`signHandled
      modifies this`routed, this`messagesDropped, this`timers
      ensures var l' := Recheck(cfg.codec, Runners(), old(Ledger()), r, Check(cfg, db.tree, r.message),
          MaybeDecrypt(cfg.codec, cfg.sk, r.message));
              (alive <==> l'.Some?) && (alive ==> Valid() && l' == Some(Ledger()))
    {
      var verdict := Check(cfg, db.tree, r.message);
      var plain := None;
      if verdict.Pass? {
        plain := Decrypted(r.message);
      }
      Readmit(r, verdict, plain);
    }

    /** `handle_coordinator_message` on a retry whose timer has fired. */
    method OnTimer(r: Scheduled)
      requires Valid() && alive && r in timers
      modifies this`alive, this`cleared
      modifies this`mail, this`keygenHandled, this`offlineHandled, this`signHandled
      modifies this`routed, this`messagesDropped, this`timers
      ensures var l' := Fire(cfg, db.tree, Runners(), old(Ledger()), r);
              (alive <==> l'.Some?) && (alive ==> Valid() && l' == Some(Ledger()))
    {
      timers := timers - multiset{r};
      if r.checkPassed {
        HandleIncomingUnsafe(r.origin, r.message, r.attempts, r.waited);
      } else {
        HandleRetry(r);
      }
    }

    /** The error handlers: an out-of-order message starts over. */
    method OnOutOfOrder(d: Delivery)
      requires Valid()
      modifies this`bounces, this`messagesDropped, this`timers
      ensures Valid() && Ledger() == Bounce(old(Ledger()), d)
    {
      bounces := bounces + 1;
      Retry(d.origin, d.message, 1, true, 0);
    }

    method OnOutgoing(message: CoreMessage, nonce: nat)
      requires Valid()
      modifies this`outbox
      ensures Valid() && View() == CoordinatorSpec.OnOutgoing(cfg, old(View()), message, nonce)
    {
      var encrypter := new SimpleEncrypter(cfg.codec, db);
      var msg := new CoreCell(message);
      var ok := encrypter.MaybeEncrypt(msg, nonce);
      if ok {
        outbox := outbox + [msg.View()];
      }
    }

    // ---- Requests and results ----

    method SendResponse(requestId: string, result: string, requestType: RequestType, status: RequestStatus)
      modifies this`responses
      ensures View() == Respond(old(View()), requestId, result, requestType, status)
    {
      responses := responses + [Response(requestId, result, requestType, status)];
    }

    ghost method NoteId(requestId: string)
      modifies this`history
      ensures View() == Use(old(View()), requestId)
    {
      history := history.(used := history.used + {requestId});
    }

    method SaveGroup(group: PublicKeyGroup)
      modifies db
      ensures View() == StoreGroup(old(View()), group)
    {
      db.SaveGroup(group);
    }

    method StartKeygenRunner(task: KeygenTask)
      modifies this`keygenRunners, this`history
      ensures View() == StartKeygen(old(View()), task)
    {
      keygenRunners := keygenRunners[task.room := task];
      history := history.(waiting := AddKeygen(history.waiting, task));
    }

    method StartOfflineRunner(task: EnrichedSignRequest)
      modifies this`offlineRunners, this`history
      ensures View() == StartOffline(old(View()), task)
    {
      offlineRunners := offlineRunners[task.room := task];
      history := history.(waiting := AddOffline(history.waiting, task));
    }

    method StartSignerRunner(task: EnrichedSignRequest)
      modifies this`signers, this`history
      ensures View() == StartSigner(old(View()), task)
    {
      signers := signers[task.room := task];
      history := history.(waiting := AddSigner(history.waiting, task));
    }

    method Panic()
      modifies this`alive
      ensures View() == Dead(old(View()))
    {
      alive := false;
    }

    method HandleKeygenRequest(req: KeygenRequest, machineStarts: bool)
      requires Valid() && alive
      modifies this`alive, this`responses, this`history, this`keygenRunners, db
      ensures Valid() && View() == OnKeygenRequest(cfg, old(View()), req, machineStarts)
    {
      NoteId(req.requestId);
      SendResponse(req.requestId, "", KeygenType, Processing);
      if !Sliceable(req.participants) {
        Panic();
        return;
      }
      var group := NewGroup(req.participants, Truncate16(req.threshold), cfg.Own());
      var room := MakeRoomId(req.requestId, group.groupId);
      var index := OwnIndex(group.publicKeys, group.ownPublicKey);
      if index.None? {
        Panic();
      } else if machineStarts {
        SaveGroup(group);
        StartKeygenRunner(KeygenTask(req, room, index.value));
      }
    }

    /** `handle_sign_request` once the local share has been read. */
    method SignWithShare(req: SignRequest, stored: StoredShare, machineStarts: bool)
      requires Valid() && alive
      modifies this`alive, this`responses, this`history, this`offlineRunners, db
      ensures Valid() && View() == SignWith(cfg, old(View()), req, stored, machineStarts)
    {
      if !Sliceable(stored.publicKeys) || !Sliceable(req.participants) {
        Panic();
        return;
      }
      var group := NewGroup(stored.publicKeys, stored.share.t, cfg.Own());
      var subgroup := NewGroup(req.participants, stored.share.t, cfg.Own());
      SaveGroup(subgroup);
      var selected := SelectSigners(group.publicKeys, req.participants, stored.share.t);
      if selected.Err? {
        return;
      }
      SendResponse(req.requestId, "", SignType, Processing);
      var index := OwnIndex(subgroup.publicKeys, cfg.Own());
      if OwnIndex(group.publicKeys, cfg.Own()).None? || index.None? {
        Panic();
      } else if machineStarts {
        var room := MakeRoomId(req.requestId, subgroup.groupId);
        StartOfflineRunner(EnrichedSignRequest(req, room, index.value, selected.value));
      }
    }

    method HandleSignRequest(req: SignRequest, machineStarts: bool)
      requires Valid() && alive
      modifies this`alive, this`responses, this`history, this`offlineRunners, db
      ensures Valid() && View() == OnSignRequest(cfg, old(View()), req, machineStarts)
    {
      NoteId(req.requestId);
      var localShare := ShareAt(cfg.codec, cfg.sk, db.tree, req.publicKey);
      if localShare.Some? {
        SignWithShare(req, localShare.value, machineStarts);
      }
    }

    method SaveLocalShare(task: KeygenTask, key: LocalKey, nonce: nat)
      modifies db, this`history
      ensures View() == StoreShare(cfg, old(View()), task, key, nonce)
    {
      db.SaveShare(cfg.codec, StoredShare(task.request.participants, cfg.Own(), key), nonce);
      history := history.(completed := history.completed + [Completed(task, key)]);
    }

    /** The finished runner's room leaves the offline map. */
    method RemoveOfflineRunner(room: string)
      modifies this`offlineRunners
      ensures View() == old(View()).(runners := DropOffline(old(View()).runners, room))
    {
      offlineRunners := offlineRunners - {room};
    }

    ghost method NoteResult(waiting: Runners)
      modifies this`history
      ensures View() == old(View()).(history := old(View()).history.(waiting := waiting))
    {
      history := history.(waiting := waiting);
    }

    method OnKeygenOutput(task: KeygenTask, key: LocalKey, nonce: nat)
      requires Valid() && alive
      modifies this`alive, this`responses, this`history, this`offlineRunners, db
      ensures Valid() && View() == OnKeygenDone(cfg, old(View()), task, key, nonce)
    {
      if !Sliceable(task.request.participants) {
        Panic();
        return;
      }
      var group := NewGroup(task.request.participants, Truncate16(task.request.threshold), cfg.Own());
      var room := MakeRoomId(task.request.requestId, group.groupId);
      RemoveOfflineRunner(room);
      NoteResult(DropKeygen(history.waiting, task.room));
      SaveLocalShare(task, key, nonce);
      SendResponse(task.request.requestId, key.sumPublicKey, KeygenType, Done);
    }

    method OnOfflineOutput(task: EnrichedSignRequest)
      requires Valid()
      modifies this`offlineRunners, this`signers, this`history, this`responses
      ensures Valid() && View() == OnOfflineDone(cfg, old(View()), task)
    {
      RemoveOfflineRunner(task.room);
      NoteResult(DropOffline(history.waiting, task.room));
      if cfg.codec.hashParses(task.inner.hash) {
        StartSignerRunner(task);
        SendResponse(task.inner.requestId, "", SignType, Processing);
      } else {
        SendResponse(task.inner.requestId, "", SignType, Error);
      }
    }

    method OnSignOutput(task: EnrichedSignRequest, signature: string)
      requires Valid()
      modifies this`history, this`responses
      ensures Valid() && View() == OnSignDone(old(View()), task, signature)
    {
      NoteResult(DropSigner(history.waiting, task.room));
      SendResponse(task.inner.requestId, signature, SignType, Done);
    }

    // ---- One mail after the other ----

    method HandleMessage(mail: Mail)
      requires Valid() && Enabled(View(), EventOf(mail))
      requires mail.IncomingMail? || mail.RetryMail? || mail.ErrorMail?
      modifies this`alive, this`arrived, this`cleared, this`failed, this`bounces, this`messagesReceived
      modifies this`mail, this`keygenHandled, this`offlineHandled, this`signHandled
      modifies this`routed, this`messagesDropped, this`timers
      ensures alive <==> Step(cfg, old(View()), EventOf(mail)).alive
      ensures alive ==> Valid() && View() == Step(cfg, old(View()), EventOf(mail))
    {
      match mail {
        case IncomingMail(message) => HandleIncoming(message);
        case RetryMail(retry) => OnTimer(retry);
        case ErrorMail(delivery) => OnOutOfOrder(delivery);
      }
    }

    method HandleOther(mail: Mail)
      requires Valid() && Enabled(View(), EventOf(mail)) && Genuine(history.waiting, mail)
      requires !mail.IncomingMail? && !mail.RetryMail? && !mail.ErrorMail?
      modifies this`alive, this`responses, this`outbox, this`history
      modifies this`keygenRunners, this`offlineRunners, this`signers, db
      ensures Valid() && View() == Step(cfg, old(View()), EventOf(mail))
    {
      match mail {
        case OutgoingMail(core, nonce) => OnOutgoing(core, nonce);
        case KeygenMail(req, machineStarts) => HandleKeygenRequest(req, machineStarts);
        case SignMail(req, machineStarts) => HandleSignRequest(req, machineStarts);
        case KeygenOutput(task, key, nonce) => OnKeygenOutput(task, key, nonce);
        case OfflineOutput(task) => OnOfflineOutput(task);
        case SignOutput(task, signature) => OnSignOutput(task, signature);
      }
    }

    /**
     * One turn of the actor is one step of the specification, so a run of the object is a run
     * of the states. After a panic the actor is gone, and only that is promised.
     */
    method Handle(mail: Mail)
      requires Valid() && Enabled(View(), EventOf(mail)) && Genuine(history.waiting, mail)
      modifies this, db
      ensures alive <==> Step(cfg, old(View()), EventOf(mail)).alive
      ensures alive ==> Valid() && View() == Step(cfg, old(View()), EventOf(mail))
    {
      if mail.IncomingMail? || mail.RetryMail? || mail.ErrorMail? {
        HandleMessage(mail);
      } else {
        HandleOther(mail);
      }
    }
  }
}

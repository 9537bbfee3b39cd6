/** What a polled answer says beside its status: the result that the request's own runner reported, and its type. */
module Answers {
  import opened Codecs
  import opened CoordinatorSpec
  import opened MessageLife
  import opened Routing
  import opened RequestFates
  import opened Pipeline

  // ---- Where a result comes from ----

  /** A runner with this request id reports this value: a public key, or a signature. */
  ghost predicate ReportsNow(sys: Sys, action: Action, id: string, requestType: RequestType, value: string) {
    var w := sys.node.history.waiting;
    && action.NodeEvent?
    && match action.ev
       case KeygenFinished(room, key, _) =>
         && room in w.keygen && w.keygen[room].request.requestId == id
         && requestType == KeygenType && value == key.sumPublicKey
       case SignFinished(room, signature) =>
         && room in w.signing && w.signing[room].inner.requestId == id
         && requestType == SignType && value == signature
       case _ => false
  }

  ghost predicate Reported(cfg: Config, actions: seq<Action>, id: string, requestType: RequestType, value: string)
    requires Interleaving(cfg, actions)
  {
    actions != [] &&
    var n := |actions| - 1;
    || ReportsNow(SysAfter(cfg, actions[..n]), actions[n], id, requestType, value)
    || Reported(cfg, actions[..n], id, requestType, value)
  }

  /** A finished key generation with this request id and this public key. */
  ghost predicate Generated(s: State, id: string, value: string) {
    exists c :: c in s.history.completed && c.task.request.requestId == id && c.key.sumPublicKey == value
  }

  // ---- One action ----

  /** An empty answer, or the value that this very action reports. */
  ghost predicate IsAnswer(sys: Sys, action: Action, r: Response) {
    if r.status == Done then ReportsNow(sys, action, r.requestId, r.requestType, r.result) else r.result == ""
  }

  /** The type is that of a call, for an id announced once that of its own call. */
  ghost predicate TypeFits(book: Book, r: Response) {
    r.requestId in book.calls && (r.requestId !in book.repeated ==> r.requestType == TypeOf(book.calls[r.requestId]))
  }

  /** The action adds no response, or one that is an answer of the right type. */
  ghost predicate AnswersOnce(sys: Sys, action: Action, sys': Sys) {
    sys'.node.responses != sys.node.responses ==>
      && |sys'.node.responses| == |sys.node.responses| + 1
      && sys'.node.responses[..|sys.node.responses|] == sys.node.responses
      && IsAnswer(sys, action, sys'.node.responses[|sys.node.responses|])
      && TypeFits(sys'.book, sys'.node.responses[|sys.node.responses|])
  }

  lemma TurnAnswers(cfg: Config, sys: Sys, machineStarts: bool)
    requires SysOk(cfg, sys) && CanAct(cfg, sys, Process(machineStarts))
    ensures AnswersOnce(sys, Process(machineStarts), Act(cfg, sys, Process(machineStarts)))
  {
    var call, s := sys.queue[0], sys.node;
    assert IsAt(sys.book, call, Stage.Queued);
    match call
    case KeygenCall(req) => KeygenHasFate(cfg, s, req, machineStarts);
    case SignCall(req) => SignHasFate(cfg, s, req, machineStarts);
  }

  /** A response to a call that a runner works on has the right type, also after that runner's event. */
  lemma WorkingTypeFits(cfg: Config, sys: Sys, ev: Event, at: Stage, r: Response)
    requires SysOk(cfg, sys) && CanAct(cfg, sys, NodeEvent(ev))
    requires CallAt(sys.node.history.waiting, at).Some?
    requires var call := CallAt(sys.node.history.waiting, at).value;
             r.requestId == IdOf(call) && r.requestType == TypeOf(call)
    ensures TypeFits(Act(cfg, sys, NodeEvent(ev)).book, r)
  {
    assert IsAt(sys.book, CallAt(sys.node.history.waiting, at).value, at);
  }

  lemma KeygenDoneAnswers(cfg: Config, sys: Sys, room: string, key: LocalKey, nonce: nat)
    requires Lawful(cfg.codec) && SysOk(cfg, sys) && CanAct(cfg, sys, NodeEvent(KeygenFinished(room, key, nonce)))
    ensures var action := NodeEvent(KeygenFinished(room, key, nonce)); AnswersOnce(sys, action, Act(cfg, sys, action))
  {
    var ev, call := KeygenFinished(room, key, nonce), KeygenCall(sys.node.history.waiting.keygen[room].request);
    RequestsMeetTheirFate(cfg, AnyKeys(), sys.node, ev);
    WorkingTypeFits(cfg, sys, ev, AtKeygen(room), Response(IdOf(call), key.sumPublicKey, KeygenType, Done));
  }

  lemma OfflineDoneAnswers(cfg: Config, sys: Sys, room: string)
    requires Lawful(cfg.codec) && SysOk(cfg, sys) && CanAct(cfg, sys, NodeEvent(OfflineFinished(room)))
    ensures AnswersOnce(sys, NodeEvent(OfflineFinished(room)), Act(cfg, sys, NodeEvent(OfflineFinished(room))))
  {
    var call := SignCall(sys.node.history.waiting.offline[room].inner);
    RequestsMeetTheirFate(cfg, AnyKeys(), sys.node, OfflineFinished(room));
    OfflineResultIsNoError(cfg, sys, room);
    WorkingTypeFits(cfg, sys, OfflineFinished(room), AtOffline(room), Response(IdOf(call), "", SignType, Processing));
  }

  lemma SignDoneAnswers(cfg: Config, sys: Sys, room: string, signature: string)
    requires Lawful(cfg.codec) && SysOk(cfg, sys) && CanAct(cfg, sys, NodeEvent(SignFinished(room, signature)))
    ensures var action := NodeEvent(SignFinished(room, signature)); AnswersOnce(sys, action, Act(cfg, sys, action))
  {
    var ev, call := SignFinished(room, signature), SignCall(sys.node.history.waiting.signing[room].inner);
    RequestsMeetTheirFate(cfg, AnyKeys(), sys.node, ev);
    WorkingTypeFits(cfg, sys, ev, AtSigner(room), Response(IdOf(call), signature, SignType, Done));
  }

  lemma MessagesAnswerNothing(cfg: Config, sys: Sys, ev: Event)
    requires CanAct(cfg, sys, NodeEvent(ev)) && (IsMessageEvent(ev) || ev.Outgoing?)
    ensures Act(cfg, sys, NodeEvent(ev)).node.responses == sys.node.responses
    ensures Act(cfg, sys, NodeEvent(ev)).node.history == sys.node.history
    ensures Act(cfg, sys, NodeEvent(ev)).book == sys.book
  {
    if IsMessageEvent(ev) {
      MessageEventsTouchLedgerOnly(cfg, sys.node, ev);
    }
  }

  lemma ResultAnswers(cfg: Config, sys: Sys, ev: Event)
    requires Lawful(cfg.codec) && SysOk(cfg, sys) && CanAct(cfg, sys, NodeEvent(ev))
    requires ev.KeygenFinished? || ev.OfflineFinished? || ev.SignFinished?
    ensures AnswersOnce(sys, NodeEvent(ev), Act(cfg, sys, NodeEvent(ev)))
  {
    match ev
    case KeygenFinished(room, key, nonce) => KeygenDoneAnswers(cfg, sys, room, key, nonce);
    case OfflineFinished(room) => OfflineDoneAnswers(cfg, sys, room);
    case SignFinished(room, signature) => SignDoneAnswers(cfg, sys, room, signature);
  }

  lemma ActAnswersOnce(cfg: Config, sys: Sys, action: Action)
    requires Lawful(cfg.codec) && SysOk(cfg, sys) && CanAct(cfg, sys, action)
    ensures AnswersOnce(sys, action, Act(cfg, sys, action))
  {
    match action
    case Process(machineStarts) => TurnAnswers(cfg, sys, machineStarts);
    case NodeEvent(ev) =>
      if IsMessageEvent(ev) || ev.Outgoing? {
        MessagesAnswerNothing(cfg, sys, ev);
      } else {
        ResultAnswers(cfg, sys, ev);
      }
    case _ =>
  }

  lemma StepKeepsCompleted(cfg: Config, s: State, ev: Event)
    requires Lawful(cfg.codec) && NodeOk(cfg, AnyKeys(), s) && Enabled(s, ev)
    ensures s.history.completed <= Step(cfg, s, ev).history.completed
  {
    if IsMessageEvent(ev) {
      MessageEventsTouchLedgerOnly(cfg, s, ev);
    } else {
      RequestsMeetTheirFate(cfg, AnyKeys(), s, ev);
    }
  }

  lemma KeygenDoneGenerates(cfg: Config, s: State, room: string, key: LocalKey, nonce: nat)
    requires Lawful(cfg.codec) && NodeOk(cfg, AnyKeys(), s) && Enabled(s, KeygenFinished(room, key, nonce))
    ensures Generated(Step(cfg, s, KeygenFinished(room, key, nonce)), s.history.waiting.keygen[room].request.requestId,
                key.sumPublicKey)
  {
    RequestsMeetTheirFate(cfg, AnyKeys(), s, KeygenFinished(room, key, nonce));
    var completed := Step(cfg, s, KeygenFinished(room, key, nonce)).history.completed;
    assert completed[|completed| - 1] in completed;
  }

  /** Finished key generations stay, and each report of a public key is one. */
  lemma ActKeepsCompleted(cfg: Config, sys: Sys, action: Action)
    requires Lawful(cfg.codec) && SysOk(cfg, sys) && CanAct(cfg, sys, action)
    ensures sys.node.history.completed <= Act(cfg, sys, action).node.history.completed
    ensures forall id, value | ReportsNow(sys, action, id, KeygenType, value) ::
              Generated(Act(cfg, sys, action).node, id, value)
  {
    match action
    case Process(machineStarts) => StepKeepsCompleted(cfg, sys.node, RequestEvent(sys.queue[0], machineStarts));
    case NodeEvent(ev) =>
      StepKeepsCompleted(cfg, sys.node, ev);
      if ev.KeygenFinished? {
        KeygenDoneGenerates(cfg, sys.node, ev.room, ev.key, ev.nonce);
      }
    case _ =>
  }

  // ---- All interleavings ----

  /** What is known of every response ever sent. */
  ghost predicate AnswerOk(cfg: Config, actions: seq<Action>, r: Response)
    requires Interleaving(cfg, actions)
  {
    && TypeFits(SysAfter(cfg, actions).book, r)
    && (r.status != Done ==> r.result == "")
    && (r.status == Done ==>
          && Reported(cfg, actions, r.requestId, r.requestType, r.result)
          && (r.requestType == KeygenType ==> Generated(SysAfter(cfg, actions).node, r.requestId, r.result)))
  }

  ghost predicate AnswersOk(cfg: Config, actions: seq<Action>)
    requires Interleaving(cfg, actions)
  {
    var responses := SysAfter(cfg, actions).node.responses;
    forall i | 0 <= i < |responses| :: AnswerOk(cfg, actions, responses[i])
  }

  lemma TypeStillFits(cfg: Config, sys: Sys, action: Action, r: Response)
    requires CanAct(cfg, sys, action) && TypeFits(sys.book, r)
    ensures TypeFits(Act(cfg, sys, action).book, r)
  {
  }

  lemma StillGenerated(s: State, s': State, id: string, value: string)
    requires Generated(s, id, value) && s.history.completed <= s'.history.completed
    ensures Generated(s', id, value)
  {
    var c :| c in s.history.completed && c.task.request.requestId == id && c.key.sumPublicKey == value;
    assert c in s'.history.completed;
  }

  lemma {:induction false} AnswerStaysOk(cfg: Config, actions: seq<Action>, r: Response)
    requires Lawful(cfg.codec) && Interleaving(cfg, actions) && actions != []
    requires AnswerOk(cfg, actions[..|actions| - 1], r)
    ensures AnswerOk(cfg, actions, r)
  {
    var n := |actions| - 1;
    var sys := SysAfter(cfg, actions[..n]);
    RunKeepsSys(cfg, actions[..n]);
    TypeStillFits(cfg, sys, actions[n], r);
    ActKeepsCompleted(cfg, sys, actions[n]);
    if r.status == Done && r.requestType == KeygenType {
      StillGenerated(sys.node, SysAfter(cfg, actions).node, r.requestId, r.result);
    }
  }

  lemma {:induction false} NewAnswerOk(cfg: Config, actions: seq<Action>, r: Response)
    requires Lawful(cfg.codec) && Interleaving(cfg, actions) && actions != []
    requires IsAnswer(SysAfter(cfg, actions[..|actions| - 1]), actions[|actions| - 1], r)
    requires TypeFits(SysAfter(cfg, actions).book, r)
    ensures AnswerOk(cfg, actions, r)
  {
    var n := |actions| - 1;
    RunKeepsSys(cfg, actions[..n]);
    ActKeepsCompleted(cfg, SysAfter(cfg, actions[..n]), actions[n]);
  }

  /** The new responses are the old ones, and at most one more that is this action's answer. */
  lemma ResponsesAreOldOrNew(sys: Sys, action: Action, sys': Sys, i: nat)
    requires AnswersOnce(sys, action, sys') && i < |sys'.node.responses|
    ensures i < |sys.node.responses| ==> sys'.node.responses[i] == sys.node.responses[i]
    ensures i >= |sys.node.responses| ==>
              IsAnswer(sys, action, sys'.node.responses[i]) && TypeFits(sys'.book, sys'.node.responses[i])
  {
  }

  lemma {:induction false} LastActKeepsAnswers(cfg: Config, actions: seq<Action>, i: nat)
    requires Lawful(cfg.codec) && Interleaving(cfg, actions) && actions != []
    requires AnswersOk(cfg, actions[..|actions| - 1]) && i < |SysAfter(cfg, actions).node.responses|
    ensures AnswerOk(cfg, actions, SysAfter(cfg, actions).node.responses[i])
  {
    var n := |actions| - 1;
    var sys, sys' := SysAfter(cfg, actions[..n]), SysAfter(cfg, actions);
    RunKeepsSys(cfg, actions[..n]);
    ActAnswersOnce(cfg, sys, actions[n]);
    ResponsesAreOldOrNew(sys, actions[n], sys', i);
    if i < |sys.node.responses| {
      AnswerStaysOk(cfg, actions, sys'.node.responses[i]);
    } else {
      NewAnswerOk(cfg, actions, sys'.node.responses[i]);
    }
  }

  lemma {:induction false} RunKeepsAnswers(cfg: Config, actions: seq<Action>)
    requires Lawful(cfg.codec) && Interleaving(cfg, actions)
    ensures AnswersOk(cfg, actions)
  {
    if actions != [] {
      RunKeepsAnswers(cfg, actions[..|actions| - 1]);
      forall i | 0 <= i < |SysAfter(cfg, actions).node.responses|
        ensures AnswerOk(cfg, actions, SysAfter(cfg, actions).node.responses[i])
      {
        LastActKeepsAnswers(cfg, actions, i);
      }
    }
  }

  // ---- What a client polls ----

  lemma PolledWasSent(cfg: Config, sys: Sys, id: string)
    requires SysOk(cfg, sys) && id in sys.results
    ensures sys.results[id] in sys.node.responses && sys.results[id].requestId == id
  {
    var saved := sys.node.responses[..sys.saved];
    ResultsAreLastResponses(saved, id);
    var i: nat :| IsLastFor(saved, i, id);
    assert sys.results[id] == saved[i] == sys.node.responses[i];
  }

  /**
   * What a polled answer says. In every interleaving a status before Done comes with nothing; a
   * Done comes with the very value that a runner with this id reported, for a key generation the
   * public key of a finished one; and for an id announced once the type is that of its call.
   */
  lemma {:induction false} PolledAnswersAreReported(cfg: Config, actions: seq<Action>, id: string)
    requires Lawful(cfg.codec) && Interleaving(cfg, actions) && id in SysAfter(cfg, actions).results
    ensures SysAfter(cfg, actions).results[id].requestId == id
    ensures AnswerOk(cfg, actions, SysAfter(cfg, actions).results[id])
  {
    RunKeepsSys(cfg, actions);
    RunKeepsAnswers(cfg, actions);
    PolledWasSent(cfg, SysAfter(cfg, actions), id);
  }
}

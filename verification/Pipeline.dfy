/**
 * The life of a request's status: the server and the coordinator both write to one response
 * channel, and a third task copies it into the results that clients poll.
 */
module Pipeline {
  import opened Basics
  import opened Codecs
  import opened Rooms
  import opened Groups
  import opened Storage
  import opened CoordinatorSpec
  import opened MessageLife
  import opened Routing

  datatype Request = KeygenCall(keygen: KeygenRequest) | SignCall(sign: SignRequest)

  function IdOf(req: Request): string {
    match req
    case KeygenCall(r) => r.requestId
    case SignCall(r) => r.requestId
  }

  /** `save_result`, once for every response in order; a later response overwrites an earlier one. */
  function SaveAll(results: map<string, Response>, responses: seq<Response>): map<string, Response> {
    if responses == [] then results
    else
      var last := responses[|responses| - 1];
      SaveAll(results, responses[..|responses| - 1])[last.requestId := last]
  }

  // ---- The server and the saving task as objects ----

  datatype ServerError = AlreadyExists | InvalidHash | NotFound

  /** The shared results, and what waits in the two channels. */
  class Backend {
    const codec: Codec
    var results: map<string, Response>
    var responses: seq<Response>
    var requests: seq<Request>

    constructor (codec: Codec)
      ensures this.codec == codec && results == map[] && responses == [] && requests == []
    {
      this.codec := codec;
      results, responses, requests := map[], [], [];
    }

    method Keygen(req: KeygenRequest) returns (r: Result<string, ServerError>)
      modifies this`responses, this`requests
      ensures r == if req.requestId in results then Err(AlreadyExists) else Ok(req.requestId)
      ensures r.Err? ==> responses == old(responses) && requests == old(requests)
      ensures r.Ok? ==>
                && responses == old(responses) + [Response(req.requestId, "", KeygenType, RequestStatus.Received)]
                && requests == old(requests) + [KeygenCall(req)]
    {
      if req.requestId in results {
        return Err(AlreadyExists);
      }
      responses := responses + [Response(req.requestId, "", KeygenType, RequestStatus.Received)];
      requests := requests + [KeygenCall(req)];
      return Ok(req.requestId);
    }

    method Sign(req: SignRequest) returns (r: Result<string, ServerError>)
      modifies this`responses, this`requests
      ensures r == if req.requestId in results then Err(AlreadyExists)
                   else if !codec.hashParses(req.hash) then Err(InvalidHash)
                   else Ok(req.requestId)
      ensures r.Err? ==> responses == old(responses) && requests == old(requests)
      ensures r.Ok? ==>
                && responses == old(responses) + [Response(req.requestId, "", SignType, RequestStatus.Received)]
                && requests == old(requests) + [SignCall(req)]
    {
      if req.requestId in results {
        return Err(AlreadyExists);
      }
      if !codec.hashParses(req.hash) {
        return Err(InvalidHash);
      }
      responses := responses + [Response(req.requestId, "", SignType, RequestStatus.Received)];
      requests := requests + [SignCall(req)];
      return Ok(req.requestId);
    }

    method CheckResult(requestId: string) returns (r: Result<Response, ServerError>)
      ensures r.Ok? <==> requestId in results
      ensures r.Ok? ==> r.value == results[requestId]
      ensures r.Err? ==> r.error == NotFound
    {
      if requestId in results {
        return Ok(results[requestId]);
      }
      return Err(NotFound);
    }

    /** The saving task: take responses off the channel, first in first out, until it is empty. */
    method HandleResponses()
      modifies this`results, this`responses
      ensures responses == [] && results == SaveAll(old(results), old(responses))
    {
      ghost var all := responses;
      ghost var taken := 0;
      assert all[..0] == [];
      while responses != []
        invariant 0 <= taken <= |all| && responses == all[taken..]
        invariant results == SaveAll(old(results), all[..taken])
        decreases |responses|
      {
        var response := responses[0];
        responses := responses[1..];
        results := results[response.requestId := response];
        assert all[..taken + 1][..taken] == all[..taken];
        taken := taken + 1;
      }
      assert all[..|all|] == all;
    }
  }

  // ---- Statuses of one request ----

  /** All statuses that were ever sent for this id, in order. */
  function Trace(responses: seq<Response>, id: string): seq<RequestStatus> {
    if responses == [] then []
    else
      var last := responses[|responses| - 1];
      Trace(responses[..|responses| - 1], id) + (if last.requestId == id then [last.status] else [])
  }

  const KEYGEN_STATUSES := [RequestStatus.Received, Processing, Done]

  const SIGN_STATUSES := [RequestStatus.Received, Processing, Processing, Done]

  function Pattern(req: Request): seq<RequestStatus> {
    if req.KeygenCall? then KEYGEN_STATUSES else SIGN_STATUSES
  }

  function Rank(status: RequestStatus): nat {
    match status
    case Received => 1
    case Processing => 2
    case Done => 3
    case Error => 4
  }

  lemma TraceOfOneMore(responses: seq<Response>, r: Response, id: string)
    ensures Trace(responses + [r], id) == Trace(responses, id) + (if r.requestId == id then [r.status] else [])
  {
    assert (responses + [r])[..|responses|] == responses;
  }

  lemma {:induction false} TraceOfPrefix(responses: seq<Response>, n: nat, id: string)
    requires n <= |responses|
    ensures Trace(responses[..n], id) <= Trace(responses, id)
  {
    if n == |responses| {
      assert responses[..n] == responses;
    } else {
      var init := responses[..|responses| - 1];
      assert init[..n] == responses[..n];
      TraceOfPrefix(init, n, id);
    }
  }

  /** The results hold, for each id, the last status saved for it. */
  lemma {:induction false} ResultsAreLastStatuses(responses: seq<Response>, id: string)
    ensures id in SaveAll(map[], responses) <==> Trace(responses, id) != []
    ensures id in SaveAll(map[], responses) ==>
              && SaveAll(map[], responses)[id].requestId == id
              && SaveAll(map[], responses)[id].status == Trace(responses, id)[|Trace(responses, id)| - 1]
  {
    if responses != [] {
      ResultsAreLastStatuses(responses[..|responses| - 1], id);
    }
  }

  /** The i-th response is the last one for this id. */
  ghost predicate IsLastFor(responses: seq<Response>, i: nat, id: string) {
    && i < |responses| && responses[i].requestId == id
    && forall j | i < j < |responses| :: responses[j].requestId != id
  }

  lemma SameLastWithoutTail(responses: seq<Response>, i: nat, id: string)
    requires responses != [] && responses[|responses| - 1].requestId != id
    ensures IsLastFor(responses, i, id) <==> IsLastFor(responses[..|responses| - 1], i, id)
  {
    var init := responses[..|responses| - 1];
    if i < |init| {
      assert init[i] == responses[i];
      if IsLastFor(responses, i, id) {
        assert forall j | i < j < |init| :: init[j] == responses[j];
      }
      if IsLastFor(init, i, id) {
        forall j | i < j < |responses|
          ensures responses[j].requestId != id
        {
          assert j < |init| ==> init[j] == responses[j];
        }
      }
    }
  }

  /** The results hold, for each id, the whole last response saved for it, and nothing for an id without one. */
  lemma {:induction false} ResultsAreLastResponses(responses: seq<Response>, id: string)
    ensures id in SaveAll(map[], responses) <==> exists i: nat :: IsLastFor(responses, i, id)
    ensures forall i: nat | IsLastFor(responses, i, id) ::
              id in SaveAll(map[], responses) && SaveAll(map[], responses)[id] == responses[i]
  {
    if responses != [] {
      var n := |responses| - 1;
      ResultsAreLastResponses(responses[..n], id);
      if responses[n].requestId == id {
        assert IsLastFor(responses, n, id);
      } else {
        forall i: nat
          ensures IsLastFor(responses, i, id) <==> IsLastFor(responses[..n], i, id)
        {
          SameLastWithoutTail(responses, i, id);
        }
      }
    }
  }

  // ---- All interleavings ----

  /** Where an announced request is. `Ended` keeps the statuses it ended with. */
  datatype Stage =
    | Announced | Queued
    | AtKeygen(room: string) | AtOffline(room: string) | AtSigner(room: string)
    | Ended(trace: seq<RequestStatus>)

  /**
   * History: the call announced last for each id, the ids announced more than once, and where
   * the request of each id is, which is kept right for the ids announced only once.
   */
  datatype Book = Book(calls: map<string, Request>, repeated: set<string>, stage: map<string, Stage>)

  /**
   * `checked` calls have passed the server's tests, `announced` ones have also been sent as
   * Received but not yet queued. `node.responses` is everything ever sent on the response
   * channel, by the server too; its first `saved` entries have been persisted. `queue` is the
   * request channel and the coordinator's mailbox behind it.
   */
  datatype Sys = Sys(
    node: State,
    checked: multiset<Request>,
    announced: multiset<Request>,
    book: Book,
    queue: seq<Request>,
    saved: nat,
    results: map<string, Response>)

  const IDLE := Sys(INITIAL, multiset{}, multiset{}, Book(map[], {}, map[]), [], 0, map[])

  /** The server's three steps on a call, the coordinator's turn, its other events, and saving. */
  datatype Action =
    | Check(call: Request)
    | Announce(call: Request)
    | Enqueue(call: Request)
    | Process(machineStarts: bool)
    | NodeEvent(ev: Event)
    | Persist

  /** The test that the server itself makes on a call. */
  predicate ServerAccepts(c: Codec, sys: Sys, call: Request) {
    IdOf(call) !in sys.results && (call.SignCall? ==> c.hashParses(call.sign.hash))
  }

  function RequestEvent(call: Request, machineStarts: bool): Event {
    match call
    case KeygenCall(r) => KeygenRequested(r, machineStarts)
    case SignCall(r) => SignRequested(r, machineStarts)
  }

  /** Whatever the code allows, several calls with one id included. */
  predicate CanAct(cfg: Config, sys: Sys, action: Action) {
    match action
    case Check(call) => ServerAccepts(cfg.codec, sys, call)
    case Announce(call) => call in sys.checked
    case Enqueue(call) => call in sys.announced
    case Process(_) => sys.queue != [] && sys.node.alive
    case NodeEvent(ev) => !ev.KeygenRequested? && !ev.SignRequested? && Enabled(sys.node, ev)
    case Persist => sys.saved < |sys.node.responses|
  }

  function RoomOf(req: Request): string {
    var keys := if req.KeygenCall? then req.keygen.participants else req.sign.participants;
    if Sliceable(keys) then RoomId(IdOf(req), GroupId(keys)) else ""
  }

  /** Where the coordinator's turn leaves a request. */
  function StageAfter(req: Request, before: State, after: State): Stage {
    if after.history.waiting != before.history.waiting then
      (if req.KeygenCall? then AtKeygen(RoomOf(req)) else AtOffline(RoomOf(req)))
    else if after.responses == before.responses then Ended([RequestStatus.Received])
    else Ended([RequestStatus.Received, Processing])
  }

  function TypeOf(req: Request): RequestType {
    if req.KeygenCall? then KeygenType else SignType
  }

  function Advance(book: Book, id: string, next: Stage): Book {
    book.(stage := book.stage[id := next])
  }

  function Announcing(book: Book, call: Request): Book {
    var id := IdOf(call);
    var repeated := if id in book.calls then book.repeated + {id} else book.repeated;
    Book(book.calls[id := call], repeated, book.stage[id := Announced])
  }

  function Act(cfg: Config, sys: Sys, action: Action): Sys
    requires CanAct(cfg, sys, action)
  {
    match action
    case Check(call) => sys.(checked := sys.checked + multiset{call})
    case Announce(call) =>
      sys.(node := Respond(sys.node, IdOf(call), "", TypeOf(call), RequestStatus.Received),
           checked := sys.checked - multiset{call},
           announced := sys.announced + multiset{call},
           book := Announcing(sys.book, call))
    case Enqueue(call) =>
      sys.(announced := sys.announced - multiset{call},
           queue := sys.queue + [call],
           book := Advance(sys.book, IdOf(call), Stage.Queued))
    case Process(machineStarts) =>
      var req := sys.queue[0];
      var node := Step(cfg, sys.node, RequestEvent(req, machineStarts));
      sys.(queue := sys.queue[1..], node := node, book := Advance(sys.book, IdOf(req), StageAfter(req, sys.node, node)))
    case NodeEvent(ev) =>
      sys.(node := Step(cfg, sys.node, ev), book := BookOnEvent(sys.book, sys.node, ev))
    case Persist =>
      var r := sys.node.responses[sys.saved];
      sys.(saved := sys.saved + 1, results := sys.results[r.requestId := r])
  }

  function BookOnEvent(book: Book, node: State, ev: Event): Book
    requires Enabled(node, ev)
  {
    match ev
    case KeygenFinished(room, _, _) =>
      Advance(book, node.history.waiting.keygen[room].request.requestId, Ended(KEYGEN_STATUSES))
    case OfflineFinished(room) => Advance(book, node.history.waiting.offline[room].inner.requestId, AtSigner(room))
    case SignFinished(room, _) =>
      Advance(book, node.history.waiting.signing[room].inner.requestId, Ended(SIGN_STATUSES))
    case _ => book
  }

  ghost predicate Interleaving(cfg: Config, actions: seq<Action>)
    decreases |actions|, 0
  {
    actions == [] ||
    var n := |actions| - 1;
    Interleaving(cfg, actions[..n]) && CanAct(cfg, SysAfter(cfg, actions[..n]), actions[n])
  }

  ghost function SysAfter(cfg: Config, actions: seq<Action>): Sys
    requires Interleaving(cfg, actions)
    decreases |actions|, 1
  {
    if actions == [] then IDLE
    else
      var n := |actions| - 1;
      Act(cfg, SysAfter(cfg, actions[..n]), actions[n])
  }

  // ---- The invariant ----

  function TraceAt(stage: map<string, Stage>, id: string): seq<RequestStatus> {
    if id !in stage then []
    else
      match stage[id]
      case Announced => [RequestStatus.Received]
      case Queued => [RequestStatus.Received]
      case AtKeygen(_) => [RequestStatus.Received, Processing]
      case AtOffline(_) => [RequestStatus.Received, Processing]
      case AtSigner(_) => [RequestStatus.Received, Processing, Processing]
      case Ended(trace) => trace
  }

  /** Received comes first, and again. */
  ghost predicate ReceivedTwice(trace: seq<RequestStatus>) {
    && trace != [] && trace[0] == RequestStatus.Received
    && exists j :: 1 <= j < |trace| && trace[j] == RequestStatus.Received
  }

  ghost predicate TraceOk(book: Book, trace: seq<RequestStatus>, id: string) {
    if id in book.repeated then ReceivedTwice(trace) else trace == TraceAt(book.stage, id)
  }

  ghost predicate TracesOk(book: Book, responses: seq<Response>) {
    forall id :: TraceOk(book, Trace(responses, id), id)
  }

  ghost predicate NoErrors(responses: seq<Response>) {
    forall i | 0 <= i < |responses| :: responses[i].status != Error
  }

  /** The server has let this call through. */
  ghost predicate CallOk(c: Codec, call: Request) {
    call.SignCall? ==> c.hashParses(call.sign.hash)
  }

  ghost predicate CallsOk(
      c: Codec, checked: multiset<Request>, announced: multiset<Request>, queue: seq<Request>, w: Runners) {
    && (forall call | call in checked :: CallOk(c, call))
    && (forall call | call in announced :: CallOk(c, call))
    && (forall i | 0 <= i < |queue| :: CallOk(c, queue[i]))
    && (forall at :: CallAt(w, at).Some? ==> CallOk(c, CallAt(w, at).value))
  }

  /** The stage fits the kind of request, and an ended request ended within its pattern. */
  ghost predicate StageOk(id: string, req: Request, stage: Stage) {
    && IdOf(req) == id
    && match stage
       case AtKeygen(_) => req.KeygenCall?
       case AtOffline(_) => req.SignCall?
       case AtSigner(_) => req.SignCall?
       case Ended(trace) => trace != [] && trace <= Pattern(req)
       case _ => true
  }

  ghost predicate StagesOk(book: Book) {
    && book.stage.Keys == book.calls.Keys && book.repeated <= book.calls.Keys
    && forall id | id in book.calls && id !in book.repeated :: StageOk(id, book.calls[id], book.stage[id])
  }

  /** A known id; unless it was announced twice, this is its call, and at this stage. */
  ghost predicate IsAt(book: Book, call: Request, at: Stage) {
    var id := IdOf(call);
    && id in book.calls && id in book.stage
    && (id !in book.repeated ==> book.calls[id] == call && book.stage[id] == at)
  }

  ghost predicate AnnouncedOk(book: Book, announced: multiset<Request>) {
    forall call | call in announced ::
      IsAt(book, call, Announced) && (IdOf(call) !in book.repeated ==> announced[call] == 1)
  }

  ghost predicate QueueOk(book: Book, queue: seq<Request>) {
    && (forall i | 0 <= i < |queue| :: IsAt(book, queue[i], Stage.Queued))
    && (forall i, j | 0 <= i < j < |queue| && IdOf(queue[i]) == IdOf(queue[j]) :: IdOf(queue[i]) in book.repeated)
  }

  /** The call behind the runner that owes a result at this stage. */
  function CallAt(w: Runners, at: Stage): Option<Request> {
    match at
    case AtKeygen(room) => if room in w.keygen then Some(KeygenCall(w.keygen[room].request)) else None
    case AtOffline(room) => if room in w.offline then Some(SignCall(w.offline[room].inner)) else None
    case AtSigner(room) => if room in w.signing then Some(SignCall(w.signing[room].inner)) else None
    case _ => None
  }

  /** A runner that owes a result belongs to an announced request at the stage of that runner. */
  ghost predicate WaitingOk(book: Book, w: Runners) {
    forall at :: CallAt(w, at).Some? ==> IsAt(book, CallAt(w, at).value, at)
  }

  ghost predicate BookOk(book: Book, announced: multiset<Request>, queue: seq<Request>, w: Runners) {
    StagesOk(book) && AnnouncedOk(book, announced) && QueueOk(book, queue) && WaitingOk(book, w)
  }

  ghost predicate SavedOk(responses: seq<Response>, saved: nat, results: map<string, Response>) {
    saved <= |responses| && results == SaveAll(map[], responses[..saved])
  }

  ghost predicate SysOk(cfg: Config, sys: Sys) {
    && NodeOk(cfg, AnyKeys(), sys.node)
    && TracesOk(sys.book, sys.node.responses) && NoErrors(sys.node.responses)
    && CallsOk(cfg.codec, sys.checked, sys.announced, sys.queue, sys.node.history.waiting)
    && BookOk(sys.book, sys.announced, sys.queue, sys.node.history.waiting)
    && SavedOk(sys.node.responses, sys.saved, sys.results)
  }

  // ---- How the bookkeeping follows each action ----

  lemma AnnounceBook(book: Book, announced: multiset<Request>, queue: seq<Request>, w: Runners, call: Request)
    requires BookOk(book, announced, queue, w)
    ensures BookOk(Announcing(book, call), announced + multiset{call}, queue, w)
  {
    var book' := Announcing(book, call);
    forall at | CallAt(w, at).Some?
      ensures IsAt(book', CallAt(w, at).value, at)
    {
      assert IsAt(book, CallAt(w, at).value, at);
    }
  }

  lemma EnqueueBook(book: Book, announced: multiset<Request>, queue: seq<Request>, w: Runners, call: Request)
    requires BookOk(book, announced, queue, w) && call in announced
    ensures BookOk(Advance(book, IdOf(call), Stage.Queued), announced - multiset{call}, queue + [call], w)
  {
    var id := IdOf(call);
    assert IsAt(book, call, Announced);
    forall at | CallAt(w, at).Some?
      ensures IsAt(Advance(book, id, Stage.Queued), CallAt(w, at).value, at)
    {
      assert IsAt(book, CallAt(w, at).value, at);
    }
  }

  /** The only change among the owing runners is that the call is now at `next`, if it owes anything at all. */
  ghost predicate OnlyMoves(book: Book, w: Runners, w': Runners, call: Request, next: Stage) {
    forall at :: CallAt(w', at).Some? ==>
      || (at == next && CallAt(w', at).value == call)
      || (CallAt(w', at) == CallAt(w, at) &&
          (IdOf(CallAt(w, at).value) == IdOf(call) ==> IdOf(call) in book.repeated))
  }

  /** A request leaves the head of the queue, or a runner's result moves it on. */
  lemma AdvanceBook(book: Book, announced: multiset<Request>, queue: seq<Request>, queue': seq<Request>,
                    w: Runners, w': Runners, call: Request, at: Stage, next: Stage)
    requires BookOk(book, announced, queue, w) && IsAt(book, call, at) && at != Announced
    requires if at == Stage.Queued then queue != [] && queue[0] == call && queue' == queue[1..] else queue' == queue
    requires IdOf(call) !in book.repeated ==> StageOk(IdOf(call), call, next)
    requires OnlyMoves(book, w, w', call, next)
    ensures BookOk(Advance(book, IdOf(call), next), announced, queue', w')
  {
    var book' := Advance(book, IdOf(call), next);
    forall x | CallAt(w', x).Some?
      ensures IsAt(book', CallAt(w', x).value, x)
    {
      if CallAt(w', x) == CallAt(w, x) {
        assert IsAt(book, CallAt(w, x).value, x);
      }
    }
  }

  // ---- Traces ----

  lemma ReceivedTwiceLasts(trace: seq<RequestStatus>, more: seq<RequestStatus>)
    requires ReceivedTwice(trace)
    ensures ReceivedTwice(trace + more)
  {
    var j :| 1 <= j < |trace| && trace[j] == RequestStatus.Received;
    assert (trace + more)[j] == RequestStatus.Received;
  }

  /** What a response does to the trace of one id. */
  lemma ResponseMovesTrace(book: Book, book': Book, responses: seq<Response>, r: Response, id: string)
    requires TraceOk(book, Trace(responses, id), id) && book'.repeated == book.repeated
    requires id !in book.repeated ==>
               TraceAt(book'.stage, id) == TraceAt(book.stage, id) + (if r.requestId == id then [r.status] else [])
    ensures TraceOk(book', Trace(responses + [r], id), id)
  {
    TraceOfOneMore(responses, r, id);
    if id in book.repeated {
      ReceivedTwiceLasts(Trace(responses, id), if r.requestId == id then [r.status] else []);
    }
  }

  lemma OtherTraceStays(book: Book, id: string, next: Stage, other: string)
    requires other != id
    ensures TraceAt(Advance(book, id, next).stage, other) == TraceAt(book.stage, other)
  {
  }

  /** A request advances and sends the responses `sent`, none or one. */
  lemma AdvanceTraces(book: Book, id: string, next: Stage, responses: seq<Response>, sent: seq<Response>)
    requires TracesOk(book, responses) && |sent| <= 1
    requires var stage' := Advance(book, id, next).stage;
             id !in book.repeated ==>
               TraceAt(stage', id) == TraceAt(book.stage, id) + (if sent == [] then [] else [sent[0].status])
    requires sent != [] ==> sent[0].requestId == id
    ensures TracesOk(Advance(book, id, next), responses + sent)
  {
    var book' := Advance(book, id, next);
    forall other
      ensures TraceOk(book', Trace(responses + sent, other), other)
    {
      assert TraceOk(book, Trace(responses, other), other);
      if other != id {
        OtherTraceStays(book, id, next, other);
      }
      if sent == [] {
        assert responses + sent == responses;
      } else {
        assert sent == [sent[0]];
        ResponseMovesTrace(book, book', responses, sent[0], other);
      }
    }
  }

  lemma KnownTraceIsReceived(book: Book, id: string)
    requires StagesOk(book) && id in book.calls && id !in book.repeated
    ensures TraceAt(book.stage, id) != [] && TraceAt(book.stage, id)[0] == RequestStatus.Received
  {
    assert StageOk(id, book.calls[id], book.stage[id]);
  }

  lemma AnnounceMovesTrace(book: Book, responses: seq<Response>, call: Request, r: Response, id: string)
    requires StagesOk(book) && TraceOk(book, Trace(responses, id), id)
    requires r.requestId == IdOf(call) && r.status == RequestStatus.Received
    ensures TraceOk(Announcing(book, call), Trace(responses + [r], id), id)
  {
    TraceOfOneMore(responses, r, id);
    var trace := Trace(responses, id);
    if id in book.repeated {
      ReceivedTwiceLasts(trace, if r.requestId == id then [r.status] else []);
    } else if id == IdOf(call) && id in book.calls {
      KnownTraceIsReceived(book, id);
      assert (trace + [r.status])[|trace|] == RequestStatus.Received;
    }
  }

  // ---- Each action keeps the invariant ----

  lemma MoreResponsesKeepSaved(
      responses: seq<Response>, responses': seq<Response>, saved: nat, results: map<string, Response>)
    requires SavedOk(responses, saved, results) && responses <= responses'
    ensures SavedOk(responses', saved, results)
  {
    assert responses'[..saved] == responses[..saved];
  }

  lemma {:induction false} AnnounceKeeps(cfg: Config, sys: Sys, call: Request)
    requires SysOk(cfg, sys) && CanAct(cfg, sys, Announce(call))
    ensures SysOk(cfg, Act(cfg, sys, Announce(call)))
  {
    var r := Response(IdOf(call), "", TypeOf(call), RequestStatus.Received);
    AnnounceBook(sys.book, sys.announced, sys.queue, sys.node.history.waiting, call);
    forall id
      ensures TraceOk(Announcing(sys.book, call), Trace(sys.node.responses + [r], id), id)
    {
      assert TraceOk(sys.book, Trace(sys.node.responses, id), id);
      AnnounceMovesTrace(sys.book, sys.node.responses, call, r, id);
    }
    MoreResponsesKeepSaved(sys.node.responses, sys.node.responses + [r], sys.saved, sys.results);
  }

  lemma {:induction false} EnqueueKeeps(cfg: Config, sys: Sys, call: Request)
    requires SysOk(cfg, sys) && CanAct(cfg, sys, Enqueue(call))
    ensures SysOk(cfg, Act(cfg, sys, Enqueue(call)))
  {
    EnqueueBook(sys.book, sys.announced, sys.queue, sys.node.history.waiting, call);
    AdvanceTraces(sys.book, IdOf(call), Stage.Queued, sys.node.responses, []);
    assert sys.node.responses + [] == sys.node.responses;
  }

  lemma PersistKeeps(cfg: Config, sys: Sys)
    requires SysOk(cfg, sys) && CanAct(cfg, sys, Persist)
    ensures SysOk(cfg, Act(cfg, sys, Persist))
  {
    assert sys.node.responses[..sys.saved + 1][..sys.saved] == sys.node.responses[..sys.saved];
  }

  /** What the coordinator's turn on a request does to channel and runners. */
  ghost predicate TurnEffect(s: State, s': State, call: Request, next: Stage) {
    var response := Response(IdOf(call), "", TypeOf(call), Processing);
    match next
    case Ended(trace) =>
      && s'.history.waiting == s.history.waiting
      && (|| (trace == [RequestStatus.Received] && call.SignCall? && s'.responses == s.responses)
          || (trace == [RequestStatus.Received, Processing] && s'.responses == s.responses + [response]))
    case AtKeygen(room) =>
      && s'.responses == s.responses + [response] && call.KeygenCall?
      && exists i :: s'.history.waiting == AddKeygen(s.history.waiting, KeygenTask(call.keygen, room, i))
    case AtOffline(room) =>
      && s'.responses == s.responses + [response] && call.SignCall?
      && exists i, signers ::
           s'.history.waiting == AddOffline(s.history.waiting, EnrichedSignRequest(call.sign, room, i, signers))
    case _ => false
  }

  lemma KeygenTurn(cfg: Config, s: State, req: KeygenRequest, machineStarts: bool)
    ensures var s' := OnKeygenRequest(cfg, s, req, machineStarts);
            TurnEffect(s, s', KeygenCall(req), StageAfter(KeygenCall(req), s, s'))
  {
    var s' := OnKeygenRequest(cfg, s, req, machineStarts);
    var next := StageAfter(KeygenCall(req), s, s');
    if next.AtKeygen? {
      var i := OwnIndex(req.participants, cfg.Own()).value;
      assert s'.history.waiting == AddKeygen(s.history.waiting, KeygenTask(req, next.room, i));
    }
  }

  lemma SignTurn(cfg: Config, s: State, req: SignRequest, machineStarts: bool)
    ensures var s' := OnSignRequest(cfg, s, req, machineStarts);
            TurnEffect(s, s', SignCall(req), StageAfter(SignCall(req), s, s'))
  {
    var s' := OnSignRequest(cfg, s, req, machineStarts);
    var next := StageAfter(SignCall(req), s, s');
    if next.AtOffline? {
      var stored := ShareAt(cfg.codec, cfg.sk, s.tree, req.publicKey).value;
      var i := OwnIndex(req.participants, cfg.Own()).value;
      var signers := SelectSigners(stored.publicKeys, req.participants, stored.share.t).value;
      assert s'.history.waiting == AddOffline(s.history.waiting, EnrichedSignRequest(req, next.room, i, signers));
    }
  }

  /** What an advance does to the runners, and to the channel: the responses `sent`, none or one. */
  ghost predicate Advances(c: Codec, sys: Sys, s': State, call: Request, at: Stage, next: Stage, sent: seq<Response>) {
    && IsAt(sys.book, call, at) && at != Announced && CallOk(c, call)
    && OnlyMoves(sys.book, sys.node.history.waiting, s'.history.waiting, call, next)
    && s'.responses == sys.node.responses + sent && |sent| <= 1
    && (sent != [] ==> sent[0].requestId == IdOf(call) && sent[0].status != Error)
    && (IdOf(call) !in sys.book.repeated ==>
          && StageOk(IdOf(call), call, next)
          && TraceAt(Advance(sys.book, IdOf(call), next).stage, IdOf(call)) ==
               TraceAt(sys.book.stage, IdOf(call)) + (if sent == [] then [] else [sent[0].status]))
  }

  lemma AdvanceCalls(c: Codec, sys: Sys, s': State, queue': seq<Request>, call: Request, next: Stage)
    requires CallsOk(c, sys.checked, sys.announced, sys.queue, sys.node.history.waiting) && CallOk(c, call)
    requires OnlyMoves(sys.book, sys.node.history.waiting, s'.history.waiting, call, next)
    requires queue' == sys.queue || (sys.queue != [] && queue' == sys.queue[1..])
    ensures CallsOk(c, sys.checked, sys.announced, queue', s'.history.waiting)
  {
  }

  lemma AdvanceResponses(c: Codec, sys: Sys, s': State, call: Request, at: Stage, next: Stage, sent: seq<Response>)
    requires TracesOk(sys.book, sys.node.responses) && NoErrors(sys.node.responses)
    requires SavedOk(sys.node.responses, sys.saved, sys.results)
    requires Advances(c, sys, s', call, at, next, sent)
    ensures TracesOk(Advance(sys.book, IdOf(call), next), s'.responses) && NoErrors(s'.responses)
    ensures SavedOk(s'.responses, sys.saved, sys.results)
  {
    MoreResponsesKeepSaved(sys.node.responses, s'.responses, sys.saved, sys.results);
    AdvanceTraces(sys.book, IdOf(call), next, sys.node.responses, sent);
  }

  lemma {:induction false} AdvanceKeeps(
      cfg: Config, sys: Sys, s': State, queue': seq<Request>, call: Request, at: Stage, next: Stage,
      sent: seq<Response>)
    requires SysOk(cfg, sys) && NodeOk(cfg, AnyKeys(), s') && Advances(cfg.codec, sys, s', call, at, next, sent)
    requires if at == Stage.Queued then sys.queue != [] && sys.queue[0] == call && queue' == sys.queue[1..]
             else queue' == sys.queue
    ensures SysOk(cfg, sys.(node := s', queue := queue', book := Advance(sys.book, IdOf(call), next)))
  {
    var w, w' := sys.node.history.waiting, s'.history.waiting;
    AdvanceBook(sys.book, sys.announced, sys.queue, queue', w, w', call, at, next);
    AdvanceCalls(cfg.codec, sys, s', queue', call, next);
    AdvanceResponses(cfg.codec, sys, s', call, at, next, sent);
  }

  lemma TurnAdvances(c: Codec, sys: Sys, s': State, next: Stage)
    requires BookOk(sys.book, sys.announced, sys.queue, sys.node.history.waiting) && sys.queue != []
    requires CallOk(c, sys.queue[0]) && TurnEffect(sys.node, s', sys.queue[0], next)
    ensures var call := sys.queue[0];
            var r := Response(IdOf(call), "", TypeOf(call), Processing);
            Advances(c, sys, s', call, Stage.Queued, next, if s'.responses == sys.node.responses then [] else [r])
  {
    var call := sys.queue[0];
    var w, w' := sys.node.history.waiting, s'.history.waiting;
    assert IsAt(sys.book, call, Stage.Queued);
    forall at | CallAt(w', at).Some?
      ensures || (at == next && CallAt(w', at).value == call)
              || (CallAt(w', at) == CallAt(w, at) &&
                  (IdOf(CallAt(w, at).value) == IdOf(call) ==> IdOf(call) in sys.book.repeated))
    {
      if CallAt(w, at).Some? {
        assert IsAt(sys.book, CallAt(w, at).value, at);
      }
    }
  }

  lemma {:induction false} ProcessKeeps(cfg: Config, sys: Sys, machineStarts: bool)
    requires SysOk(cfg, sys) && CanAct(cfg, sys, Process(machineStarts))
    ensures SysOk(cfg, Act(cfg, sys, Process(machineStarts)))
  {
    var call, s := sys.queue[0], sys.node;
    var s' := Step(cfg, s, RequestEvent(call, machineStarts));
    var next := StageAfter(call, s, s');
    var r := Response(IdOf(call), "", TypeOf(call), Processing);
    StepKeepsNode(cfg, AnyKeys(), s, RequestEvent(call, machineStarts));
    match call {
      case KeygenCall(req) => KeygenTurn(cfg, s, req, machineStarts);
      case SignCall(req) => SignTurn(cfg, s, req, machineStarts);
    }
    TurnAdvances(cfg.codec, sys, s', next);
    var sent := if s'.responses == s.responses then [] else [r];
    AdvanceKeeps(cfg, sys, s', sys.queue[1..], call, Stage.Queued, next, sent);
  }

  /** The Error status never comes from the coordinator: the server parsed the same hash before. */
  lemma OfflineResultIsNoError(cfg: Config, sys: Sys, room: string)
    requires SysOk(cfg, sys) && room in sys.node.history.waiting.offline
    ensures cfg.codec.hashParses(sys.node.history.waiting.offline[room].inner.hash)
    ensures sys.node.history.waiting.offline[room].room == room
  {
    var task := sys.node.history.waiting.offline[room];
    assert CallAt(sys.node.history.waiting, AtOffline(room)) == Some(SignCall(task.inner));
    assert CallOk(cfg.codec, SignCall(task.inner));
    assert TaskAt(sys.node.history.waiting, Offline, room) == Some(TaskOfSign(task));
  }

  /** The channel gained one response, with this id and status. */
  ghost predicate OneMoreResponse(before: seq<Response>, after: seq<Response>, id: string, status: RequestStatus) {
    && |after| == |before| + 1 && after[..|before|] == before
    && after[|before|].requestId == id && after[|before|].status == status
  }

  /** What a runner's result does to channel and runners: its call moves on with one response. */
  ghost predicate ResultEffect(s: State, s': State, call: Request, at: Stage, next: Stage, status: RequestStatus) {
    && CallAt(s.history.waiting, at) == Some(call)
    && OneMoreResponse(s.responses, s'.responses, IdOf(call), status)
    && (forall x :: CallAt(s'.history.waiting, x).Some? ==>
          || (x == next && CallAt(s'.history.waiting, x).value == call)
          || (x != at && CallAt(s'.history.waiting, x) == CallAt(s.history.waiting, x)))
  }

  /** The stages that a runner's result can lead to. */
  predicate ResultLeads(call: Request, at: Stage, next: Stage, status: RequestStatus) {
    match next
    case AtSigner(_) => at.AtOffline? && status == Processing
    case Ended(trace) =>
      trace == Pattern(call) && status == Done && (if call.KeygenCall? then at.AtKeygen? else at.AtSigner?)
    case _ => false
  }

  lemma ResultExtendsTrace(book: Book, call: Request, at: Stage, next: Stage, status: RequestStatus)
    requires ResultLeads(call, at, next, status) && IdOf(call) in book.stage && book.stage[IdOf(call)] == at
    requires StageOk(IdOf(call), call, at)
    ensures TraceAt(Advance(book, IdOf(call), next).stage, IdOf(call)) == TraceAt(book.stage, IdOf(call)) + [status]
    ensures StageOk(IdOf(call), call, next)
  {
  }

  lemma ResultAdvances(c: Codec, sys: Sys, s': State, call: Request, at: Stage, next: Stage, status: RequestStatus)
    requires BookOk(sys.book, sys.announced, sys.queue, sys.node.history.waiting) && CallOk(c, call)
    requires ResultEffect(sys.node, s', call, at, next, status) && ResultLeads(call, at, next, status)
    ensures |s'.responses| == |sys.node.responses| + 1
    ensures Advances(c, sys, s', call, at, next, [s'.responses[|sys.node.responses|]])
  {
    var id := IdOf(call);
    var w, w' := sys.node.history.waiting, s'.history.waiting;
    assert IsAt(sys.book, call, at);
    if id !in sys.book.repeated {
      assert StageOk(id, call, at);
      ResultExtendsTrace(sys.book, call, at, next, status);
    }
    assert s'.responses == sys.node.responses + [s'.responses[|sys.node.responses|]];
    forall x | CallAt(w', x).Some?
      ensures || (x == next && CallAt(w', x).value == call)
              || (CallAt(w', x) == CallAt(w, x) && (IdOf(CallAt(w, x).value) == id ==> id in sys.book.repeated))
    {
      if CallAt(w, x).Some? {
        assert IsAt(sys.book, CallAt(w, x).value, x);
      }
    }
  }

  lemma ResultKeeps(cfg: Config, sys: Sys, s': State, call: Request, at: Stage, next: Stage, status: RequestStatus)
    requires SysOk(cfg, sys) && NodeOk(cfg, AnyKeys(), s')
    requires ResultEffect(sys.node, s', call, at, next, status) && ResultLeads(call, at, next, status)
    ensures SysOk(cfg, sys.(node := s', book := Advance(sys.book, IdOf(call), next)))
  {
    assert CallOk(cfg.codec, call);
    ResultAdvances(cfg.codec, sys, s', call, at, next, status);
    AdvanceKeeps(cfg, sys, s', sys.queue, call, at, next, [s'.responses[|sys.node.responses|]]);
  }

  lemma KeygenResult(cfg: Config, s: State, room: string, key: LocalKey, nonce: nat)
    requires NodeOk(cfg, AnyKeys(), s) && room in s.history.waiting.keygen
    ensures var call := KeygenCall(s.history.waiting.keygen[room].request);
            var s' := OnKeygenDone(cfg, s, s.history.waiting.keygen[room], key, nonce);
            ResultEffect(s, s', call, AtKeygen(room), Ended(KEYGEN_STATUSES), Done)
  {
    var task := s.history.waiting.keygen[room];
    var s' := OnKeygenDone(cfg, s, task, key, nonce);
    assert TaskAt(s.history.waiting, Keygen, room) == Some(TaskOfKeygen(task));
    assert s'.responses == s.responses + [Response(task.request.requestId, key.sumPublicKey, KeygenType, Done)];
    assert s'.history.waiting == DropKeygen(s.history.waiting, room);
  }

  lemma OfflineResult(cfg: Config, s: State, room: string)
    requires room in s.history.waiting.offline
    requires var task := s.history.waiting.offline[room]; task.room == room && cfg.codec.hashParses(task.inner.hash)
    ensures var task := s.history.waiting.offline[room];
            var s' := OnOfflineDone(cfg, s, task);
            ResultEffect(s, s', SignCall(task.inner), AtOffline(room), AtSigner(room), Processing)
  {
    var task := s.history.waiting.offline[room];
    var s' := OnOfflineDone(cfg, s, task);
    assert s'.responses == s.responses + [Response(task.inner.requestId, "", SignType, Processing)];
    assert s'.history.waiting == AddSigner(DropOffline(s.history.waiting, room), task);
  }

  lemma SignResult(cfg: Config, s: State, room: string, signature: string)
    requires NodeOk(cfg, AnyKeys(), s) && room in s.history.waiting.signing
    ensures var call := SignCall(s.history.waiting.signing[room].inner);
            var s' := OnSignDone(s, s.history.waiting.signing[room], signature);
            ResultEffect(s, s', call, AtSigner(room), Ended(SIGN_STATUSES), Done)
  {
    var task := s.history.waiting.signing[room];
    var s' := OnSignDone(s, task, signature);
    assert TaskAt(s.history.waiting, Signing, room) == Some(TaskOfSign(task));
    assert s'.responses == s.responses + [Response(task.inner.requestId, signature, SignType, Done)];
    assert s'.history.waiting == DropSigner(s.history.waiting, room);
  }

  lemma {:induction false} ResultEventKeeps(cfg: Config, sys: Sys, ev: Event)
    requires SysOk(cfg, sys) && CanAct(cfg, sys, NodeEvent(ev))
    requires ev.KeygenFinished? || ev.OfflineFinished? || ev.SignFinished?
    ensures SysOk(cfg, Act(cfg, sys, NodeEvent(ev)))
  {
    var s, s' := sys.node, Step(cfg, sys.node, ev);
    StepKeepsNode(cfg, AnyKeys(), s, ev);
    match ev
    case KeygenFinished(room, key, nonce) =>
      var call := KeygenCall(s.history.waiting.keygen[room].request);
      KeygenResult(cfg, s, room, key, nonce);
      ResultKeeps(cfg, sys, s', call, AtKeygen(room), Ended(KEYGEN_STATUSES), Done);
    case OfflineFinished(room) =>
      OfflineResultIsNoError(cfg, sys, room);
      OfflineResult(cfg, s, room);
      ResultKeeps(cfg, sys, s', SignCall(s.history.waiting.offline[room].inner), AtOffline(room), AtSigner(room),
          Processing);
    case SignFinished(room, signature) =>
      var call := SignCall(s.history.waiting.signing[room].inner);
      SignResult(cfg, s, room, signature);
      ResultKeeps(cfg, sys, s', call, AtSigner(room), Ended(SIGN_STATUSES), Done);
  }

  lemma {:induction false} OtherEventKeeps(cfg: Config, sys: Sys, ev: Event)
    requires SysOk(cfg, sys) && CanAct(cfg, sys, NodeEvent(ev)) && (IsMessageEvent(ev) || ev.Outgoing?)
    ensures SysOk(cfg, Act(cfg, sys, NodeEvent(ev)))
  {
    var s' := Step(cfg, sys.node, ev);
    StepKeepsNode(cfg, AnyKeys(), sys.node, ev);
    assert s'.responses == sys.node.responses && s'.history == sys.node.history by {
      if IsMessageEvent(ev) {
        MessageEventsTouchLedgerOnly(cfg, sys.node, ev);
      }
    }
  }

  lemma ActKeeps(cfg: Config, sys: Sys, action: Action)
    requires SysOk(cfg, sys) && CanAct(cfg, sys, action)
    ensures SysOk(cfg, Act(cfg, sys, action))
  {
    match action
    case Check(call) =>
    case Announce(call) => AnnounceKeeps(cfg, sys, call);
    case Enqueue(call) => EnqueueKeeps(cfg, sys, call);
    case Process(machineStarts) => ProcessKeeps(cfg, sys, machineStarts);
    case Persist => PersistKeeps(cfg, sys);
    case NodeEvent(ev) =>
      if IsMessageEvent(ev) || ev.Outgoing? {
        OtherEventKeeps(cfg, sys, ev);
      } else {
        ResultEventKeeps(cfg, sys, ev);
      }
  }

  lemma {:induction false} RunKeepsSys(cfg: Config, actions: seq<Action>)
    requires Interleaving(cfg, actions)
    ensures SysOk(cfg, SysAfter(cfg, actions))
  {
    if actions != [] {
      var n := |actions| - 1;
      RunKeepsSys(cfg, actions[..n]);
      ActKeeps(cfg, SysAfter(cfg, actions[..n]), actions[n]);
    }
  }

  // ---- Main results ----

  /** How often the server announced this id. */
  function Announcements(actions: seq<Action>, id: string): nat {
    if actions == [] then 0
    else
      var last := actions[|actions| - 1];
      Announcements(actions[..|actions| - 1], id) + (if last.Announce? && IdOf(last.call) == id then 1 else 0)
  }

  lemma ActCountsAnnouncements(cfg: Config, sys: Sys, action: Action, id: string)
    requires CanAct(cfg, sys, action)
    ensures var announces := action.Announce? && IdOf(action.call) == id;
            && (id in Act(cfg, sys, action).book.calls <==> id in sys.book.calls || announces)
            && (id in Act(cfg, sys, action).book.repeated <==>
                  id in sys.book.repeated || (announces && id in sys.book.calls))
  {
  }

  /** The history of calls says how often an id was announced: never, once, or more often. */
  lemma {:induction false} BookCountsAnnouncements(cfg: Config, actions: seq<Action>, id: string)
    requires Interleaving(cfg, actions)
    ensures id in SysAfter(cfg, actions).book.calls <==> Announcements(actions, id) >= 1
    ensures id in SysAfter(cfg, actions).book.repeated <==> Announcements(actions, id) >= 2
  {
    if actions != [] {
      var n := |actions| - 1;
      BookCountsAnnouncements(cfg, actions[..n], id);
      ActCountsAnnouncements(cfg, SysAfter(cfg, actions[..n]), actions[n], id);
    }
  }

  /** The statuses persisted so far for this id. */
  function Persisted(sys: Sys, id: string): seq<RequestStatus> {
    if sys.saved <= |sys.node.responses| then Trace(sys.node.responses[..sys.saved], id) else []
  }

  /** These statuses, in this order, belong to one request. */
  ghost predicate IsOneRequest(trace: seq<RequestStatus>) {
    trace <= KEYGEN_STATUSES || trace <= SIGN_STATUSES
  }

  lemma StagesFollowPatterns(book: Book, id: string)
    requires StagesOk(book) && id !in book.repeated
    ensures id in book.calls ==> TraceAt(book.stage, id) <= Pattern(book.calls[id])
    ensures id !in book.calls ==> TraceAt(book.stage, id) == []
  {
    if id in book.calls {
      assert StageOk(id, book.calls[id], book.stage[id]);
    }
  }

  lemma SentTraceOfBook(cfg: Config, sys: Sys, id: string)
    requires SysOk(cfg, sys)
    ensures IsOneRequest(Trace(sys.node.responses, id)) <==> id !in sys.book.repeated
  {
    assert TraceOk(sys.book, Trace(sys.node.responses, id), id);
    if id !in sys.book.repeated {
      StagesFollowPatterns(sys.book, id);
    }
  }

  /**
   * Status traces, exactly. In every interleaving of server, coordinator and saving task, the
   * statuses sent for an id are those of one request if and only if the id was announced at
   * most once. The server's duplicate test does not guarantee that.
   */
  lemma {:induction false} OneRequestIffAnnouncedOnce(cfg: Config, actions: seq<Action>, id: string)
    requires Interleaving(cfg, actions)
    ensures IsOneRequest(Trace(SysAfter(cfg, actions).node.responses, id)) <==> Announcements(actions, id) <= 1
  {
    RunKeepsSys(cfg, actions);
    BookCountsAnnouncements(cfg, actions, id);
    SentTraceOfBook(cfg, SysAfter(cfg, actions), id);
  }

  lemma {:induction false} NoErrorsInTrace(responses: seq<Response>, id: string)
    requires NoErrors(responses)
    ensures Error !in Trace(responses, id)
  {
    if responses != [] {
      NoErrorsInTrace(responses[..|responses| - 1], id);
    }
  }

  function Lookup<V>(m: map<string, V>, id: string): Option<V> {
    if id in m then Some(m[id]) else None
  }

  /** Polling answers with the last persisted status, and with nothing exactly when there is none. */
  ghost predicate ShowsLast(persisted: seq<RequestStatus>, polled: Option<Response>, id: string) {
    && (polled.Some? <==> persisted != [])
    && (polled.Some? ==> polled.value.requestId == id && polled.value.status == persisted[|persisted| - 1] != Error)
  }

  /** The first so many responses, saved in order: the results show the last status, never an Error. */
  lemma SavedShowsLast(saved: seq<Response>, id: string)
    requires NoErrors(saved)
    ensures ShowsLast(Trace(saved, id), Lookup(SaveAll(map[], saved), id), id)
  {
    ResultsAreLastStatuses(saved, id);
    NoErrorsInTrace(saved, id);
    var trace := Trace(saved, id);
    assert trace != [] ==> trace[|trace| - 1] in trace;
  }

  lemma PersistedIsSentPrefix(cfg: Config, sys: Sys, id: string)
    requires SysOk(cfg, sys)
    ensures Persisted(sys, id) <= Trace(sys.node.responses, id)
    ensures ShowsLast(Persisted(sys, id), Lookup(sys.results, id), id)
  {
    TraceOfPrefix(sys.node.responses, sys.saved, id);
    SavedShowsLast(sys.node.responses[..sys.saved], id);
  }

  /** What is persisted is a beginning of the request's pattern, and nothing without a request. */
  ghost predicate FollowsPattern(persisted: seq<RequestStatus>, call: Option<Request>) {
    persisted <= (if call.Some? then Pattern(call.value) else [])
  }

  lemma SysFollowsPattern(cfg: Config, sys: Sys, id: string)
    requires SysOk(cfg, sys)
    ensures ShowsLast(Persisted(sys, id), Lookup(sys.results, id), id)
    ensures id !in sys.book.repeated ==> FollowsPattern(Persisted(sys, id), Lookup(sys.book.calls, id))
  {
    PersistedIsSentPrefix(cfg, sys, id);
    assert TraceOk(sys.book, Trace(sys.node.responses, id), id);
    if id !in sys.book.repeated {
      StagesFollowPatterns(sys.book, id);
    }
  }

  /**
   * What clients see. In every interleaving, polling an id answers with its last persisted
   * status, which is never Error; and for an id announced at most once the persisted statuses
   * are a prefix of Received, Processing, Done for key generation, of Received, Processing,
   * Processing, Done for signing, and none for an id never announced.
   */
  lemma {:induction false} PersistedStatusesFollowPattern(cfg: Config, actions: seq<Action>, id: string)
    requires Interleaving(cfg, actions)
    ensures var sys := SysAfter(cfg, actions);
            && sys.saved <= |sys.node.responses|
            && ShowsLast(Persisted(sys, id), Lookup(sys.results, id), id)
            && (Announcements(actions, id) <= 1 ==> FollowsPattern(Persisted(sys, id), Lookup(sys.book.calls, id)))
  {
    RunKeepsSys(cfg, actions);
    BookCountsAnnouncements(cfg, actions, id);
    SysFollowsPattern(cfg, SysAfter(cfg, actions), id);
  }

  /**
   * The server's own duplicate test, which looks only at what has been persisted, refuses an
   * announced id from the moment its first status is saved, and not before.
   */
  lemma {:induction false} DuplicateTestFollowsSaving(cfg: Config, actions: seq<Action>, call: Request)
    requires Interleaving(cfg, actions) && (call.SignCall? ==> cfg.codec.hashParses(call.sign.hash))
    ensures var sys := SysAfter(cfg, actions);
            ServerAccepts(cfg.codec, sys, call) <==> Persisted(sys, IdOf(call)) == []
  {
    PersistedStatusesFollowPattern(cfg, actions, IdOf(call));
  }

  lemma PersistMovesOn(sys: Sys, sys': Sys, id: string)
    requires sys.saved < |sys.node.responses| && sys'.saved == sys.saved + 1 && sys'.node == sys.node
    ensures Persisted(sys, id) <= Persisted(sys', id)
  {
    var responses := sys.node.responses;
    assert responses[..sys.saved + 1] == responses[..sys.saved] + [responses[sys.saved]];
    TraceOfOneMore(responses[..sys.saved], responses[sys.saved], id);
  }

  lemma RanksRise(p: seq<RequestStatus>, p': seq<RequestStatus>, req: Request)
    requires p <= p' <= Pattern(req) && p != []
    ensures Rank(p[|p| - 1]) <= Rank(p'[|p'| - 1])
  {
  }

  lemma LastRises(p: seq<RequestStatus>, p': seq<RequestStatus>, polled: Option<Response>, polled': Option<Response>,
                  id: string, call: Option<Request>)
    requires ShowsLast(p, polled, id) && ShowsLast(p', polled', id) && polled.Some?
    requires p <= p' && FollowsPattern(p', call)
    ensures polled'.Some? && Rank(polled.value.status) <= Rank(polled'.value.status)
  {
    if call.Some? {
      RanksRise(p, p', call.value);
    }
  }

  lemma ActNeverGoesBack(cfg: Config, sys: Sys, action: Action, id: string)
    requires SysOk(cfg, sys) && CanAct(cfg, sys, action) && id in sys.results && id !in sys.book.repeated
    ensures var polled' := Lookup(Act(cfg, sys, action).results, id);
            polled'.Some? && Rank(sys.results[id].status) <= Rank(polled'.value.status)
  {
    if action.Persist? {
      var sys' := Act(cfg, sys, action);
      PersistKeeps(cfg, sys);
      SysFollowsPattern(cfg, sys, id);
      SysFollowsPattern(cfg, sys', id);
      PersistMovesOn(sys, sys', id);
      LastRises(Persisted(sys, id), Persisted(sys', id), Lookup(sys.results, id), Lookup(sys'.results, id), id,
                Lookup(sys'.book.calls, id));
    }
  }

  /** What a client polls for an id announced once never goes backwards and never disappears. */
  lemma {:induction false} ResultsNeverGoBack(cfg: Config, actions: seq<Action>, action: Action, id: string)
    requires Interleaving(cfg, actions) && CanAct(cfg, SysAfter(cfg, actions), action)
    requires id in SysAfter(cfg, actions).results && Announcements(actions, id) <= 1
    ensures var sys := SysAfter(cfg, actions);
            var sys' := Act(cfg, sys, action);
            && id in sys'.results
            && Rank(sys.results[id].status) <= Rank(sys'.results[id].status)
  {
    RunKeepsSys(cfg, actions);
    BookCountsAnnouncements(cfg, actions, id);
    ActNeverGoesBack(cfg, SysAfter(cfg, actions), action, id);
  }

  // ---- A run in which an id is accepted twice ----

  /** The interleaving `actions` ends in this state; as a value, so that the run below need not look inside it. */
  type Trail = (seq<Action>, Sys) -> bool

  ghost predicate CanFollow(cfg: Config, trail: Trail, actions: seq<Action>, sys: Sys, action: Action) {
    trail(actions, sys) && CanAct(cfg, sys, action)
  }

  ghost predicate Closed(cfg: Config, trail: Trail) {
    forall actions, sys, action {:trigger CanFollow(cfg, trail, actions, sys, action)} |
      CanFollow(cfg, trail, actions, sys, action) :: trail(actions + [action], Act(cfg, sys, action))
  }

  ghost predicate Ends(cfg: Config, actions: seq<Action>, sys: Sys) {
    Interleaving(cfg, actions) && SysAfter(cfg, actions) == sys
  }

  lemma OneMore(cfg: Config, actions: seq<Action>, sys: Sys, action: Action)
    requires Ends(cfg, actions, sys) && CanAct(cfg, sys, action)
    ensures Ends(cfg, actions + [action], Act(cfg, sys, action))
  {
    var more := actions + [action];
    assert more[..|more| - 1] == actions;
  }

  lemma RunsAreClosed(cfg: Config) returns (trail: Trail)
    ensures Closed(cfg, trail) && trail([], IDLE)
    ensures forall actions, sys | trail(actions, sys) :: Ends(cfg, actions, sys)
  {
    trail := (actions, sys) => Ends(cfg, actions, sys);
    assert Interleaving(cfg, []) && SysAfter(cfg, []) == IDLE;
    forall actions, sys, action | CanFollow(cfg, trail, actions, sys, action)
      ensures trail(actions + [action], Act(cfg, sys, action))
    {
      OneMore(cfg, actions, sys, action);
    }
  }

  lemma Follow(cfg: Config, trail: Trail, actions: seq<Action>, sys: Sys, action: Action)
    returns (more: seq<Action>, sys': Sys)
    requires Closed(cfg, trail) && trail(actions, sys) && CanAct(cfg, sys, action)
    ensures trail(more, sys') && sys' == Act(cfg, sys, action) && more == actions + [action]
  {
    assert CanFollow(cfg, trail, actions, sys, action);
    more, sys' := actions + [action], Act(cfg, sys, action);
  }

  /** A key generation for this node alone. */
  function SoloCall(cfg: Config, id: string): Request {
    KeygenCall(KeygenRequest(id, [cfg.Own()], 0))
  }

  function StatusOf(id: string, status: RequestStatus): Response {
    Response(id, "", KeygenType, status)
  }

  /** Two calls with one id have passed the duplicate test. */
  function BothChecked(cfg: Config, id: string): Sys {
    IDLE.(checked := multiset{SoloCall(cfg, id), SoloCall(cfg, id)})
  }

  lemma GetBothChecked(cfg: Config, trail: Trail, id: string) returns (actions: seq<Action>)
    requires Closed(cfg, trail) && trail([], IDLE)
    ensures trail(actions, BothChecked(cfg, id))
  {
    var sys: Sys;
    actions, sys := Follow(cfg, trail, [], IDLE, Check(SoloCall(cfg, id)));
    actions, sys := Follow(cfg, trail, actions, sys, Check(SoloCall(cfg, id)));
    assert sys == BothChecked(cfg, id);
  }

  /** One of them has been announced. */
  function OneAnnounced(cfg: Config, id: string): Sys {
    var call := SoloCall(cfg, id);
    IDLE.(node := Respond(INITIAL, id, "", KeygenType, RequestStatus.Received),
          checked := multiset{call}, announced := multiset{call},
          book := Book(map[id := call], {}, map[id := Announced]))
  }

  lemma GetOneAnnounced(cfg: Config, trail: Trail, id: string, start: seq<Action>) returns (actions: seq<Action>)
    requires Closed(cfg, trail) && trail(start, BothChecked(cfg, id))
    ensures trail(actions, OneAnnounced(cfg, id))
  {
    var call, sys := SoloCall(cfg, id), IDLE;
    actions, sys := Follow(cfg, trail, start, BothChecked(cfg, id), Announce(call));
    assert sys.checked == multiset{call} && sys.announced == multiset{call};
    assert sys == OneAnnounced(cfg, id);
  }

  /** It has been queued. */
  function OneQueued(cfg: Config, id: string): Sys {
    var call := SoloCall(cfg, id);
    OneAnnounced(cfg, id).(announced := multiset{}, queue := [call],
      book := Book(map[id := call], {}, map[id := Stage.Queued]))
  }

  lemma GetOneQueued(cfg: Config, trail: Trail, id: string, start: seq<Action>) returns (actions: seq<Action>)
    requires Closed(cfg, trail) && trail(start, OneAnnounced(cfg, id))
    ensures trail(actions, OneQueued(cfg, id))
  {
    var call, sys := SoloCall(cfg, id), IDLE;
    actions, sys := Follow(cfg, trail, start, OneAnnounced(cfg, id), Enqueue(call));
    assert sys.announced == multiset{} && sys.queue == [call];
    assert sys.book.stage == map[id := Stage.Queued];
    assert sys == OneQueued(cfg, id);
  }

  /** The coordinator has had its turn; the protocol machine did not start. */
  function Turned(cfg: Config, id: string): Sys {
    var s := Respond(Use(OneQueued(cfg, id).node, id), id, "", KeygenType, Processing);
    OneQueued(cfg, id).(node := s, queue := [],
      book := Advance(OneQueued(cfg, id).book, id, Ended([RequestStatus.Received, Processing])))
  }

  lemma GetTurned(cfg: Config, trail: Trail, id: string, start: seq<Action>) returns (actions: seq<Action>)
    requires Closed(cfg, trail) && trail(start, OneQueued(cfg, id))
    ensures trail(actions, Turned(cfg, id))
  {
    var sys: Sys;
    actions, sys := Follow(cfg, trail, start, OneQueued(cfg, id), Process(false));
    assert sys.queue == [];
    assert sys == Turned(cfg, id);
  }

  /** The client polls Processing. */
  function Polled(cfg: Config, id: string): Sys {
    Turned(cfg, id).(saved := 2, results := map[id := StatusOf(id, Processing)])
  }

  lemma GetPolled(cfg: Config, trail: Trail, id: string, start: seq<Action>) returns (actions: seq<Action>)
    requires Closed(cfg, trail) && trail(start, Turned(cfg, id))
    ensures trail(actions, Polled(cfg, id))
  {
    var sys := Turned(cfg, id);
    assert sys.node.responses == [StatusOf(id, RequestStatus.Received), StatusOf(id, Processing)];
    actions, sys := Follow(cfg, trail, start, sys, Persist);
    assert sys.results == map[id := StatusOf(id, RequestStatus.Received)];
    actions, sys := Follow(cfg, trail, actions, sys, Persist);
    assert sys.results == map[id := StatusOf(id, Processing)];
    assert sys == Polled(cfg, id);
  }

  /** The second call is announced, but not persisted. */
  function Again(cfg: Config, id: string): Sys {
    var sys := Polled(cfg, id);
    sys.(node := Respond(sys.node, id, "", KeygenType, RequestStatus.Received),
         checked := multiset{}, announced := multiset{SoloCall(cfg, id)},
         book := Announcing(sys.book, SoloCall(cfg, id)))
  }

  lemma GetAgain(cfg: Config, trail: Trail, id: string, start: seq<Action>) returns (actions: seq<Action>)
    requires Closed(cfg, trail) && trail(start, Polled(cfg, id))
    ensures trail(actions, Again(cfg, id))
  {
    var sys: Sys;
    actions, sys := Follow(cfg, trail, start, Polled(cfg, id), Announce(SoloCall(cfg, id)));
    assert sys.checked == multiset{} && sys.announced == multiset{SoloCall(cfg, id)};
    assert sys == Again(cfg, id);
  }

  lemma AgainGoesBack(cfg: Config, id: string)
    ensures CanAct(cfg, Again(cfg, id), Persist)
    ensures Act(cfg, Again(cfg, id), Persist).results == map[id := StatusOf(id, RequestStatus.Received)]
  {
    var responses := Again(cfg, id).node.responses;
    assert responses ==
           [StatusOf(id, RequestStatus.Received), StatusOf(id, Processing), StatusOf(id, RequestStatus.Received)];
  }

  /**
   * The case left open: two calls with one id are accepted before anything is persisted. The
   * client that has polled Processing then polls Received again.
   */
  lemma AcceptedTwiceGoesBack(cfg: Config, id: string) returns (actions: seq<Action>)
    ensures Interleaving(cfg, actions) && CanAct(cfg, SysAfter(cfg, actions), Persist)
    ensures SysAfter(cfg, actions).results == map[id := StatusOf(id, Processing)]
    ensures Act(cfg, SysAfter(cfg, actions), Persist).results == map[id := StatusOf(id, RequestStatus.Received)]
  {
    var trail := RunsAreClosed(cfg);
    actions := GetBothChecked(cfg, trail, id);
    actions := GetOneAnnounced(cfg, trail, id, actions);
    actions := GetOneQueued(cfg, trail, id, actions);
    actions := GetTurned(cfg, trail, id, actions);
    actions := GetPolled(cfg, trail, id, actions);
    actions := GetAgain(cfg, trail, id, actions);
    assert Ends(cfg, actions, Again(cfg, id));
    AgainGoesBack(cfg, id);
  }
}

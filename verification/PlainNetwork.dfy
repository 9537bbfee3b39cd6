/**
 * The network when request ids hold no separator, reused or not: every hand-over goes to the
 * index it is meant for even before the runner's own filter, and nothing addressed is missed.
 */
module PlainNetwork {
  import opened Basics
  import opened Codecs
  import opened Rooms
  import opened Groups
  import opened Storage
  import opened Envelopes
  import opened CoordinatorSpec
  import opened MessageLife
  import opened Routing
  import opened CoordinatorTheorems
  import opened Conservation
  import opened Network

  ghost predicate PlainMoves(moves: seq<Move>) {
    forall i | 0 <= i < |moves| && moves[i].Local? :: PlainIds([moves[i].ev])
  }

  // ---- What every such run keeps ----

  /** The sender stands, under the index it signs with, in the group on file for the room. */
  ghost predicate PlainWireOk(su: Setup, wire: WireMessage, e: Emission) {
    IsFiledFor(su, e.filed, e.room) && OwnIndex(e.filed, wire.senderPublicKey) == Some(e.message.sender)
  }

  /** A hand-over went to a runner whose index is this node's index in the group on file for the room. */
  ghost predicate HandOverOk(cfg: Config, tree: Tree, d: Delivery) {
    && ExtractGroupId(d.message.room).Ok?
    && GroupAt(tree, ExtractGroupId(d.message.room).value).Some?
    && OwnIndex(FiledFor(tree, d.message.room), cfg.Own()) == Some(d.index)
  }

  ghost predicate PlainMember(cfg: Config, s: State) {
    UsedArePlain(s) && forall d | d in s.ledger.deliveries :: HandOverOk(cfg, s.tree, d)
  }

  ghost predicate PlainOk(su: Setup, net: Net) {
    && |net.nodes| == |su.secrets| && |net.wire| == |net.emitted|
    && (forall p | 0 <= p < |net.nodes| :: PlainMember(su.Node(p), net.nodes[p]))
    && (forall n | 0 <= n < |net.wire| :: PlainWireOk(su, net.wire[n], net.emitted[n]))
  }

  // ---- One node's step ----

  /** The delivery is one of the runners' in this room. */
  ghost predicate FromRunner(rs: Runners, d: Delivery) {
    TaskAt(rs, d.kind, d.message.room).Some? && TaskAt(rs, d.kind, d.message.room).value.i == d.index
  }

  ghost predicate NewFromRunners(rs: Runners, l: Ledger, l': Ledger) {
    forall d | d in l'.deliveries :: d in l.deliveries || FromRunner(rs, d)
  }

  lemma RouteGivesToRunners(c: Codec, rs: Runners, l: Ledger, origin: nat, msg: WireMessage, attempts: U16, waited: nat)
    ensures NewFromRunners(rs, l, Route(c, rs, l, origin, msg, attempts, waited))
  {
    var taken := HandOvers(c, rs, origin, msg);
    assert forall d | d in taken :: FromRunner(rs, d);
    assert NewFromRunners(rs, l, Settle(l, taken, origin, msg, attempts, waited));
  }

  lemma AdmitGivesToRunners(
      c: Codec, rs: Runners, l: Ledger, origin: nat, msg: WireMessage, verdict: Verdict, plain: Option<WireMessage>)
    ensures var l' := Admit(c, rs, l, origin, msg, verdict, plain); l'.Some? ==> NewFromRunners(rs, l, l'.value)
  {
    if plain.Some? {
      RouteGivesToRunners(c, rs, l.(cleared := l.cleared + [origin]), origin, plain.value, 0, 0);
    }
  }

  lemma RecheckGivesToRunners(
      c: Codec, rs: Runners, l: Ledger, r: Scheduled, verdict: Verdict, plain: Option<WireMessage>)
    ensures var l' := Recheck(c, rs, l, r, verdict, plain); l'.Some? ==> NewFromRunners(rs, l, l'.value)
  {
    if plain.Some? {
      RouteGivesToRunners(c, rs, l.(cleared := l.cleared + [r.origin]), r.origin, plain.value, r.attempts, r.waited);
    }
  }

  lemma {:induction false} StepGivesToRunners(cfg: Config, s: State, ev: Event)
    requires Enabled(s, ev)
    ensures NewFromRunners(s.runners, s.ledger, Step(cfg, s, ev).ledger)
  {
    var c, rs, l := cfg.codec, s.runners, s.ledger;
    match ev
    case Incoming(msg) =>
      AdmitGivesToRunners(c, rs, l.(arrived := l.arrived + [msg]), |l.arrived|, msg, Check(cfg, s.tree, msg),
          MaybeDecrypt(c, cfg.sk, msg));
    case TimerFires(r) =>
      var l1 := l.(pending := l.pending - multiset{r});
      RouteGivesToRunners(c, rs, l1, r.origin, r.message, r.attempts, r.waited);
      RecheckGivesToRunners(c, rs, l1, r, Check(cfg, s.tree, r.message), MaybeDecrypt(c, cfg.sk, r.message));
    case OutOfOrder(_) =>
    case _ => OtherEventsGrowTree(cfg, s, ev);
  }

  lemma RunnerTakesByGroupIndex(cfg: Config, universe: set<string>, s: State, d: Delivery)
    requires DistinctPrefixes(universe) && NodeOk(cfg, ListsOver(universe), s) && UsedArePlain(s)
    requires FromRunner(s.runners, d)
    ensures HandOverOk(cfg, s.tree, d)
  {
    var task := TaskAt(s.runners, d.kind, d.message.room).value;
    assert TaskOk(cfg.Own(), ListsOver(universe), s.tree, s.history.used, d.message.room, task);
    GroupOfRunner(cfg, universe, s, d.kind, d.message.room);
  }

  lemma HandOverLasts(cfg: Config, tree: Tree, tree': Tree, d: Delivery)
    requires Grows(tree, tree') && HandOverOk(cfg, tree, d)
    ensures HandOverOk(cfg, tree', d)
  {
    var groupId := ExtractGroupId(d.message.room).value;
    assert groupId in tree && GroupAt(tree', groupId) == GroupAt(tree, groupId);
  }

  lemma {:induction false} StepKeepsPlain(cfg: Config, universe: set<string>, s: State, ev: Event)
    requires DistinctPrefixes(universe) && NodeOk(cfg, ListsOver(universe), s) && PlainMember(cfg, s)
    requires Enabled(s, ev) && PlainIds([ev])
    ensures PlainMember(cfg, Step(cfg, s, ev))
  {
    var s' := Step(cfg, s, ev);
    StepUsesOwnId(cfg, s, ev);
    assert Grows(s.tree, s'.tree) by {
      if IsMessageEvent(ev) {
        MessageEventsTouchLedgerOnly(cfg, s, ev);
      } else {
        OtherEventsGrowTree(cfg, s, ev);
      }
    }
    StepGivesToRunners(cfg, s, ev);
    forall d | d in s'.ledger.deliveries
      ensures HandOverOk(cfg, s'.tree, d)
    {
      if d !in s.ledger.deliveries {
        RunnerTakesByGroupIndex(cfg, universe, s, d);
      }
      HandOverLasts(cfg, s.tree, s'.tree, d);
    }
  }

  /** One node moves on; the others and the channel stay. */
  lemma NodeMovePlain(su: Setup, net: Net, net': Net, p: nat, ev: Event)
    requires su.Valid() && NetOk(su, net) && PlainOk(su, net) && p < |su.secrets|
    requires Enabled(net.nodes[p], ev) && PlainIds([ev])
    requires net'.wire == net.wire && net'.emitted == net.emitted
    requires net'.nodes == net.nodes[p := Step(su.Node(p), net.nodes[p], ev)]
    ensures PlainOk(su, net')
  {
    assert MemberOk(su.Node(p), su.Lists(), net.nodes[p]);
    StepKeepsPlain(su.Node(p), su.universe, net.nodes[p], ev);
  }

  /** A live runner's room leads to its own group, so its emission is filed under that group. */
  lemma {:induction false} EmittedIsPlain(su: Setup, s: State, p: nat, kind: Kind, room: string, message: Generic)
    requires su.Valid() && p < |su.secrets| && NodeOk(su.Node(p), su.Lists(), s) && UsedArePlain(s)
    requires TaskAt(s.runners, kind, room).Some? && message.sender == TaskAt(s.runners, kind, room).value.i
    ensures IsFiledFor(su, FiledFor(s.tree, room), room)
    ensures OwnIndex(FiledFor(s.tree, room), su.Node(p).Own()) == Some(message.sender)
  {
    var task := TaskAt(s.runners, kind, room).value;
    assert TaskOk(su.Node(p).Own(), su.Lists(), s.tree, s.history.used, room, task);
    GroupOfRunner(su.Node(p), su.universe, s, kind, room);
  }

  /** The channel gains broadcasts under this index; the nodes stay. */
  lemma BroadcastPlain(su: Setup, net: Net, net': Net, p: nat, sent: seq<CoreMessage>, e: Emission)
    requires PlainOk(su, net) && p < |su.secrets|
    requires forall wire: WireMessage | wire.senderPublicKey == su.Node(p).Own() :: PlainWireOk(su, wire, e)
    requires net'.nodes == net.nodes && net'.wire == net.wire + Signed(su.codec, su.secrets[p], sent)
    requires net'.emitted == net.emitted + seq(|sent|, _ => e)
    ensures PlainOk(su, net')
  {
    forall n | 0 <= n < |net'.wire|
      ensures PlainWireOk(su, net'.wire[n], net'.emitted[n])
    {
      if n < |net.wire| {
        assert PlainWireOk(su, net.wire[n], net.emitted[n]);
      }
    }
  }

  lemma {:induction false} EmitKeepsPlain(
      su: Setup, net: Net, p: nat, kind: Kind, room: string, message: Generic, nonce: nat)
    requires su.Valid() && NetOk(su, net) && PlainOk(su, net) && CanMove(su, net, Emit(p, kind, room, message, nonce))
    ensures PlainOk(su, Moved(su, net, Emit(p, kind, room, message, nonce)))
  {
    var s, core := net.nodes[p], CoreMessage(room, su.codec.showGeneric(message));
    assert MemberOk(su.Node(p), su.Lists(), s) && PlainMember(su.Node(p), s);
    var s' := Step(su.Node(p), s, Outgoing(core, nonce));
    var net1 := net.(nodes := net.nodes[p := s']);
    NodeMovePlain(su, net, net1, p, Outgoing(core, nonce));
    EmittedIsPlain(su, s, p, kind, room, message);
    BroadcastPlain(su, net1, Emitted(su, net, p, room, message, nonce), p, Sent(s, s'),
                   Emission(p, room, FiledFor(s.tree, room), message));
  }

  lemma {:induction false} ReceivePlain(su: Setup, net: Net, p: nat, n: nat)
    requires su.Valid() && NetOk(su, net) && PlainOk(su, net) && CanMove(su, net, Receive(p, n))
    ensures PlainOk(su, Moved(su, net, Receive(p, n)))
  {
    if Accepted(su.codec, su.Node(p).Own(), net.wire[n]).Some? {
      NodeMovePlain(su, net, Moved(su, net, Receive(p, n)), p, Incoming(net.wire[n]));
    }
  }

  lemma {:induction false} MovePlain(su: Setup, net: Net, move: Move)
    requires su.Valid() && NetOk(su, net) && PlainOk(su, net) && CanMove(su, net, move)
    requires move.Local? ==> PlainIds([move.ev])
    ensures PlainOk(su, Moved(su, net, move))
  {
    match move
    case Local(p, ev) => NodeMovePlain(su, net, Moved(su, net, move), p, ev);
    case Emit(p, kind, room, message, nonce) => EmitKeepsPlain(su, net, p, kind, room, message, nonce);
    case Receive(p, n) => ReceivePlain(su, net, p, n);
  }

  lemma {:induction false} RunKeepsPlain(su: Setup, moves: seq<Move>)
    requires su.Valid() && Run(su, moves) && PlainMoves(moves)
    ensures PlainOk(su, Reached(su, moves))
  {
    if moves != [] {
      var k := |moves| - 1;
      RunKeepsPlain(su, moves[..k]);
      RunKeepsNet(su, moves[..k]);
      MovePlain(su, Reached(su, moves[..k]), moves[k]);
    }
  }

  // ---- To the right index ----

  /** The hand-over carries this emission, for this very runner, from another index. */
  ghost predicate Carries(su: Setup, q: nat, d: Delivery, e: Emission) {
    && e.party != q
    && e.room == d.message.room
    && su.codec.parseGeneric(d.message.payload) == Some(e.message)
    && (e.message.receiver.None? || e.message.receiver == Some(d.index))
    && e.message.sender != d.index
  }

  lemma {:induction false} HandOverCarries(su: Setup, q: nat, s: State, d: Delivery, wire: WireMessage, e: Emission)
    requires su.Valid() && q < |su.secrets| && WireOk(su, wire, e) && PlainWireOk(su, wire, e)
    requires NodeOk(su.Node(q), su.Lists(), s) && HandOverOk(su.Node(q), s.tree, d)
    requires Clears(su.Node(q), s.tree, wire, d.message) && wire.senderPublicKey != su.Node(q).Own()
    ensures Carries(su, q, d, e)
  {
    var cfg := su.Node(q);
    HandOverBrings(su, q, s, d, wire, e);
    FiledIsFor(su, cfg, s, e.room);
    FiledLikeTheSenders(su, FiledFor(s.tree, e.room), e.filed, e.room);
    OwnIndexNamesTheKey(e.filed, cfg.Own());
    OwnIndexNamesTheKey(e.filed, wire.senderPublicKey);
  }

  /** Everything handed to a runner of this party carries some emission. */
  ghost predicate HandOversCarry(su: Setup, net: Net, q: nat)
    requires q < |net.nodes|
  {
    forall d | d in net.nodes[q].ledger.deliveries :: exists e :: e in net.emitted && Carries(su, q, d, e)
  }

  lemma {:induction false} MemberHandOversCarry(su: Setup, net: Net, q: nat)
    requires su.Valid() && NetOk(su, net) && PlainOk(su, net) && q < |su.secrets|
    ensures HandOversCarry(su, net, q)
  {
    var s := net.nodes[q];
    forall d | d in s.ledger.deliveries
      ensures exists e :: e in net.emitted && Carries(su, q, d, e)
    {
      var n := OriginOfHandOver(su, net, q, d);
      assert MemberOk(su.Node(q), su.Lists(), s) && PlainMember(su.Node(q), s);
      assert WireOk(su, net.wire[n], net.emitted[n]) && PlainWireOk(su, net.wire[n], net.emitted[n]);
      HandOverCarries(su, q, s, d, net.wire[n], net.emitted[n]);
      assert net.emitted[n] in net.emitted;
    }
  }

  /**
   * With separator-free ids, reused or not, every hand-over is already for the runner that gets
   * it: a broadcast or addressed to its index, and from another index. Its filter has nothing to do.
   */
  lemma {:induction false} HandedOverToTheRightIndex(su: Setup, moves: seq<Move>)
    requires su.Valid() && Run(su, moves) && PlainMoves(moves)
    ensures forall q | 0 <= q < |su.secrets| :: HandOversCarry(su, Reached(su, moves), q)
  {
    RunKeepsNet(su, moves);
    RunKeepsPlain(su, moves);
    forall q | 0 <= q < |su.secrets|
      ensures HandOversCarry(su, Reached(su, moves), q)
    {
      MemberHandOversCarry(su, Reached(su, moves), q);
    }
  }

  // ---- Nothing is missed ----

  /** The n-th broadcast is for this node's runner of this kind, and of its message type. */
  ghost predicate IsFor(su: Setup, q: nat, s: State, e: Emission, kind: Kind) {
    && q < |su.secrets| && e.party < |su.secrets|
    && su.codec.publicKey(su.secrets[e.party]) != su.Node(q).Own()
    && TaskAt(s.runners, kind, e.room).Some?
    && (e.message.receiver.None? || e.message.receiver == Some(TaskAt(s.runners, kind, e.room).value.i))
    && (forall payload | su.codec.parseGeneric(payload) == Some(e.message) :: su.codec.decodes(kind, payload))
  }

  /**
   * Of the ledger only hand-overs changed: all new ones carry the emission, one of them goes to
   * the runner of this kind, and it is the only one exactly if the message has one taker.
   */
  ghost predicate HandedOver(su: Setup, q: nat, s: State, l': Ledger, kind: Kind, e: Emission, msg: WireMessage) {
    var l := s.ledger;
    && l.deliveries <= l'.deliveries
    && (forall k | |l.deliveries| <= k < |l'.deliveries| :: Carries(su, q, l'.deliveries[k], e))
    && (exists k :: |l.deliveries| <= k < |l'.deliveries| && l'.deliveries[k].kind == kind)
    && (|l'.deliveries| == |l.deliveries| + 1 <==> OneTaker(su.codec, s.runners, msg))
    && l'.pending == l.pending && l'.dropped == l.dropped && l'.failed == l.failed
  }

  lemma {:induction false} CheckPasses(su: Setup, s: State, q: nat, wire: WireMessage, e: Emission, kind: Kind)
    requires su.Valid() && IsFor(su, q, s, e, kind) && NodeOk(su.Node(q), su.Lists(), s) && UsedArePlain(s)
    requires WireOk(su, wire, e) && PlainWireOk(su, wire, e)
    ensures Contains(e.room, Prefix(su.Node(q).Own()))
    ensures Check(su.Node(q), s.tree, wire) == Pass
    ensures OpensTo(su.codec, su.secrets[q], wire, e.message)
  {
    var cfg := su.Node(q);
    var task := TaskAt(s.runners, kind, e.room).value;
    assert TaskOk(cfg.Own(), su.Lists(), s.tree, s.history.used, e.room, task);
    GroupOfRunner(cfg, su.universe, s, kind, e.room);
    FilterKeepsOwnGroups(task.requestId, task.keys, cfg.Own());
    FiledIsFor(su, cfg, s, e.room);
    FiledLikeTheSenders(su, FiledFor(s.tree, e.room), e.filed, e.room);
    OwnIndexNamesTheKey(e.filed, cfg.Own());
    assert IsAddressee(su.codec, e.filed, e.message, cfg.sk);
  }

  /** With the check passed, an arrival becomes the hand-overs that the runner maps offer, if they offer any. */
  lemma ArrivalRoutes(cfg: Config, s: State, wire: WireMessage, plain: WireMessage)
    requires s.alive && Contains(wire.room, Prefix(cfg.Own())) && Check(cfg, s.tree, wire) == Pass
    requires MaybeDecrypt(cfg.codec, cfg.sk, wire) == Some(plain)
    requires HandOvers(cfg.codec, s.runners, |s.ledger.arrived|, plain) != []
    ensures var l := s.ledger;
            Step(cfg, s, Incoming(wire)).ledger == l.(
              arrived := l.arrived + [wire], cleared := l.cleared + [|l.arrived|], routed := l.routed + 1,
              deliveries := l.deliveries + HandOvers(cfg.codec, s.runners, |l.arrived|, plain))
  {
  }

  lemma RunnerTakes(c: Codec, rs: Runners, kind: Kind, origin: nat, msg: WireMessage)
    requires Takes(c, rs, kind, msg)
    ensures exists d :: d in HandOvers(c, rs, origin, msg) && d.kind == kind
    ensures forall d | d in HandOvers(c, rs, origin, msg) :: FromRunner(rs, d) && d.message == msg
  {
    var d := Delivery(origin, kind, TaskAt(rs, kind, msg.room).value.i, msg);
    assert HandOver(c, rs, kind, origin, msg) == [d];
    assert d in HandOvers(c, rs, origin, msg);
  }

  lemma {:induction false} TakenCarry(
      su: Setup, s: State, q: nat, wire: WireMessage, plain: WireMessage, e: Emission, taken: seq<Delivery>)
    requires su.Valid() && q < |su.secrets| && WireOk(su, wire, e) && PlainWireOk(su, wire, e)
    requires NodeOk(su.Node(q), su.Lists(), s) && UsedArePlain(s)
    requires Clears(su.Node(q), s.tree, wire, plain) && wire.senderPublicKey != su.Node(q).Own()
    requires forall d | d in taken :: FromRunner(s.runners, d) && d.message == plain
    ensures forall d | d in taken :: Carries(su, q, d, e)
  {
    forall d | d in taken
      ensures Carries(su, q, d, e)
    {
      RunnerTakesByGroupIndex(su.Node(q), su.universe, s, d);
      HandOverCarries(su, q, s, d, wire, e);
    }
  }

  /** What the ledger gains by these hand-overs. */
  lemma TakenAreHandedOver(
      su: Setup, q: nat, s: State, l': Ledger, kind: Kind, e: Emission, plain: WireMessage, origin: nat)
    requires Takes(su.codec, s.runners, kind, plain)
    requires var taken := HandOvers(su.codec, s.runners, origin, plain);
             && l'.deliveries == s.ledger.deliveries + taken
             && (forall d | d in taken :: Carries(su, q, d, e))
    requires l'.pending == s.ledger.pending && l'.dropped == s.ledger.dropped && l'.failed == s.ledger.failed
    ensures HandedOver(su, q, s, l', kind, e, plain)
  {
    var taken, n := HandOvers(su.codec, s.runners, origin, plain), |s.ledger.deliveries|;
    RunnerTakes(su.codec, s.runners, kind, origin, plain);
    OneTakerIff(su.codec, s.runners, origin, plain);
    var k :| 0 <= k < |taken| && taken[k].kind == kind;
    assert l'.deliveries[n + k] == taken[k];
    forall j | n <= j < |l'.deliveries|
      ensures Carries(su, q, l'.deliveries[j], e)
    {
      assert l'.deliveries[j] == taken[j - n];
    }
  }

  lemma {:induction false} HandedOverNow(su: Setup, s: State, q: nat, wire: WireMessage, e: Emission, kind: Kind)
    requires su.Valid() && IsFor(su, q, s, e, kind) && NodeOk(su.Node(q), su.Lists(), s) && UsedArePlain(s)
    requires WireOk(su, wire, e) && PlainWireOk(su, wire, e) && s.alive
    ensures Accepted(su.codec, su.Node(q).Own(), wire) == Some(wire)
    ensures MaybeDecrypt(su.codec, su.secrets[q], wire).Some?
    ensures var plain := MaybeDecrypt(su.codec, su.secrets[q], wire).value;
            HandedOver(su, q, s, Step(su.Node(q), s, Incoming(wire)).ledger, kind, e, plain)
  {
    var c, cfg := su.codec, su.Node(q);
    SignedIsAccepted(c, su.secrets[e.party], cfg.Own(), CoreMessage(e.room, wire.payload));
    CheckPasses(su, s, q, wire, e, kind);
    CiphersKeepTheHeader(c, s.tree, cfg.sk, CoreMessage("", ""), wire, 0);
    var plain := MaybeDecrypt(c, cfg.sk, wire).value;
    assert Takes(c, s.runners, kind, plain);
    var taken := HandOvers(c, s.runners, |s.ledger.arrived|, plain);
    RunnerTakes(c, s.runners, kind, |s.ledger.arrived|, plain);
    TakenCarry(su, s, q, wire, plain, e, taken);
    ArrivalRoutes(cfg, s, wire, plain);
    TakenAreHandedOver(su, q, s, Step(cfg, s, Incoming(wire)).ledger, kind, e, plain, |s.ledger.arrived|);
  }

  /** If this broadcast reached this party now and is for its runner of this kind, that runner would get it. */
  ghost predicate ArrivalDelivers(su: Setup, net: Net, q: nat, n: nat, kind: Kind)
    requires |net.nodes| == |net.sources| == |net.posted|
  {
    CanMove(su, net, Receive(q, n)) && n < |net.emitted| && IsFor(su, q, net.nodes[q], net.emitted[n], kind) ==>
      && MaybeDecrypt(su.codec, su.secrets[q], net.wire[n]).Some?
      && HandedOver(su, q, net.nodes[q], Moved(su, net, Receive(q, n)).nodes[q].ledger, kind, net.emitted[n],
                    MaybeDecrypt(su.codec, su.secrets[q], net.wire[n]).value)
  }

  lemma ReceivedIsStepped(su: Setup, net: Net, q: nat, n: nat)
    requires |net.nodes| == |net.sources| == |net.posted| && CanMove(su, net, Receive(q, n))
    requires Accepted(su.codec, su.Node(q).Own(), net.wire[n]) == Some(net.wire[n])
    ensures Moved(su, net, Receive(q, n)).nodes[q] == Step(su.Node(q), net.nodes[q], Incoming(net.wire[n]))
  {
  }

  lemma {:induction false} MemberTakesArrival(su: Setup, net: Net, q: nat, n: nat, kind: Kind)
    requires su.Valid() && NetOk(su, net) && PlainOk(su, net)
    ensures ArrivalDelivers(su, net, q, n, kind)
  {
    if CanMove(su, net, Receive(q, n)) && n < |net.emitted| && IsFor(su, q, net.nodes[q], net.emitted[n], kind) {
      assert MemberOk(su.Node(q), su.Lists(), net.nodes[q]) && PlainMember(su.Node(q), net.nodes[q]);
      assert WireOk(su, net.wire[n], net.emitted[n]) && PlainWireOk(su, net.wire[n], net.emitted[n]);
      HandedOverNow(su, net.nodes[q], q, net.wire[n], net.emitted[n], kind);
      ReceivedIsStepped(su, net, q, n);
    }
  }

  /**
   * The other direction: with separator-free ids, reused or not, a broadcast that arrives at a
   * party with a runner for its room, and that is addressed to all or to this runner, is handed
   * to that runner at once, and to it alone if and only if the message has only one taker.
   */
  lemma {:induction false} ArrivalIsHandedOver(su: Setup, moves: seq<Move>)
    requires su.Valid() && Run(su, moves) && PlainMoves(moves)
    ensures forall q, n, kind :: ArrivalDelivers(su, Reached(su, moves), q, n, kind)
  {
    RunKeepsNet(su, moves);
    RunKeepsPlain(su, moves);
    forall q, n, kind
      ensures ArrivalDelivers(su, Reached(su, moves), q, n, kind)
    {
      MemberTakesArrival(su, Reached(su, moves), q, n, kind);
    }
  }
}

/**
 * Several nodes around one broadcast channel: what reaches a protocol machine is exactly what
 * a runner of another node emitted for the same room and for this receiver, whatever ids
 * requests carry.
 */
module Network {
  import opened Basics
  import opened Codecs
  import opened Rooms
  import opened Groups
  import opened Storage
  import opened Envelopes
  import opened CoordinatorSpec
  import opened MessageLife
  import opened Routing
  import opened KeyShares
  import opened CoordinatorTheorems
  import opened Outbox
  import Players
  import Signers

  /** The parties' secrets, and the keys that requests may name. */
  datatype Setup = Setup(codec: Codec, secrets: seq<string>, universe: set<string>) {
    ghost predicate Valid() {
      Lawful(codec) && DistinctPrefixes(universe)
    }

    function Node(p: nat): Config
      requires p < |secrets|
    {
      Config(codec, secrets[p])
    }

    ghost function Lists(): KeyLaw {
      ListsOver(universe)
    }
  }

  /** Two parties that can be told apart, around the toy library: such a setup exists. */
  lemma TwoPartySetup() returns (su: Setup)
    ensures su.Valid() && |su.secrets| == 2
    ensures su.universe == {su.Node(0).Own(), su.Node(1).Own()} && su.Node(0).Own() != su.Node(1).Own()
  {
    LawfulIsConsistent();
    var a, b := seq(66, _ => 'a'), seq(66, _ => 'b');
    su := Setup(PlainCodec(), [a, b], {a, b});
    assert PlainKey(a) == a && PlainKey(b) == b;
    assert Prefix(a)[0] == 'a' && Prefix(b)[0] == 'b';
    assert SEPARATOR !in Prefix(a) && SEPARATOR !in Prefix(b);
  }

  /** A message as a runner queued it; `filed` is the key list the sender had on file for the room's group. */
  datatype Emission = Emission(party: nat, room: string, filed: seq<string>, message: Generic)

  /**
   * `wire[n]` is the broadcast form of `emitted[n]`; `posted[p][k]` says which broadcast is the
   * k-th entry of party p's outbox, and `sources[p][k]` which one was the k-th message it received.
   */
  datatype Net = Net(
    nodes: seq<State>,
    wire: seq<WireMessage>,
    emitted: seq<Emission>,
    posted: seq<seq<nat>>,
    sources: seq<seq<nat>>)

  datatype Move =
    | Local(p: nat, ev: Event)
    | Emit(p: nat, kind: Kind, room: string, message: Generic, nonce: nat)
    | Receive(p: nat, n: nat)

  function Start(su: Setup): Net {
    var none := seq(|su.secrets|, _ => []);
    Net(seq(|su.secrets|, _ => INITIAL), [], [], none, none)
  }

  /**
   * Requests bring known keys and any ids, new or not. Runners emit valid messages under their
   * own index; the channel may deliver late, again or never.
   */
  ghost predicate CanMove(su: Setup, net: Net, move: Move) {
    && move.p < |su.secrets| == |net.nodes|
    && match move
       case Local(p, ev) => !ev.Incoming? && !ev.Outgoing? && Enabled(net.nodes[p], ev) && KeysKnown(su.Lists(), ev)
       case Emit(p, kind, room, message, _) =>
         && net.nodes[p].alive
         && TaskAt(net.nodes[p].runners, kind, room).Some?
         && message.sender == TaskAt(net.nodes[p].runners, kind, room).value.i
         && su.codec.validJson(message.body)
       case Receive(p, n) => net.nodes[p].alive && n < |net.wire|
  }

  /** What a step put on the sink. */
  function Sent(s: State, s': State): seq<CoreMessage> {
    if |s.outbox| <= |s'.outbox| then s'.outbox[|s.outbox|..] else []
  }

  function Signed(c: Codec, sk: string, sent: seq<CoreMessage>): seq<WireMessage> {
    seq(|sent|, k requires 0 <= k < |sent| => SignEnvelope(c, sk, sent[k]))
  }

  /** The node takes the message to its encrypter; the channel gets, signed, what comes out on its sink. */
  function Emitted(su: Setup, net: Net, p: nat, room: string, message: Generic, nonce: nat): Net
    requires p < |su.secrets| == |net.nodes| == |net.posted| && net.nodes[p].alive
  {
    var s := net.nodes[p];
    var s' := Step(su.Node(p), s, Outgoing(CoreMessage(room, su.codec.showGeneric(message)), nonce));
    var sent := Sent(s, s');
    net.(nodes := net.nodes[p := s'],
         wire := net.wire + Signed(su.codec, su.secrets[p], sent),
         emitted := net.emitted + seq(|sent|, _ => Emission(p, room, FiledFor(s.tree, room), message)),
         posted := net.posted[p := net.posted[p] + seq(|sent|, k => |net.wire| + k)])
  }

  function Received(su: Setup, net: Net, p: nat, n: nat): Net
    requires p < |su.secrets| == |net.nodes| == |net.sources| && n < |net.wire| && net.nodes[p].alive
  {
    match Accepted(su.codec, su.Node(p).Own(), net.wire[n])
    case None => net
    case Some(msg) =>
      var s := Step(su.Node(p), net.nodes[p], Incoming(msg));
      net.(nodes := net.nodes[p := s],
           sources := net.sources[p := if s.alive then net.sources[p] + [n] else net.sources[p]])
  }

  ghost function Moved(su: Setup, net: Net, move: Move): Net
    requires CanMove(su, net, move) && |net.sources| == |net.nodes| == |net.posted|
  {
    match move
    case Local(p, ev) => net.(nodes := net.nodes[p := Step(su.Node(p), net.nodes[p], ev)])
    case Emit(p, _, room, message, nonce) => Emitted(su, net, p, room, message, nonce)
    case Receive(p, n) => Received(su, net, p, n)
  }

  ghost predicate Run(su: Setup, moves: seq<Move>)
    decreases |moves|, 0
  {
    moves == [] ||
    var k := |moves| - 1;
    && Run(su, moves[..k])
    && CanMove(su, Reached(su, moves[..k]), moves[k])
  }

  ghost function Reached(su: Setup, moves: seq<Move>): (net: Net)
    requires Run(su, moves)
    ensures |net.nodes| == |net.sources| == |net.posted| == |su.secrets|
    decreases |moves|, 1
  {
    if moves == [] then Start(su)
    else
      var k := |moves| - 1;
      Moved(su, Reached(su, moves[..k]), moves[k])
  }

  // ---- What every run keeps ----

  /** The holder of this secret can read the broadcast, and reads the emitted message. */
  ghost predicate OpensTo(c: Codec, sk: string, wire: WireMessage, message: Generic) {
    && MaybeDecrypt(c, sk, wire).Some?
    && c.parseGeneric(MaybeDecrypt(c, sk, wire).value.payload) == Some(message)
  }

  ghost predicate IsAddressee(c: Codec, keys: seq<string>, message: Generic, sk: string) {
    message.receiver.Some? ==> PublicKeyAt(keys, message.receiver.value) == Ok(c.publicKey(sk))
  }

  /** The key list belongs to the group that the room leads to. */
  ghost predicate IsFiledFor(su: Setup, keys: seq<string>, room: string) {
    su.Lists()(keys) && Sliceable(keys) && ExtractGroupId(room) == Ok(GroupId(keys))
  }

  /** The broadcast is signed by its party, and an addressed one is sealed for the key list on file for its room. */
  ghost predicate WireOk(su: Setup, wire: WireMessage, e: Emission) {
    var c := su.codec;
    && e.party < |su.secrets|
    && wire == SignEnvelope(c, su.secrets[e.party], CoreMessage(e.room, wire.payload))
    && c.parseGeneric(wire.payload).Some?
    && c.parseGeneric(wire.payload).value.receiver == e.message.receiver
    && (e.message.receiver.Some? ==> IsFiledFor(su, e.filed, e.room))
    && (forall sk | IsAddressee(c, e.filed, e.message, sk) :: OpensTo(c, sk, wire, e.message))
  }

  ghost predicate MemberOk(cfg: Config, known: KeyLaw, s: State) {
    NodeOk(cfg, known, s) && LedgerOk(ClearingOf(cfg, s.tree), s.ledger, 0) && AgreementOk(cfg, s)
  }

  /** Everything a node received is another node's broadcast. */
  ghost predicate SourcesOk(own: string, wire: seq<WireMessage>, sources: seq<nat>, arrived: seq<WireMessage>) {
    && |sources| == |arrived|
    && forall k | 0 <= k < |sources| ::
         sources[k] < |wire| && arrived[k] == wire[sources[k]] && wire[sources[k]].senderPublicKey != own
  }

  /** The k-th entry of the outbox is, signed, the broadcast that `posted` says. */
  ghost predicate PostedOk(c: Codec, sk: string, wire: seq<WireMessage>, posted: seq<nat>, outbox: seq<CoreMessage>) {
    && |posted| == |outbox|
    && forall k | 0 <= k < |posted| :: posted[k] < |wire| && wire[posted[k]] == SignEnvelope(c, sk, outbox[k])
  }

  ghost predicate NetOk(su: Setup, net: Net) {
    && |net.nodes| == |net.sources| == |net.posted| == |su.secrets|
    && |net.wire| == |net.emitted|
    && (forall n | 0 <= n < |net.wire| :: WireOk(su, net.wire[n], net.emitted[n]))
    && (forall p | 0 <= p < |net.nodes| :: MemberOk(su.Node(p), su.Lists(), net.nodes[p]))
    && (forall p | 0 <= p < |net.nodes| ::
          SourcesOk(su.Node(p).Own(), net.wire, net.sources[p], net.nodes[p].ledger.arrived))
    && (forall p | 0 <= p < |net.nodes| ::
          PostedOk(su.codec, su.secrets[p], net.wire, net.posted[p], net.nodes[p].outbox))
  }

  // ---- The network's moves ----

  lemma {:induction false} StepKeepsMember(cfg: Config, known: KeyLaw, s: State, ev: Event)
    requires Lawful(cfg.codec) && MemberOk(cfg, known, s)
    requires Enabled(s, ev) && KeysKnown(known, ev)
    ensures MemberOk(cfg, known, Step(cfg, s, ev))
  {
    StepKeepsNode(cfg, known, s, ev);
    StepKeepsLedger(cfg, s, ev);
    StepKeepsAgreement(cfg, known, s, ev);
  }

  lemma ArrivalsComeFromOutside(cfg: Config, s: State, r: Scheduled)
    requires Enabled(s, TimerFires(r))
    ensures Step(cfg, s, TimerFires(r)).ledger.arrived == s.ledger.arrived
  {
    var l' := Fire(cfg, s.tree, s.runners, s.ledger, r);
    assert l'.Some? ==> l'.value.arrived == s.ledger.arrived;
  }

  lemma LocalStepReceivesNothing(cfg: Config, s: State, ev: Event)
    requires Enabled(s, ev) && !ev.Incoming?
    ensures Step(cfg, s, ev).ledger.arrived == s.ledger.arrived
  {
    if ev.TimerFires? {
      ArrivalsComeFromOutside(cfg, s, ev.retry);
    } else if !IsMessageEvent(ev) {
      OtherEventsGrowTree(cfg, s, ev);
    }
  }

  /** One node moves on; the others and the channel stay. */
  lemma {:induction false} NodeMoveKeeps(su: Setup, net: Net, p: nat, s: State, sources: seq<nat>)
    requires NetOk(su, net) && p < |net.nodes|
    requires MemberOk(su.Node(p), su.Lists(), s)
    requires SourcesOk(su.Node(p).Own(), net.wire, sources, s.ledger.arrived)
    requires s.outbox == net.nodes[p].outbox
    ensures NetOk(su, net.(nodes := net.nodes[p := s], sources := net.sources[p := sources]))
  {
  }

  lemma {:induction false} LocalKeeps(su: Setup, net: Net, p: nat, ev: Event)
    requires su.Valid() && NetOk(su, net) && CanMove(su, net, Local(p, ev))
    ensures NetOk(su, Moved(su, net, Local(p, ev)))
  {
    var s' := Step(su.Node(p), net.nodes[p], ev);
    StepKeepsMember(su.Node(p), su.Lists(), net.nodes[p], ev);
    LocalStepReceivesNothing(su.Node(p), net.nodes[p], ev);
    OthersSendNothing(su.Node(p), net.nodes[p], ev);
    NodeMoveKeeps(su, net, p, s', net.sources[p]);
    assert net.sources[p := net.sources[p]] == net.sources;
  }

  /** A stored group has the id under which it is stored, and a known key list. */
  lemma FiledIsFor(su: Setup, cfg: Config, s: State, room: string)
    requires NodeOk(cfg, su.Lists(), s)
    requires ExtractGroupId(room).Ok? && GroupAt(s.tree, ExtractGroupId(room).value).Some?
    ensures IsFiledFor(su, FiledFor(s.tree, room), room)
    ensures GroupAt(s.tree, ExtractGroupId(room).value).value.ownPublicKey == cfg.Own()
  {
  }

  lemma SealedOpens(
      c: Codec, sk: string, key: string, wire: WireMessage, message: Generic, nonce: nat, ciphertext: string)
    requires Lawful(c) && c.validJson(message.body) && message.receiver.Some?
    requires c.seal(key, message.body, nonce) == Some(ciphertext) && key == c.publicKey(sk)
    requires wire.payload == c.showGeneric(Generic(message.sender, message.receiver, c.showSealed(ciphertext)))
    ensures OpensTo(c, sk, wire, message)
  {
    assert c.open(sk, ciphertext) == Some(message.body);
    var sealed := Generic(message.sender, message.receiver, c.showSealed(ciphertext));
    assert c.parseGeneric(c.showGeneric(sealed)) == Some(sealed);
    assert c.parseGeneric(c.showGeneric(message)) == Some(message);
  }

  /**
   * The sealed form of a valid message makes a broadcast that is readable by exactly the addressee in the
   * group on file.
   */
  lemma {:induction false} EmittedIsOk(
      su: Setup, s: State, p: nat, room: string, message: Generic, nonce: nat, out: CoreMessage)
    requires su.Valid() && p < |su.secrets| && NodeOk(su.Node(p), su.Lists(), s)
    requires su.codec.validJson(message.body)
    requires IsSealedForm(su.codec, s.tree, CoreMessage(room, su.codec.showGeneric(message)), nonce, out)
    ensures WireOk(su, SignEnvelope(su.codec, su.secrets[p], out), Emission(p, room, FiledFor(s.tree, room), message))
  {
    var c := su.codec;
    var wire := SignEnvelope(c, su.secrets[p], out);
    assert c.parseGeneric(c.showGeneric(message)) == Some(message);
    if message.receiver.Some? {
      var key, ciphertext :|
        && IsReceiversKey(s.tree, room, message.receiver.value, key)
        && c.seal(key, message.body, nonce) == Some(ciphertext)
        && out.message == c.showGeneric(Generic(message.sender, message.receiver, c.showSealed(ciphertext)));
      FiledIsFor(su, su.Node(p), s, room);
      var sealed := Generic(message.sender, message.receiver, c.showSealed(ciphertext));
      assert c.parseGeneric(c.showGeneric(sealed)) == Some(sealed);
      forall sk | IsAddressee(c, FiledFor(s.tree, room), message, sk)
        ensures OpensTo(c, sk, wire, message)
      {
        SealedOpens(c, sk, key, wire, message, nonce, ciphertext);
      }
    }
  }

  lemma SourcesLast(
      own: string, wire: seq<WireMessage>, wire': seq<WireMessage>, sources: seq<nat>, arrived: seq<WireMessage>)
    requires SourcesOk(own, wire, sources, arrived) && wire <= wire'
    ensures SourcesOk(own, wire', sources, arrived)
  {
  }

  lemma PostedLast(
      c: Codec, sk: string, wire: seq<WireMessage>, wire': seq<WireMessage>, posted: seq<nat>, outbox: seq<CoreMessage>)
    requires PostedOk(c, sk, wire, posted, outbox) && wire <= wire'
    ensures PostedOk(c, sk, wire', posted, outbox)
  {
  }

  lemma PostedOneMore(
      c: Codec, sk: string, wire: seq<WireMessage>, posted: seq<nat>, outbox: seq<CoreMessage>, out: CoreMessage)
    requires PostedOk(c, sk, wire, posted, outbox)
    ensures PostedOk(c, sk, wire + [SignEnvelope(c, sk, out)], posted + [|wire|], outbox + [out])
  {
  }

  lemma NodesStayOk(su: Setup, net: Net, net': Net, p: nat, s: State)
    requires NetOk(su, net) && p < |net.nodes| && MemberOk(su.Node(p), su.Lists(), s)
    requires net'.nodes == net.nodes[p := s]
    ensures forall q | 0 <= q < |net'.nodes| :: MemberOk(su.Node(q), su.Lists(), net'.nodes[q])
  {
  }

  lemma WiresStayOk(su: Setup, net: Net, net': Net, p: nat, out: CoreMessage, e: Emission)
    requires NetOk(su, net) && p < |su.secrets| && WireOk(su, SignEnvelope(su.codec, su.secrets[p], out), e)
    requires net'.wire == net.wire + [SignEnvelope(su.codec, su.secrets[p], out)] && net'.emitted == net.emitted + [e]
    ensures |net'.wire| == |net'.emitted|
    ensures forall n | 0 <= n < |net'.wire| :: WireOk(su, net'.wire[n], net'.emitted[n])
  {
  }

  /** The channel gains what this node's step put on the sink. */
  lemma PostingKeeps(su: Setup, net: Net, net': Net, p: nat, s: State, out: CoreMessage, e: Emission)
    requires NetOk(su, net) && p < |net.nodes| && MemberOk(su.Node(p), su.Lists(), s)
    requires s.ledger == net.nodes[p].ledger && s.outbox == net.nodes[p].outbox + [out]
    requires WireOk(su, SignEnvelope(su.codec, su.secrets[p], out), e)
    requires net' == net.(
               nodes := net.nodes[p := s],
               wire := net.wire + [SignEnvelope(su.codec, su.secrets[p], out)],
               emitted := net.emitted + [e],
               posted := net.posted[p := net.posted[p] + [|net.wire|]])
    ensures NetOk(su, net')
  {
    forall q | 0 <= q < |net'.nodes|
      ensures SourcesOk(su.Node(q).Own(), net'.wire, net'.sources[q], net'.nodes[q].ledger.arrived)
    {
      SourcesLast(su.Node(q).Own(), net.wire, net'.wire, net.sources[q], net.nodes[q].ledger.arrived);
    }
    forall q | 0 <= q < |net'.nodes|
      ensures PostedOk(su.codec, su.secrets[q], net'.wire, net'.posted[q], net'.nodes[q].outbox)
    {
      if q == p {
        PostedOneMore(su.codec, su.secrets[p], net.wire, net.posted[p], net.nodes[p].outbox, out);
      } else {
        PostedLast(su.codec, su.secrets[q], net.wire, net'.wire, net.posted[q], net.nodes[q].outbox);
      }
    }
    NodesStayOk(su, net, net', p, s);
    WiresStayOk(su, net, net', p, out, e);
  }

  /** One entry on the sink is one broadcast. */
  lemma EmittedOne(su: Setup, net: Net, p: nat, room: string, message: Generic, nonce: nat, s': State, out: CoreMessage)
    requires p < |su.secrets| == |net.nodes| == |net.posted| && net.nodes[p].alive
    requires s' == Step(su.Node(p), net.nodes[p], Outgoing(CoreMessage(room, su.codec.showGeneric(message)), nonce))
    requires s'.outbox == net.nodes[p].outbox + [out]
    ensures var s := net.nodes[p];
            Emitted(su, net, p, room, message, nonce) == net.(
              nodes := net.nodes[p := s'],
              wire := net.wire + [SignEnvelope(su.codec, su.secrets[p], out)],
              emitted := net.emitted + [Emission(p, room, FiledFor(s.tree, room), message)],
              posted := net.posted[p := net.posted[p] + [|net.wire|]])
  {
    var sent := Sent(net.nodes[p], s');
    assert sent == [out];
    assert Signed(su.codec, su.secrets[p], sent) == [SignEnvelope(su.codec, su.secrets[p], out)];
    var e := Emission(p, room, FiledFor(net.nodes[p].tree, room), message);
    assert seq(|sent|, _ => e) == [e];
    assert seq(|sent|, k => |net.wire| + k) == [|net.wire|];
  }

  lemma EmittedNone(su: Setup, net: Net, p: nat, room: string, message: Generic, nonce: nat, s': State)
    requires p < |su.secrets| == |net.nodes| == |net.posted| == |net.sources| && net.nodes[p].alive
    requires s' == Step(su.Node(p), net.nodes[p], Outgoing(CoreMessage(room, su.codec.showGeneric(message)), nonce))
    requires Sent(net.nodes[p], s') == []
    ensures Emitted(su, net, p, room, message, nonce) ==
            net.(nodes := net.nodes[p := s'], sources := net.sources[p := net.sources[p]])
  {
    assert net.sources[p := net.sources[p]] == net.sources;
    assert net.posted[p] + [] == net.posted[p] && net.wire + [] == net.wire && net.emitted + [] == net.emitted;
    assert net.posted[p := net.posted[p]] == net.posted;
    var e := Emission(p, room, FiledFor(net.nodes[p].tree, room), message);
    assert Signed(su.codec, su.secrets[p], []) == [] && seq(0, _ => e) == [] && seq(0, k => |net.wire| + k) == [];
  }

  lemma {:induction false} EmittingKeeps(
      su: Setup, net: Net, p: nat, room: string, message: Generic, nonce: nat, out: CoreMessage)
    requires su.Valid() && NetOk(su, net) && p < |su.secrets| && net.nodes[p].alive && su.codec.validJson(message.body)
    requires var core := CoreMessage(room, su.codec.showGeneric(message));
             && Step(su.Node(p), net.nodes[p], Outgoing(core, nonce)).outbox == net.nodes[p].outbox + [out]
             && IsSealedForm(su.codec, net.nodes[p].tree, core, nonce, out)
    ensures NetOk(su, Emitted(su, net, p, room, message, nonce))
  {
    var s, core := net.nodes[p], CoreMessage(room, su.codec.showGeneric(message));
    var s' := Step(su.Node(p), s, Outgoing(core, nonce));
    assert MemberOk(su.Node(p), su.Lists(), s);
    StepKeepsMember(su.Node(p), su.Lists(), s, Outgoing(core, nonce));
    OutgoingHasFate(su.Node(p), s, core, nonce);
    EmittedIsOk(su, s, p, room, message, nonce, out);
    EmittedOne(su, net, p, room, message, nonce, s', out);
    PostingKeeps(su, net, Emitted(su, net, p, room, message, nonce), p, s', out,
                 Emission(p, room, FiledFor(s.tree, room), message));
  }

  lemma {:induction false} KeepingBackKeeps(su: Setup, net: Net, p: nat, room: string, message: Generic, nonce: nat)
    requires su.Valid() && NetOk(su, net) && p < |su.secrets| && net.nodes[p].alive
    requires !CanGoOut(su.codec, net.nodes[p].tree, CoreMessage(room, su.codec.showGeneric(message)), nonce)
    ensures NetOk(su, Emitted(su, net, p, room, message, nonce))
  {
    var s, core := net.nodes[p], CoreMessage(room, su.codec.showGeneric(message));
    var s' := Step(su.Node(p), s, Outgoing(core, nonce));
    assert MemberOk(su.Node(p), su.Lists(), s);
    StepKeepsMember(su.Node(p), su.Lists(), s, Outgoing(core, nonce));
    OutgoingHasFate(su.Node(p), s, core, nonce);
    assert Sent(s, s') == [];
    EmittedNone(su, net, p, room, message, nonce, s');
    NodeMoveKeeps(su, net, p, s', net.sources[p]);
  }

  lemma {:induction false} EmitKeeps(
      su: Setup, net: Net, p: nat, kind: Kind, room: string, message: Generic, nonce: nat)
    requires su.Valid() && NetOk(su, net) && CanMove(su, net, Emit(p, kind, room, message, nonce))
    ensures NetOk(su, Moved(su, net, Emit(p, kind, room, message, nonce)))
  {
    var s, core := net.nodes[p], CoreMessage(room, su.codec.showGeneric(message));
    if CanGoOut(su.codec, s.tree, core, nonce) {
      OutgoingHasFate(su.Node(p), s, core, nonce);
      var out :|
        && Step(su.Node(p), s, Outgoing(core, nonce)).outbox == s.outbox + [out]
        && IsSealedForm(su.codec, s.tree, core, nonce, out);
      EmittingKeeps(su, net, p, room, message, nonce, out);
    } else {
      KeepingBackKeeps(su, net, p, room, message, nonce);
    }
  }

  lemma ArrivalIsRecorded(cfg: Config, s: State, msg: WireMessage)
    requires s.alive
    ensures var s' := Step(cfg, s, Incoming(msg));
            s'.ledger.arrived == if s'.alive then s.ledger.arrived + [msg] else s.ledger.arrived
  {
    var l' := Arrive(cfg, s.tree, s.runners, s.ledger, msg);
    assert l'.Some? ==> l'.value.arrived == s.ledger.arrived + [msg];
  }

  lemma ArrivalKeepsSources(cfg: Config, s: State, wire: seq<WireMessage>, sources: seq<nat>, n: nat)
    requires s.alive && n < |wire| && wire[n].senderPublicKey != cfg.Own()
    requires SourcesOk(cfg.Own(), wire, sources, s.ledger.arrived)
    ensures var s' := Step(cfg, s, Incoming(wire[n]));
            SourcesOk(cfg.Own(), wire, if s'.alive then sources + [n] else sources, s'.ledger.arrived)
  {
    ArrivalIsRecorded(cfg, s, wire[n]);
  }

  lemma {:induction false} ReceiveKeeps(su: Setup, net: Net, p: nat, n: nat)
    requires su.Valid() && NetOk(su, net) && CanMove(su, net, Receive(p, n))
    ensures NetOk(su, Moved(su, net, Receive(p, n)))
  {
    var cfg, s, wire := su.Node(p), net.nodes[p], net.wire;
    if Accepted(su.codec, cfg.Own(), wire[n]).Some? {
      var s' := Step(cfg, s, Incoming(wire[n]));
      assert SourcesOk(cfg.Own(), wire, net.sources[p], s.ledger.arrived);
      StepKeepsMember(cfg, su.Lists(), s, Incoming(wire[n]));
      ArrivalKeepsSources(cfg, s, wire, net.sources[p], n);
      OthersSendNothing(cfg, s, Incoming(wire[n]));
      var sources := if s'.alive then net.sources[p] + [n] else net.sources[p];
      NodeMoveKeeps(su, net, p, s', sources);
      assert Moved(su, net, Receive(p, n)) == net.(nodes := net.nodes[p := s'], sources := net.sources[p := sources]);
    }
  }

  lemma {:induction false} RunKeepsNet(su: Setup, moves: seq<Move>)
    requires su.Valid() && Run(su, moves)
    ensures NetOk(su, Reached(su, moves))
  {
    if moves != [] {
      var k := |moves| - 1;
      var net := Reached(su, moves[..k]);
      RunKeepsNet(su, moves[..k]);
      match moves[k]
      case Local(p, ev) => LocalKeeps(su, net, p, ev);
      case Emit(p, kind, room, message, nonce) => EmitKeeps(su, net, p, kind, room, message, nonce);
      case Receive(p, n) => ReceiveKeeps(su, net, p, n);
    }
  }

  // ---- Main results ----

  /** The key list a node has on file for the room of an addressed broadcast is the sender's. */
  lemma FiledLikeTheSenders(su: Setup, keys: seq<string>, keys': seq<string>, room: string)
    requires su.Valid() && IsFiledFor(su, keys, room) && IsFiledFor(su, keys', room)
    ensures keys == keys'
  {
    GroupIdInjective(su.universe, keys, keys');
  }

  /** A message that passed the check is a broadcast or names this node's index in the group on file. */
  lemma PassedIsForMe(su: Setup, cfg: Config, s: State, wire: WireMessage)
    requires NodeOk(cfg, su.Lists(), s) && cfg.codec == su.codec && Check(cfg, s.tree, wire) == Pass
    ensures ExtractGroupId(wire.room).Ok? && GroupAt(s.tree, ExtractGroupId(wire.room).value).Some?
    ensures su.codec.parseGeneric(wire.payload).Some?
    ensures var receiver := su.codec.parseGeneric(wire.payload).value.receiver;
            receiver.None? || receiver == OwnIndex(FiledFor(s.tree, wire.room), cfg.Own())
  {
    FiledIsFor(su, cfg, s, wire.room);
  }

  /**
   * The hand-over brings this emission of another party for the same room, for all or for this node's index on
   * file.
   */
  ghost predicate Brings(su: Setup, q: nat, tree: Tree, d: Delivery, e: Emission)
    requires q < |su.secrets|
  {
    && e.party != q
    && e.room == d.message.room
    && su.codec.parseGeneric(d.message.payload) == Some(e.message)
    && (e.message.receiver.None? || e.message.receiver == OwnIndex(FiledFor(tree, e.room), su.Node(q).Own()))
  }

  lemma {:induction false} HandOverBrings(su: Setup, q: nat, s: State, d: Delivery, wire: WireMessage, e: Emission)
    requires su.Valid() && q < |su.secrets| && WireOk(su, wire, e) && NodeOk(su.Node(q), su.Lists(), s)
    requires Clears(su.Node(q), s.tree, wire, d.message) && wire.senderPublicKey != su.Node(q).Own()
    ensures Brings(su, q, s.tree, d, e)
  {
    var c, cfg := su.codec, su.Node(q);
    CiphersKeepTheHeader(c, s.tree, cfg.sk, CoreMessage("", ""), wire, 0);
    PassedIsForMe(su, cfg, s, wire);
    if e.message.receiver.Some? {
      FiledIsFor(su, cfg, s, wire.room);
      FiledLikeTheSenders(su, FiledFor(s.tree, wire.room), e.filed, e.room);
      OwnIndexNamesTheKey(e.filed, cfg.Own());
    }
    assert IsAddressee(c, e.filed, e.message, cfg.sk);
    assert OpensTo(c, cfg.sk, wire, e.message);
  }

  /** Everything handed to a runner of this party brings some emission. */
  ghost predicate HandOversBring(su: Setup, net: Net, q: nat)
    requires q < |su.secrets| == |net.nodes|
  {
    forall d | d in net.nodes[q].ledger.deliveries ::
      exists e :: e in net.emitted && Brings(su, q, net.nodes[q].tree, d, e)
  }

  /** The broadcast behind a hand-over. */
  lemma {:induction false} OriginOfHandOver(su: Setup, net: Net, q: nat, d: Delivery) returns (n: nat)
    requires NetOk(su, net) && q < |su.secrets| && d in net.nodes[q].ledger.deliveries
    ensures n < |net.wire| && net.wire[n].senderPublicKey != su.Node(q).Own()
    ensures Clears(su.Node(q), net.nodes[q].tree, net.wire[n], d.message)
  {
    var s := net.nodes[q];
    assert MemberOk(su.Node(q), su.Lists(), s);
    assert IsCleared(ClearingOf(su.Node(q), s.tree), s.ledger.arrived, s.ledger.cleared, d.origin, d.message);
    assert SourcesOk(su.Node(q).Own(), net.wire, net.sources[q], s.ledger.arrived);
    n := net.sources[q][d.origin];
  }

  lemma {:induction false} MemberHandOversBring(su: Setup, net: Net, q: nat)
    requires su.Valid() && NetOk(su, net) && q < |su.secrets|
    ensures HandOversBring(su, net, q)
  {
    var s := net.nodes[q];
    forall d | d in s.ledger.deliveries
      ensures exists e :: e in net.emitted && Brings(su, q, s.tree, d, e)
    {
      var n := OriginOfHandOver(su, net, q, d);
      assert MemberOk(su.Node(q), su.Lists(), s) && WireOk(su, net.wire[n], net.emitted[n]);
      HandOverBrings(su, q, s, d, net.wire[n], net.emitted[n]);
      assert net.emitted[n] in net.emitted;
    }
  }

  /**
   * What is handed over in every run, whatever the ids: another party's emission for the room, with its exact
   * content.
   */
  lemma {:induction false} HandedOverWasEmitted(su: Setup, moves: seq<Move>)
    requires su.Valid() && Run(su, moves)
    ensures forall q | 0 <= q < |su.secrets| :: HandOversBring(su, Reached(su, moves), q)
  {
    RunKeepsNet(su, moves);
    forall q | 0 <= q < |su.secrets|
      ensures HandOversBring(su, Reached(su, moves), q)
    {
      MemberHandOversBring(su, Reached(su, moves), q);
    }
  }

  // ---- Down to the protocol machine ----

  function MsgOf(message: Generic): Players.Msg<string> {
    Players.Msg(message.sender, message.receiver, message.body)
  }

  /** A runner, by its kind, its room and its own index. */
  datatype RunnerId = RunnerId(kind: Kind, room: string, index: U16)

  /** A tick, or one of the messages that this node handed to this runner. */
  ghost predicate ComesFrom(c: Codec, deliveries: seq<Delivery>, id: RunnerId, input: Players.Input<string>) {
    input.Incoming? ==>
      exists d :: && d in deliveries
                  && d.kind == id.kind && d.message.room == id.room && d.index == id.index
                  && c.parseGeneric(d.message.payload).Some?
                  && input.msg == MsgOf(c.parseGeneric(d.message.payload).value)
  }

  ghost predicate AllComeFrom(c: Codec, deliveries: seq<Delivery>, id: RunnerId, inputs: seq<Players.Input<string>>) {
    forall i | 0 <= i < |inputs| :: ComesFrom(c, deliveries, id, inputs[i])
  }

  /** Emitted by another party for this room, for everybody or for this index, and not under this index. */
  ghost predicate EmittedFor(q: nat, id: RunnerId, msg: Players.Msg<string>, e: Emission) {
    && e.party != q && e.room == id.room && MsgOf(e.message) == msg
    && msg.sender != id.index && (msg.receiver.None? || msg.receiver == Some(id.index))
  }

  ghost predicate AllEmittedFor(net: Net, q: nat, id: RunnerId, fed: seq<Players.Msg<string>>) {
    forall msg | msg in fed :: exists e :: e in net.emitted && EmittedFor(q, id, msg, e)
  }

  lemma {:induction false} AcceptedWasInput(index: U16, inputs: seq<Players.Input<string>>, msg: Players.Msg<string>)
    requires msg in Players.Accepted(index, inputs)
    ensures Players.Incoming(msg) in inputs && Players.Accepts(index, msg)
  {
    var n := |inputs| - 1;
    if msg in Players.Accepted(index, inputs[..n]) {
      AcceptedWasInput(index, inputs[..n], msg);
    } else {
      assert inputs[n] == Players.Incoming(msg);
    }
  }

  lemma {:induction false} AcceptedWasEmitted(
      su: Setup, net: Net, q: nat, id: RunnerId, inputs: seq<Players.Input<string>>)
    requires q < |su.secrets| == |net.nodes| && HandOversBring(su, net, q)
    requires AllComeFrom(su.codec, net.nodes[q].ledger.deliveries, id, inputs)
    ensures AllEmittedFor(net, q, id, Players.Accepted(id.index, inputs))
  {
    var deliveries := net.nodes[q].ledger.deliveries;
    forall msg | msg in Players.Accepted(id.index, inputs)
      ensures exists e :: e in net.emitted && EmittedFor(q, id, msg, e)
    {
      AcceptedWasInput(id.index, inputs, msg);
      var i :| 0 <= i < |inputs| && inputs[i] == Players.Incoming(msg);
      assert ComesFrom(su.codec, deliveries, id, inputs[i]);
      var d :| && d in deliveries
               && d.kind == id.kind && d.message.room == id.room && d.index == id.index
               && su.codec.parseGeneric(d.message.payload).Some?
               && msg == MsgOf(su.codec.parseGeneric(d.message.payload).value);
      var e :| e in net.emitted && Brings(su, q, net.nodes[q].tree, d, e);
      assert EmittedFor(q, id, msg, e);
    }
  }

  /**
   * End-to-end delivery. In every run, whatever the ids of requests and however often they are
   * reused: whatever a player feeds into its protocol machine was emitted by another party's
   * runner for the same room, is a broadcast or names this player's own index as receiver, and
   * has exactly the emitted content. The player may be ticked at any time, and gets what this
   * node handed to it in any order.
   */
  lemma {:induction false} EndToEndDelivery<S(!new), E(!new), O(!new)>(
      su: Setup, moves: seq<Move>, q: nat, id: RunnerId,
      m: Players.Machine<S, string, E, O>, state: S, inputs: seq<Players.Input<string>>)
    requires su.Valid() && Run(su, moves) && q < |su.secrets|
    requires AllComeFrom(su.codec, Reached(su, moves).nodes[q].ledger.deliveries, id, inputs)
    requires Players.Contract(m) && m.queue(state) == m.produced(state)
    ensures AllEmittedFor(Reached(su, moves), q, id, Players.After(m, Players.Started(id.index, state), inputs).fed)
  {
    HandedOverWasEmitted(su, moves);
    AcceptedWasEmitted(su, Reached(su, moves), q, id, inputs);
    Players.DriverIsFaithful(m, id.index, state, inputs);
  }

  lemma {:induction false} ForeignWasSent(index: U16, messages: seq<Players.Msg<string>>, partial: string)
    returns (msg: Players.Msg<string>)
    requires partial in Signers.Foreign(index, messages)
    ensures msg in messages && msg.sender != index && msg.body == partial
  {
    var n := |messages| - 1;
    if partial in Signers.Foreign(index, messages[..n]) {
      msg := ForeignWasSent(index, messages[..n], partial);
    } else {
      msg := messages[n];
    }
  }

  /** Emitted by another party for this room, and not under this index. */
  ghost predicate PartialOf(q: nat, id: RunnerId, partial: string, e: Emission) {
    e.party != q && e.room == id.room && e.message.body == partial && e.message.sender != id.index
  }

  /**
   * The same for a signer, whose filter looks at the sender only: what it collects was emitted by another
   * party's runner.
   */
  lemma {:induction false} CollectedWasEmitted<G>(
      su: Setup, moves: seq<Move>, q: nat, id: RunnerId,
      task: Signers.SignTask<string, G>, messages: seq<Players.Msg<string>>)
    requires su.Valid() && Run(su, moves) && q < |su.secrets| && task.index == id.index
    requires forall msg | msg in messages ::
               ComesFrom(su.codec, Reached(su, moves).nodes[q].ledger.deliveries, id, Players.Incoming(msg))
    ensures forall partial | partial in Signers.AfterAll(task, messages).partials ::
              exists e :: e in Reached(su, moves).emitted && PartialOf(q, id, partial, e)
  {
    HandedOverWasEmitted(su, moves);
    Signers.CompletionIsAttemptedOnce(task, messages);
    var net := Reached(su, moves);
    forall partial | partial in Signers.Foreign(task.index, messages)
      ensures exists e :: e in net.emitted && PartialOf(q, id, partial, e)
    {
      var msg := ForeignWasSent(task.index, messages, partial);
      assert ComesFrom(su.codec, net.nodes[q].ledger.deliveries, id, Players.Incoming(msg));
      assert HandOversBring(su, net, q);
      var d :| && d in net.nodes[q].ledger.deliveries
               && d.kind == id.kind && d.message.room == id.room && d.index == id.index
               && su.codec.parseGeneric(d.message.payload).Some?
               && msg == MsgOf(su.codec.parseGeneric(d.message.payload).value);
      var e :| e in net.emitted && Brings(su, q, net.nodes[q].tree, d, e);
      assert PartialOf(q, id, partial, e);
    }
  }

  // ---- Signer lists across parties ----

  /** Whenever both parties finished a key generation of one public key, they had the same key list and threshold. */
  ghost predicate SameKeygens(s: State, s': State) {
    forall c, c' |
      c in s.history.completed && c' in s'.history.completed && c.key.sumPublicKey == c'.key.sumPublicKey ::
      c.task.request.participants == c'.task.request.participants && c.key.t == c'.key.t
  }

  lemma MembersAgree(cfg: Config, cfg': Config, known: KeyLaw, s: State, s': State, room: string, room': string)
    requires MemberOk(cfg, known, s) && MemberOk(cfg', known, s') && SameKeygens(s, s')
    requires room in s.runners.offline && room' in s'.runners.offline
    requires var e, e' := s.runners.offline[room].inner, s'.runners.offline[room'].inner;
             e.participants == e'.participants && e.publicKey == e'.publicKey
    ensures s.runners.offline[room].signers == s'.runners.offline[room'].signers
  {
    var e, e' := s.runners.offline[room], s'.runners.offline[room'];
    SignerAgrees(cfg, known, s, Offline, room, e);
    SignerAgrees(cfg', known, s', Offline, room', e');
    var c :| c in s.history.completed && AgreesWith(e, c);
    var c' :| c' in s'.history.completed && AgreesWith(e', c');
    assert c.key.sumPublicKey == c'.key.sumPublicKey;
  }

  /**
   * Signer-index agreement across parties: in every run, two parties that generated the public
   * key in the same group compute the same signer list for the same participants.
   */
  lemma {:induction false} PartiesComputeSameSigners(
      su: Setup, moves: seq<Move>, p: nat, q: nat, room: string, room': string)
    requires su.Valid() && Run(su, moves) && p < |su.secrets| && q < |su.secrets|
    requires var s, s' := Reached(su, moves).nodes[p], Reached(su, moves).nodes[q];
             && SameKeygens(s, s') && room in s.runners.offline && room' in s'.runners.offline
             && s.runners.offline[room].inner.participants == s'.runners.offline[room'].inner.participants
             && s.runners.offline[room].inner.publicKey == s'.runners.offline[room'].inner.publicKey
    ensures Reached(su, moves).nodes[p].runners.offline[room].signers ==
            Reached(su, moves).nodes[q].runners.offline[room'].signers
  {
    RunKeepsNet(su, moves);
    var net := Reached(su, moves);
    MembersAgree(su.Node(p), su.Node(q), su.Lists(), net.nodes[p], net.nodes[q], room, room');
  }
}

/**
 * The driver around a round-based protocol machine. The machine itself is a library; it enters
 * as a record of functions with a contract.
 */
module Players {
  import opened Basics

  datatype Msg<B> = Msg(sender: U16, receiver: Option<U16>, body: B)

  /**
   * A round-based state machine over states S. `produced` observes every message the machine has
   * ever queued, `picked` whether its output has been taken.
   */
  datatype Machine<!S, !B, !E, !O> = Machine(
    handle: (S, Msg<B>) -> (S, Option<E>),
    wantsToProceed: S -> bool,
    proceed: S -> (S, Option<E>),
    queue: S -> seq<Msg<B>>,
    drained: S -> S,
    isFinished: S -> bool,
    pick: S -> (S, Option<Result<O, E>>),
    round: S -> nat,
    isOutOfOrder: E -> bool,
    produced: S -> seq<Msg<B>>,
    picked: S -> bool)

  /** From s to s' the machine only appended to its queue, and did not hand its output back. */
  ghost predicate Continues<S, B, E, O>(m: Machine<S, B, E, O>, s: S, s': S) {
    && m.queue(s) <= m.queue(s')
    && m.produced(s') == m.produced(s) + m.queue(s')[|m.queue(s)|..]
    && (m.picked(s) ==> m.picked(s'))
  }

  ghost predicate Contract<S(!new), B(!new), E(!new), O(!new)>(m: Machine<S, B, E, O>) {
    && (forall s, x :: Continues(m, s, m.handle(s, x).0))
    && (forall s :: Continues(m, s, m.proceed(s).0))
    && (forall s :: m.proceed(s).1.Some? ==> !m.isOutOfOrder(m.proceed(s).1.value))
    && (forall s :: m.queue(m.drained(s)) == [] && m.produced(m.drained(s)) == m.produced(s)
                    && (m.picked(s) ==> m.picked(m.drained(s))))
    && (forall s :: m.queue(m.pick(s).0) == m.queue(s) && m.produced(m.pick(s).0) == m.produced(s))
    && (forall s :: m.pick(s).1.Some? ==> !m.picked(s) && m.picked(m.pick(s).0))
    && (forall s :: m.picked(s) ==> m.picked(m.pick(s).0))
  }

  /**
   * What a machine that repeats every message it is fed keeps: its queue, all it has produced, and whether it
   * is done.
   */
  type Echo<B> = (seq<Msg<B>>, seq<Msg<B>>, bool)

  /** The contract can be met, by a machine that also emits. */
  lemma ContractIsConsistent<B(!new)>(done: nat) returns (m: Machine<Echo<B>, B, bool, nat>)
    ensures Contract(m)
  {
    m := Machine(
      (s: Echo<B>, x: Msg<B>) => ((s.0 + [x], s.1 + [x], s.2), None),
      (s: Echo<B>) => s.0 == [],
      (s: Echo<B>) => (s, None),
      (s: Echo<B>) => s.0,
      (s: Echo<B>) => ([], s.1, s.2),
      (s: Echo<B>) => |s.1| >= done,
      (s: Echo<B>) => ((s.0, s.1, true), if s.2 then None else Some(Ok(|s.1|))),
      (s: Echo<B>) => |s.1|,
      (e: bool) => e,
      (s: Echo<B>) => s.1,
      (s: Echo<B>) => s.2);
    forall s, x
      ensures Continues(m, s, m.handle(s, x).0)
    {
      assert m.queue(m.handle(s, x).0)[|m.queue(s)|..] == [x];
    }
  }

  /** One call of a machine's operation that changes it, with the state it was made in. */
  datatype Call<S, B> = Handle(before: S, msg: Msg<B>) | Drain(before: S) | Proceed(before: S) | Pick(before: S)

  /**
   * `emitted`, `results` and `errors` went to the coordinator; `fed` went into the machine, and
   * `calls` is the history of all calls made on it.
   */
  datatype Player<S, B, E, O> = Player(
    index: U16,
    msgCount: U16,
    state: S,
    currentRound: Option<nat>,
    emitted: seq<Msg<B>>,
    results: seq<O>,
    errors: seq<(E, Msg<B>)>,
    fed: seq<Msg<B>>,
    calls: seq<Call<S, B>>)

  function Started<S, B, E, O>(index: U16, state: S): Player<S, B, E, O> {
    Player(index, 0, state, None, [], [], [], [], [])
  }

  predicate Accepts<B>(index: U16, msg: Msg<B>) {
    msg.sender != index && (msg.receiver.None? || msg.receiver == Some(index))
  }

  function SendOutgoing<S, B, E, O>(m: Machine<S, B, E, O>, p: Player<S, B, E, O>): Player<S, B, E, O> {
    p.(emitted := p.emitted + m.queue(p.state), state := m.drained(p.state), calls := p.calls + [Drain(p.state)])
  }

  function RefreshTimer<S, B, E, O>(m: Machine<S, B, E, O>, p: Player<S, B, E, O>): Player<S, B, E, O> {
    p.(currentRound := Some(m.round(p.state)))
  }

  function FinishIfPossible<S, B, E, O>(m: Machine<S, B, E, O>, p: Player<S, B, E, O>): Player<S, B, E, O> {
    if !m.isFinished(p.state) then p
    else
      var (state, output) := m.pick(p.state);
      var p1 := p.(state := state, calls := p.calls + [Pick(p.state)]);
      match output
      case Some(Ok(result)) => p1.(results := p.results + [result])
      case Some(Err(_)) => p1
      case None => p1
  }

  function ProceedIfNeeded<S, B, E, O>(m: Machine<S, B, E, O>, p: Player<S, B, E, O>): (Player<S, B, E, O>, Option<E>) {
    if m.wantsToProceed(p.state) then
      var (state, error) := m.proceed(p.state);
      (p.(state := state, calls := p.calls + [Proceed(p.state)]), error)
    else (p, None)
  }

  function MaybeProceed<S, B, E, O>(m: Machine<S, B, E, O>, p: Player<S, B, E, O>): (Player<S, B, E, O>, Option<E>) {
    var (p2, error) := ProceedIfNeeded(m, RefreshTimer(m, SendOutgoing(m, p)));
    if error.Some? then (p2, error)
    else (FinishIfPossible(m, RefreshTimer(m, SendOutgoing(m, p2))), None)
  }

  function Report<S, B, E, O>(p: Player<S, B, E, O>, error: Option<E>, msg: Msg<B>): Player<S, B, E, O> {
    match error
    case Some(e) => p.(errors := p.errors + [(e, msg)])
    case None => p
  }

  function OnMessage<S, B, E, O>(m: Machine<S, B, E, O>, p: Player<S, B, E, O>, msg: Msg<B>): Player<S, B, E, O> {
    if !Accepts(p.index, msg) then p
    else
      var (state, error) := m.handle(p.state, msg);
      var p1 := p.(
        msgCount := Truncate16(p.msgCount + 1), state := state, fed := p.fed + [msg],
        calls := p.calls + [Handle(p.state, msg)]);
      var (p2, error2) := MaybeProceed(m, Report(p1, error, msg));
      Report(p2, error2, msg)
  }

  /** The timer only drives the machine until the first message. */
  function OnTick<S, B, E, O>(m: Machine<S, B, E, O>, p: Player<S, B, E, O>): Player<S, B, E, O> {
    if p.msgCount == 0 then MaybeProceed(m, p).0 else p
  }

  // ---- Any sequence of ticks and messages ----

  datatype Input<B> = Tick | Incoming(msg: Msg<B>)

  function After<S, B, E, O>(m: Machine<S, B, E, O>, p: Player<S, B, E, O>, inputs: seq<Input<B>>): Player<S, B, E, O> {
    if inputs == [] then p
    else
      var before := After(m, p, inputs[..|inputs| - 1]);
      match inputs[|inputs| - 1]
      case Tick => OnTick(m, before)
      case Incoming(msg) => OnMessage(m, before, msg)
  }

  /** The messages of others that are for everybody or for this index, in order of arrival. */
  function Accepted<B>(index: U16, inputs: seq<Input<B>>): seq<Msg<B>> {
    if inputs == [] then []
    else
      var before := Accepted(index, inputs[..|inputs| - 1]);
      var last := inputs[|inputs| - 1];
      if last.Incoming? && Accepts(index, last.msg) then before + [last.msg] else before
  }

  /** How many errors send their message back to the coordinator's queue. */
  function Bounces<S, B, E, O>(m: Machine<S, B, E, O>, errors: seq<(E, Msg<B>)>): nat {
    if errors == [] then 0
    else Bounces(m, errors[..|errors| - 1]) + (if m.isOutOfOrder(errors[|errors| - 1].0) then 1 else 0)
  }

  /**
   * Emitted and queued messages are all that was ever produced, in order; at most one result; no more bounces
   * than messages fed.
   */
  ghost predicate PlayerOk<S, B, E, O>(m: Machine<S, B, E, O>, p: Player<S, B, E, O>) {
    && p.emitted + m.queue(p.state) == m.produced(p.state)
    && |p.results| <= 1
    && (|p.results| == 1 ==> m.picked(p.state))
    && Bounces(m, p.errors) <= |p.fed|
  }

  lemma ContinuingKeeps<S, B, E, O>(m: Machine<S, B, E, O>, p: Player<S, B, E, O>, state: S)
    requires PlayerOk(m, p) && Continues(m, p.state, state)
    ensures PlayerOk(m, p.(state := state))
  {
    var q, q' := m.queue(p.state), m.queue(state);
    assert q' == q + q'[|q|..];
    assert p.emitted + q' == p.emitted + q + q'[|q|..];
  }

  lemma SendingKeeps<S(!new), B(!new), E(!new), O(!new)>(m: Machine<S, B, E, O>, p: Player<S, B, E, O>)
    requires Contract(m) && PlayerOk(m, p)
    ensures PlayerOk(m, SendOutgoing(m, p)) && m.queue(SendOutgoing(m, p).state) == []
  {
    var p' := SendOutgoing(m, p);
    assert m.queue(m.drained(p.state)) == [];
    assert p'.emitted + m.queue(p'.state) == p'.emitted;
  }

  lemma FinishingKeeps<S(!new), B(!new), E(!new), O(!new)>(m: Machine<S, B, E, O>, p: Player<S, B, E, O>)
    requires Contract(m) && PlayerOk(m, p)
    ensures PlayerOk(m, FinishIfPossible(m, p))
    ensures m.queue(FinishIfPossible(m, p).state) == m.queue(p.state)
  {
    if m.isFinished(p.state) {
      assert m.queue(m.pick(p.state).0) == m.queue(p.state);
    }
  }

  lemma ProceedingKeeps<S(!new), B(!new), E(!new), O(!new)>(m: Machine<S, B, E, O>, p: Player<S, B, E, O>)
    requires Contract(m) && PlayerOk(m, p)
    ensures var (p', error) := ProceedIfNeeded(m, p);
            PlayerOk(m, p') && (error.Some? ==> !m.isOutOfOrder(error.value))
  {
    if m.wantsToProceed(p.state) {
      assert Continues(m, p.state, m.proceed(p.state).0);
      ContinuingKeeps(m, p, m.proceed(p.state).0);
    }
  }

  lemma EndingKeeps<S(!new), B(!new), E(!new), O(!new)>(m: Machine<S, B, E, O>, p: Player<S, B, E, O>)
    requires Contract(m) && PlayerOk(m, p)
    ensures var p' := FinishIfPossible(m, RefreshTimer(m, SendOutgoing(m, p)));
            && PlayerOk(m, p') && m.queue(p'.state) == [] && p'.emitted == m.produced(p'.state)
            && p'.fed == p.fed && p'.errors == p.errors && p'.index == p.index && p'.msgCount == p.msgCount
  {
    SendingKeeps(m, p);
    var p1 := RefreshTimer(m, SendOutgoing(m, p));
    FinishingKeeps(m, p1);
    var p' := FinishIfPossible(m, p1);
    assert p'.emitted + m.queue(p'.state) == p'.emitted;
  }

  /**
   * One drive of the machine; without an error its queue is empty afterwards and everything it held has been
   * emitted.
   */
  lemma {:induction false} DrivingKeeps<S(!new), B(!new), E(!new), O(!new)>(
      m: Machine<S, B, E, O>, p: Player<S, B, E, O>)
    requires Contract(m) && PlayerOk(m, p)
    ensures var (p', error) := MaybeProceed(m, p);
            && PlayerOk(m, p') && p'.fed == p.fed && p'.errors == p.errors && p'.index == p.index
              && p'.msgCount == p.msgCount
            && (error.None? ==> m.queue(p'.state) == [] && p'.emitted == m.produced(p'.state))
            && (error.Some? ==> !m.isOutOfOrder(error.value))
  {
    var p1 := RefreshTimer(m, SendOutgoing(m, p));
    SendingKeeps(m, p);
    ProceedingKeeps(m, p1);
    var (p2, error) := ProceedIfNeeded(m, p1);
    if error.None? {
      EndingKeeps(m, p2);
    }
  }

  lemma BouncesOfOneMore<S, B, E, O>(m: Machine<S, B, E, O>, errors: seq<(E, Msg<B>)>, e: E, msg: Msg<B>)
    ensures Bounces(m, errors + [(e, msg)]) == Bounces(m, errors) + (if m.isOutOfOrder(e) then 1 else 0)
  {
    assert (errors + [(e, msg)])[..|errors|] == errors;
  }

  lemma {:induction false} MessageKeeps<S(!new), B(!new), E(!new), O(!new)>(
      m: Machine<S, B, E, O>, p: Player<S, B, E, O>, msg: Msg<B>)
    requires Contract(m) && PlayerOk(m, p)
    ensures PlayerOk(m, OnMessage(m, p, msg))
    ensures OnMessage(m, p, msg).fed == if Accepts(p.index, msg) then p.fed + [msg] else p.fed
    ensures OnMessage(m, p, msg).index == p.index
  {
    if Accepts(p.index, msg) {
      var (state, error) := m.handle(p.state, msg);
      assert Continues(m, p.state, m.handle(p.state, msg).0);
      ContinuingKeeps(m, p, state);
      if error.Some? {
        BouncesOfOneMore(m, p.errors, error.value, msg);
      }
      var p0 := p.(
        msgCount := Truncate16(p.msgCount + 1), state := state, fed := p.fed + [msg],
        calls := p.calls + [Handle(p.state, msg)]);
      var p1 := Report(p0, error, msg);
      assert PlayerOk(m, p1);
      DrivingKeeps(m, p1);
      var (p2, error2) := MaybeProceed(m, p1);
      if error2.Some? {
        BouncesOfOneMore(m, p2.errors, error2.value, msg);
      }
    }
  }

  lemma {:induction false} IndexStays<S, B, E, O>(m: Machine<S, B, E, O>, p: Player<S, B, E, O>, inputs: seq<Input<B>>)
    ensures After(m, p, inputs).index == p.index
  {
    if inputs != [] {
      IndexStays(m, p, inputs[..|inputs| - 1]);
    }
  }

  /**
   * The driver is faithful, whatever arrives: the machine is fed exactly the messages of others
   * that are for everybody or for this party, in order; what was emitted and what is still
   * queued is all the machine ever produced, once and in order; at most one result is
   * reported; and at most one message bounces for each message fed.
   */
  lemma {:induction false} DriverIsFaithful<S(!new), B(!new), E(!new), O(!new)>(
      m: Machine<S, B, E, O>, index: U16, state: S, inputs: seq<Input<B>>)
    requires Contract(m) && m.queue(state) == m.produced(state)
    ensures After(m, Started(index, state), inputs).fed == Accepted(index, inputs)
    ensures PlayerOk(m, After(m, Started(index, state), inputs))
  {
    if inputs == [] {
      var p: Player<S, B, E, O> := Started(index, state);
      assert p.emitted + m.queue(p.state) == m.queue(state);
    } else {
      var init := inputs[..|inputs| - 1];
      DriverIsFaithful(m, index, state, init);
      IndexStays(m, Started(index, state), init);
      var p := After(m, Started(index, state), init);
      match inputs[|inputs| - 1]
      case Tick => DrivingKeeps(m, p);
      case Incoming(msg) => MessageKeeps(m, p, msg);
    }
  }

  lemma {:induction false} AcceptedAreForMe<B>(index: U16, inputs: seq<Input<B>>)
    ensures forall msg | msg in Accepted(index, inputs) :: msg.sender != index && msg.receiver in {None, Some(index)}
  {
    if inputs != [] {
      AcceptedAreForMe(index, inputs[..|inputs| - 1]);
    }
  }

  /** Accepted means exactly: from another index, and for everybody or for this one. */
  lemma AcceptsIff<B>(index: U16, msg: Msg<B>)
    ensures Accepts(index, msg) <==> msg.sender != index && msg.receiver in {None, Some(index)}
  {
  }

  // ---- Which calls are made ----

  function StateAfter<S, B, E, O>(m: Machine<S, B, E, O>, call: Call<S, B>): S {
    match call
    case Handle(s, msg) => m.handle(s, msg).0
    case Drain(s) => m.drained(s)
    case Proceed(s) => m.proceed(s).0
    case Pick(s) => m.pick(s).0
  }

  /** The calls lead from the first state to the last one, each made where the one before ended. */
  ghost predicate Chained<S(!new), B(!new), E, O>(m: Machine<S, B, E, O>, from: S, calls: seq<Call<S, B>>, to: S) {
    && (calls == [] ==> to == from)
    && (calls != [] ==> calls[0].before == from && StateAfter(m, calls[|calls| - 1]) == to)
    && forall i | 0 <= i < |calls| - 1 :: calls[i + 1].before == StateAfter(m, calls[i])
  }

  /** What goes out with a call: the queue that it drains. */
  function SentBy<S, B, E, O>(m: Machine<S, B, E, O>, calls: seq<Call<S, B>>): seq<Msg<B>> {
    if calls == [] then []
    else
      var last := calls[|calls| - 1];
      SentBy(m, calls[..|calls| - 1]) + (if last.Drain? then m.queue(last.before) else [])
  }

  /** What is reported with a call: the output that it picks. */
  function PickedBy<S, B, E, O>(m: Machine<S, B, E, O>, calls: seq<Call<S, B>>): seq<O> {
    if calls == [] then []
    else
      var last := calls[|calls| - 1];
      PickedBy(m, calls[..|calls| - 1]) +
      (match last
       case Pick(s) => (match m.pick(s).1 case Some(Ok(result)) => [result] case _ => [])
       case _ => [])
  }

  lemma {:induction false} ChainedOn<S(!new), B(!new), E, O>(
      m: Machine<S, B, E, O>, from: S, calls: seq<Call<S, B>>, middle: S, more: seq<Call<S, B>>, to: S)
    requires Chained(m, from, calls, middle) && Chained(m, middle, more, to)
    ensures Chained(m, from, calls + more, to)
  {
    var all := calls + more;
    forall i | 0 <= i < |all| - 1
      ensures all[i + 1].before == StateAfter(m, all[i])
    {
      if i + 1 < |calls| {
        assert all[i] == calls[i] && all[i + 1] == calls[i + 1];
      } else if i >= |calls| {
        assert all[i] == more[i - |calls|] && all[i + 1] == more[i - |calls| + 1];
      } else {
        assert all[i] == calls[|calls| - 1] && all[i + 1] == more[0];
      }
    }
  }

  lemma {:induction false} SentByAll<S, B, E, O>(m: Machine<S, B, E, O>, calls: seq<Call<S, B>>, more: seq<Call<S, B>>)
    ensures SentBy(m, calls + more) == SentBy(m, calls) + SentBy(m, more)
    ensures PickedBy(m, calls + more) == PickedBy(m, calls) + PickedBy(m, more)
  {
    if more == [] {
      assert calls + more == calls;
    } else {
      SentByAll(m, calls, more[..|more| - 1]);
      assert (calls + more)[..|calls + more| - 1] == calls + more[..|more| - 1];
    }
  }

  /** The end of a drive: drain, and pick if the machine is finished then. */
  ghost predicate IsEnd<S, B, E, O>(m: Machine<S, B, E, O>, s: S, calls: seq<Call<S, B>>) {
    if m.isFinished(m.drained(s)) then calls == [Drain(s), Pick(m.drained(s))] else calls == [Drain(s)]
  }

  /**
   * One drive from a state: drain; then proceed, once, exactly if the drained machine wants to;
   * then, unless that failed, the end.
   */
  ghost predicate IsDrive<S, B, E, O>(m: Machine<S, B, E, O>, s: S, calls: seq<Call<S, B>>, error: Option<E>) {
    var d := m.drained(s);
    && |calls| >= 2 && calls[0] == Drain(s)
    && if m.wantsToProceed(d) then
         && calls[1] == Proceed(d) && error == m.proceed(d).1
         && if error.Some? then |calls| == 2 else IsEnd(m, m.proceed(d).0, calls[2..])
       else error == None && IsEnd(m, d, calls[1..])
  }

  /** A player after more calls: what they send and pick has been emitted and reported. */
  ghost predicate AfterCalls<S(!new), B(!new), E, O>(
      m: Machine<S, B, E, O>, p: Player<S, B, E, O>, calls: seq<Call<S, B>>, p': Player<S, B, E, O>)
  {
    && p'.calls == p.calls + calls
    && Chained(m, p.state, calls, p'.state)
    && p'.emitted == p.emitted + SentBy(m, calls)
    && p'.results == p.results + PickedBy(m, calls)
    && p'.index == p.index
  }

  /** Nothing called, nothing done. */
  lemma AfterNoCalls<S(!new), B(!new), E, O>(m: Machine<S, B, E, O>, p: Player<S, B, E, O>)
    ensures AfterCalls(m, p, [], p)
  {
    assert p.calls + [] == p.calls && p.emitted + [] == p.emitted && p.results + [] == p.results;
  }

  lemma AfterMoreCalls<S(!new), B(!new), E, O>(
      m: Machine<S, B, E, O>, p: Player<S, B, E, O>, calls: seq<Call<S, B>>, p1: Player<S, B, E, O>,
      more: seq<Call<S, B>>, p2: Player<S, B, E, O>)
    requires AfterCalls(m, p, calls, p1) && AfterCalls(m, p1, more, p2)
    ensures AfterCalls(m, p, calls + more, p2)
  {
    ChainedOn(m, p.state, calls, p1.state, more, p2.state);
    SentByAll(m, calls, more);
    assert p.calls + (calls + more) == p.calls + calls + more;
    assert p.emitted + (SentBy(m, calls) + SentBy(m, more)) == p.emitted + SentBy(m, calls) + SentBy(m, more);
    assert p.results + (PickedBy(m, calls) + PickedBy(m, more)) == p.results + PickedBy(m, calls) + PickedBy(m, more);
  }

  lemma SendingCalls<S(!new), B(!new), E, O>(m: Machine<S, B, E, O>, p: Player<S, B, E, O>)
    ensures AfterCalls(m, p, [Drain(p.state)], SendOutgoing(m, p))
  {
    assert SentBy(m, [Drain(p.state)]) == SentBy(m, []) + m.queue(p.state);
    assert PickedBy(m, [Drain(p.state)]) == PickedBy(m, []);
    assert p.results + [] == p.results;
  }

  lemma FinishingCalls<S(!new), B(!new), E, O>(m: Machine<S, B, E, O>, p: Player<S, B, E, O>)
    ensures AfterCalls(m, p, if m.isFinished(p.state) then [Pick(p.state)] else [], FinishIfPossible(m, p))
  {
    if m.isFinished(p.state) {
      var call: Call<S, B> := Pick(p.state);
      assert [call][..0] == [];
      assert p.emitted + SentBy(m, [call]) == p.emitted;
      var output := m.pick(p.state).1;
      if output.Some? && output.value.Ok? {
        assert PickedBy(m, [call]) == [output.value.value];
      } else {
        assert PickedBy(m, [call]) == [];
        assert p.results + [] == p.results;
      }
    } else {
      AfterNoCalls(m, p);
    }
  }

  lemma ProceedingCalls<S(!new), B(!new), E, O>(m: Machine<S, B, E, O>, p: Player<S, B, E, O>)
    ensures var (p', error) := ProceedIfNeeded(m, p);
            && AfterCalls(m, p, if m.wantsToProceed(p.state) then [Proceed(p.state)] else [], p')
            && error == (if m.wantsToProceed(p.state) then m.proceed(p.state).1 else None)
  {
    AfterNoCalls(m, p);
    var call: Call<S, B> := Proceed(p.state);
    assert [call][..0] == [];
    assert p.emitted + [] == p.emitted && p.results + [] == p.results;
    assert SentBy(m, [call]) == [] && PickedBy(m, [call]) == [];
  }

  lemma EndingCalls<S(!new), B(!new), E, O>(
      m: Machine<S, B, E, O>, p: Player<S, B, E, O>) returns (calls: seq<Call<S, B>>)
    ensures IsEnd(m, p.state, calls)
    ensures AfterCalls(m, p, calls, FinishIfPossible(m, RefreshTimer(m, SendOutgoing(m, p))))
    ensures FinishIfPossible(m, RefreshTimer(m, SendOutgoing(m, p))).currentRound == Some(m.round(m.drained(p.state)))
  {
    var p1 := RefreshTimer(m, SendOutgoing(m, p));
    SendingCalls(m, p);
    assert AfterCalls(m, p, [Drain(p.state)], p1);
    FinishingCalls(m, p1);
    var more := if m.isFinished(p1.state) then [Pick(p1.state)] else [];
    AfterMoreCalls(m, p, [Drain(p.state)], p1, more, FinishIfPossible(m, p1));
    calls := [Drain(p.state)] + more;
  }

  /** The round that a drive from this state leaves behind: that of the last drained machine. */
  function RoundAfter<S, B, E, O>(m: Machine<S, B, E, O>, s: S): nat {
    var d := m.drained(s);
    if !m.wantsToProceed(d) then m.round(m.drained(d))
    else if m.proceed(d).1.Some? then m.round(d)
    else m.round(m.drained(m.proceed(d).0))
  }

  /** One drive makes the calls of a drive, with their effects, and returns the error of its own `proceed`. */
  lemma DriveMakesCalls<S(!new), B(!new), E, O>(m: Machine<S, B, E, O>, p: Player<S, B, E, O>)
    returns (calls: seq<Call<S, B>>)
    ensures var (p', error) := MaybeProceed(m, p);
            && IsDrive(m, p.state, calls, error) && AfterCalls(m, p, calls, p')
            && p'.errors == p.errors && p'.msgCount == p.msgCount && p'.fed == p.fed
            && p'.currentRound == Some(RoundAfter(m, p.state))
  {
    var p1 := RefreshTimer(m, SendOutgoing(m, p));
    SendingCalls(m, p);
    assert AfterCalls(m, p, [Drain(p.state)], p1);
    ProceedingCalls(m, p1);
    var (p2, error) := ProceedIfNeeded(m, p1);
    var middle := if m.wantsToProceed(p1.state) then [Proceed(p1.state)] else [];
    AfterMoreCalls(m, p, [Drain(p.state)], p1, middle, p2);
    calls := [Drain(p.state)] + middle;
    if error.None? {
      var end := EndingCalls(m, p2);
      AfterMoreCalls(m, p, calls, p2, end, MaybeProceed(m, p).0);
      calls := calls + end;
      assert calls[|calls| - |end|..] == end;
    }
  }

  // ---- One input ----

  function ErrorsOf<B, E>(error: Option<E>, msg: Msg<B>): seq<(E, Msg<B>)> {
    match error
    case Some(e) => [(e, msg)]
    case None => []
  }

  /** A tick drives before the first message, and then no more; its error is swallowed. */
  ghost predicate TickMade<S(!new), B(!new), E(!new), O>(
      m: Machine<S, B, E, O>, p: Player<S, B, E, O>, p': Player<S, B, E, O>) {
    if p.msgCount == 0 then
      && p'.errors == p.errors && p'.fed == p.fed && p'.msgCount == 0
      && p'.currentRound == Some(RoundAfter(m, p.state))
      && exists drive, error :: IsDrive(m, p.state, drive, error) && AfterCalls(m, p, drive, p')
    else p' == p
  }

  /**
   * A message of another index, for all or for this one, is counted, fed and driven, once each,
   * and both errors are reported with it; any other changes nothing.
   */
  ghost predicate MessageMade<S(!new), B(!new), E(!new), O>(
      m: Machine<S, B, E, O>, p: Player<S, B, E, O>, msg: Msg<B>, p': Player<S, B, E, O>)
  {
    if msg.sender != p.index && msg.receiver in {None, Some(p.index)} then
      && p'.fed == p.fed + [msg] && p'.msgCount == (p.msgCount + 1) % 0x10000
      && p'.currentRound == Some(RoundAfter(m, m.handle(p.state, msg).0))
      && exists drive, error ::
           && IsDrive(m, m.handle(p.state, msg).0, drive, error)
           && AfterCalls(m, p, [Handle(p.state, msg)] + drive, p')
           && p'.errors == p.errors + ErrorsOf(m.handle(p.state, msg).1, msg) + ErrorsOf(error, msg)
    else p' == p
  }

  lemma TickMakesCalls<S(!new), B(!new), E(!new), O>(m: Machine<S, B, E, O>, p: Player<S, B, E, O>)
    ensures TickMade(m, p, OnTick(m, p))
  {
    if p.msgCount == 0 {
      var drive := DriveMakesCalls(m, p);
    }
  }

  lemma HandlingCalls<S(!new), B(!new), E(!new), O>(
      m: Machine<S, B, E, O>, p: Player<S, B, E, O>, p1: Player<S, B, E, O>, msg: Msg<B>)
    requires p1.calls == p.calls + [Handle(p.state, msg)] && p1.state == m.handle(p.state, msg).0
    requires p1.emitted == p.emitted && p1.results == p.results && p1.index == p.index
    ensures AfterCalls(m, p, [Handle(p.state, msg)], p1)
  {
    assert [Handle(p.state, msg)][..0] == [];
    assert SentBy(m, [Handle(p.state, msg)]) == [] && PickedBy(m, [Handle(p.state, msg)]) == [];
    assert p.emitted + [] == p.emitted && p.results + [] == p.results;
  }

  lemma ReportingKeepsCalls<S(!new), B(!new), E(!new), O>(
      m: Machine<S, B, E, O>, p: Player<S, B, E, O>, calls: seq<Call<S, B>>, p1: Player<S, B, E, O>,
      error: Option<E>, msg: Msg<B>)
    requires AfterCalls(m, p, calls, p1)
    ensures AfterCalls(m, p, calls, Report(p1, error, msg))
    ensures Report(p1, error, msg).errors == p1.errors + ErrorsOf(error, msg)
  {
  }

  lemma MessageMakesCalls<S(!new), B(!new), E(!new), O>(m: Machine<S, B, E, O>, p: Player<S, B, E, O>, msg: Msg<B>)
    ensures MessageMade(m, p, msg, OnMessage(m, p, msg))
  {
    if msg.sender != p.index && msg.receiver in {None, Some(p.index)} {
      var (state, error) := m.handle(p.state, msg);
      var p0 := p.(
        msgCount := Truncate16(p.msgCount + 1), state := state, fed := p.fed + [msg],
        calls := p.calls + [Handle(p.state, msg)]);
      var p1 := Report(p0, error, msg);
      HandlingCalls(m, p, p1, msg);
      var drive := DriveMakesCalls(m, p1);
      AfterMoreCalls(m, p, [Handle(p.state, msg)], p1, drive, MaybeProceed(m, p1).0);
      ReportingKeepsCalls(m, p, [Handle(p.state, msg)] + drive, MaybeProceed(m, p1).0, MaybeProceed(m, p1).1, msg);
      assert p1.errors == p.errors + ErrorsOf(error, msg);
    }
  }

  // ---- Any inputs ----

  ghost predicate AnyDrive<S, B, E(!new), O>(m: Machine<S, B, E, O>, calls: seq<Call<S, B>>) {
    calls != [] && exists error :: IsDrive(m, calls[0].before, calls, error)
  }

  /** A drive, or a message and the drive after it. */
  ghost predicate IsTurn<S, B, E(!new), O>(m: Machine<S, B, E, O>, calls: seq<Call<S, B>>) {
    AnyDrive(m, calls) || (calls != [] && calls[0].Handle? && AnyDrive(m, calls[1..]))
  }

  /** The calls are whole drives, each after the message it is for, if it is for one. */
  ghost predicate InDrives<S, B, E(!new), O>(m: Machine<S, B, E, O>, calls: seq<Call<S, B>>)
    decreases |calls|
  {
    calls == [] || exists k :: 0 <= k < |calls| && InDrives(m, calls[..k]) && IsTurn(m, calls[k..])
  }

  lemma OneMoreTurn<S, B, E(!new), O>(m: Machine<S, B, E, O>, calls: seq<Call<S, B>>, turn: seq<Call<S, B>>)
    requires InDrives(m, calls) && turn != [] && IsTurn(m, turn)
    ensures InDrives(m, calls + turn)
  {
    assert (calls + turn)[..|calls|] == calls && (calls + turn)[|calls|..] == turn;
  }

  lemma DriveProceedsOnce<S, B, E(!new), O>(m: Machine<S, B, E, O>, drive: seq<Call<S, B>>, j: nat)
    requires AnyDrive(m, drive) && j < |drive| && drive[j].Proceed?
    ensures j == 1 && m.wantsToProceed(drive[j].before)
  {
    var error :| IsDrive(m, drive[0].before, drive, error);
  }

  lemma TurnProceedsWhenWanted<S, B, E(!new), O>(m: Machine<S, B, E, O>, turn: seq<Call<S, B>>, j: nat)
    requires IsTurn(m, turn) && j < |turn| && turn[j].Proceed?
    ensures m.wantsToProceed(turn[j].before)
  {
    if AnyDrive(m, turn) {
      DriveProceedsOnce(m, turn, j);
    } else {
      DriveProceedsOnce(m, turn[1..], j - 1);
    }
  }

  lemma {:induction false} ProceedOnlyInDrive<S, B, E(!new), O>(
      m: Machine<S, B, E, O>, calls: seq<Call<S, B>>, i: nat)
    requires InDrives(m, calls) && i < |calls| && calls[i].Proceed?
    ensures m.wantsToProceed(calls[i].before)
    decreases |calls|
  {
    var k :| 0 <= k < |calls| && InDrives(m, calls[..k]) && IsTurn(m, calls[k..]);
    if i < k {
      ProceedOnlyInDrive(m, calls[..k], i);
    } else {
      assert calls[k..][i - k] == calls[i];
      TurnProceedsWhenWanted(m, calls[k..], i - k);
    }
  }

  /** What holds of the calls after any inputs. */
  ghost predicate CallsOk<S(!new), B(!new), E(!new), O>(m: Machine<S, B, E, O>, state: S, p: Player<S, B, E, O>) {
    && Chained(m, state, p.calls, p.state) && InDrives(m, p.calls)
    && p.emitted == SentBy(m, p.calls) && p.results == PickedBy(m, p.calls)
  }

  lemma CallsStayOk<S(!new), B(!new), E(!new), O>(
      m: Machine<S, B, E, O>, state: S, p: Player<S, B, E, O>, calls: seq<Call<S, B>>, p': Player<S, B, E, O>)
    requires CallsOk(m, state, p) && AfterCalls(m, p, calls, p') && InDrives(m, p.calls + calls)
    ensures CallsOk(m, state, p')
  {
    ChainedOn(m, state, p.calls, p.state, calls, p'.state);
    SentByAll(m, p.calls, calls);
  }

  lemma InputKeepsCalls<S(!new), B(!new), E(!new), O>(
      m: Machine<S, B, E, O>, state: S, p: Player<S, B, E, O>, input: Input<B>, p': Player<S, B, E, O>)
    requires CallsOk(m, state, p)
    requires match input case Tick => TickMade(m, p, p') case Incoming(msg) => MessageMade(m, p, msg, p')
    ensures CallsOk(m, state, p')
  {
    if p' != p {
      match input
      case Tick =>
        var drive, error :| IsDrive(m, p.state, drive, error) && AfterCalls(m, p, drive, p');
        assert AnyDrive(m, drive);
        OneMoreTurn(m, p.calls, drive);
        CallsStayOk(m, state, p, drive, p');
      case Incoming(msg) =>
        var drive, error :|
          && IsDrive(m, m.handle(p.state, msg).0, drive, error)
          && AfterCalls(m, p, [Handle(p.state, msg)] + drive, p')
          && p'.errors == p.errors + ErrorsOf(m.handle(p.state, msg).1, msg) + ErrorsOf(error, msg);
        assert ([Handle(p.state, msg)] + drive)[1..] == drive && AnyDrive(m, drive);
        OneMoreTurn(m, p.calls, [Handle(p.state, msg)] + drive);
        CallsStayOk(m, state, p, [Handle(p.state, msg)] + drive, p');
    }
  }

  /**
   * The calls on the machine, over any inputs. They lead from its first state to its present
   * one and are whole drives: each drains the queue, proceeds exactly once if the drained machine
   * wants to and not at all otherwise, and, unless that failed, drains again and picks the output
   * of a finished machine. What was emitted is what was drained, what was reported is what was
   * picked.
   */
  lemma {:induction false} DriverMakesCalls<S(!new), B(!new), E(!new), O>(
      m: Machine<S, B, E, O>, index: U16, state: S, inputs: seq<Input<B>>)
    ensures CallsOk(m, state, After(m, Started(index, state), inputs))
  {
    if inputs != [] {
      var n := |inputs| - 1;
      DriverMakesCalls(m, index, state, inputs[..n]);
      var p := After(m, Started(index, state), inputs[..n]);
      match inputs[n] {
        case Tick => TickMakesCalls(m, p);
        case Incoming(msg) => MessageMakesCalls(m, p, msg);
      }
      InputKeepsCalls(m, state, p, inputs[n], After(m, Started(index, state), inputs));
    }
  }

  /** In particular `proceed` is only ever called in states that want it. */
  lemma {:induction false} ProceedsOnlyWhenWanted<S(!new), B(!new), E(!new), O>(
      m: Machine<S, B, E, O>, index: U16, state: S, inputs: seq<Input<B>>)
    ensures var calls := After(m, Started(index, state), inputs).calls;
            forall i | 0 <= i < |calls| && calls[i].Proceed? :: m.wantsToProceed(calls[i].before)
  {
    DriverMakesCalls(m, index, state, inputs);
    var calls := After(m, Started(index, state), inputs).calls;
    forall i | 0 <= i < |calls| && calls[i].Proceed?
      ensures m.wantsToProceed(calls[i].before)
    {
      ProceedOnlyInDrive(m, calls, i);
    }
  }
}

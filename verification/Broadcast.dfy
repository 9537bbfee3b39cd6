/**
 * The message broker: rooms with an append-only log under a read/write lock, subscribers that
 * wait for a notification, and rooms that are replaced once nobody watches them. Steps of all
 * clients interleave freely. A step touches one shared thing: a log, a counter, the wake-ups or
 * the room map. A look-up under the map's read lock is one step, namely its counter load, since
 * the map cannot change under it; a look-up under the write lock is two, load and map write,
 * since subscriptions do not need that lock.
 */
module Broadcast {
  import opened Basics

  /** `subscribers` is a 16-bit atomic; `wakeups` counts the calls of `notify_waiters`. */
  datatype Room = Room(messages: seq<string>, subscribers: U16, wakeups: nat)

  const EMPTY_ROOM := Room([], 0, 0)

  function WithMessage(room: Room, message: string): Room {
    room.(messages := room.messages + [message])
  }

  function WithWakeup(room: Room): Room {
    room.(wakeups := room.wakeups + 1)
  }

  function WithSubscriber(room: Room): Room {
    room.(subscribers := NextId(room.subscribers))
  }

  function WithoutSubscriber(room: Room): Room {
    room.(subscribers := if room.subscribers == 0 then 0xFFFF else room.subscribers - 1)
  }

  predicate IsAbandoned(room: Room) {
    room.subscribers == 0
  }

  /** The 16-bit successor of a cursor. */
  function NextId(id: U16): U16 {
    if id == 0xFFFF then 0 else id + 1
  }

  /** `Last-Event-ID`: a subscription starts behind the last seen message, or at the first one. */
  function StartOf(lastSeen: Option<U16>): U16 {
    match lastSeen
    case Some(id) => NextId(id)
    case None => 0
  }

  // ---- Rooms and subscriptions as objects ----

  class RoomCell {
    var messages: seq<string>
    var subscribers: U16
    ghost var wakeups: nat

    ghost function View(): Room
      reads this
    {
      Room(messages, subscribers, wakeups)
    }

    constructor ()
      ensures View() == EMPTY_ROOM
    {
      messages, subscribers, wakeups := [], 0, 0;
    }

    /** Push and notification, both under the write lock. */
    method Publish(message: string)
      modifies this`messages, this`wakeups
      ensures View() == WithWakeup(WithMessage(old(View()), message))
    {
      messages := messages + [message];
      wakeups := wakeups + 1;
    }

    method Subscribe(lastSeen: Option<U16>) returns (s: Subscription)
      modifies this`subscribers
      ensures View() == WithSubscriber(old(View()))
      ensures fresh(s) && s.room == this && s.nextEvent == StartOf(lastSeen)
    {
      subscribers := if subscribers == 0xFFFF then 0 else subscribers + 1;
      s := new Subscription(this, StartOf(lastSeen));
    }
  }

  class Subscription {
    const room: RoomCell
    var nextEvent: U16

    constructor (room: RoomCell, nextEvent: U16)
      ensures this.room == room && this.nextEvent == nextEvent
    {
      this.room := room;
      this.nextEvent := nextEvent;
    }

    /**
     * One pass of the waiting loop under the read lock: the next message, or a wait ticket for notifications
     * after this one.
     */
    method Poll() returns (r: Option<(U16, string)>, ghost ticket: nat)
      modifies this
      ensures r.Some? <==> old(nextEvent) < |room.messages|
      ensures r.Some? ==>
          r.value == (old(nextEvent), room.messages[old(nextEvent)]) && nextEvent == NextId(old(nextEvent))
      ensures r.None? ==> nextEvent == old(nextEvent) && ticket == room.wakeups
    {
      ticket := room.wakeups;
      if nextEvent < |room.messages| {
        var eventId := nextEvent;
        nextEvent := if eventId == 0xFFFF then 0 else eventId + 1;
        return Some((eventId, room.messages[eventId])), ticket;
      }
      return None, ticket;
    }

    method Drop()
      modifies room`subscribers
      ensures room.View() == WithoutSubscriber(old(room.View()))
    {
      room.subscribers := if room.subscribers == 0 then 0xFFFF else room.subscribers - 1;
    }
  }

  // ---- The interleaving machine ----

  /** Where a subscriber stands in its waiting loop. `Reading` and `Armed` hold the room's read lock. */
  datatype Phase = Idle | Reading | Armed(ticket: nat) | Parked(ticket: nat)

  /** All but `room`, `next` and `phase` is history; `request` numbers the request it came from. */
  datatype Sub = Sub(
    name: string,
    request: nat,
    room: nat,
    start: U16,
    next: U16,
    phase: Phase,
    delivered: seq<(U16, string)>)

  /**
   * A request on its way: looking under the map's read lock, having missed there, about to write
   * the map under its write lock, then holding a room. The last three hold the log's write lock.
   */
  datatype Task =
    | Looking(name: string) | Missed(name: string) | Replacing(name: string) | Holding(name: string, room: nat)
    | Locked(room: nat) | Pushed(room: nat) | Notified(room: nat)

  datatype Broker = Broker(
    rooms: seq<Room>,
    mapped: map<string, nat>,
    tasks: map<nat, Task>,
    subs: map<nat, Sub>,
    nextTask: nat,
    nextSub: nat)

  const NO_CLIENTS := Broker([], map[], map[], map[], 0, 0)

  datatype Step =
    | Ask(name: string)
    | FastLookup(t: nat)
    | Judge(t: nat)
    | Install(t: nat)
    | Abort(t: nat)
    | Subscribe(t: nat, lastSeen: Option<U16>)
    | LockWrite(t: nat)
    | Push(t: nat, message: string)
    | Notify(t: nat)
    | Unlock(t: nat)
    | LockRead(s: nat)
    | Deliver(s: nat)
    | Arm(s: nat)
    | Park(s: nat)
    | Wake(s: nat)
    | Drop(s: nat)

  predicate HoldsWrite(task: Task, room: nat) {
    (task.Locked? || task.Pushed? || task.Notified?) && task.room == room
  }

  predicate HoldsRead(sub: Sub, room: nat) {
    (sub.phase.Reading? || sub.phase.Armed?) && sub.room == room
  }

  predicate NoWriter(b: Broker, room: nat) {
    forall t | t in b.tasks :: !HoldsWrite(b.tasks[t], room)
  }

  /** Nobody holds the write lock of the room map. */
  predicate MapIsFree(b: Broker) {
    forall t | t in b.tasks :: !b.tasks[t].Replacing?
  }

  predicate NoReader(b: Broker, room: nat) {
    forall s | s in b.subs :: !HoldsRead(b.subs[s], room)
  }

  predicate IsSearching(task: Task) {
    task.Looking? || task.Missed? || task.Replacing?
  }

  /** References stay within what exists. */
  ghost predicate Sound(b: Broker) {
    && (forall name | name in b.mapped :: b.mapped[name] < |b.rooms|)
    && (forall t | t in b.tasks :: t < b.nextTask && (IsSearching(b.tasks[t]) || b.tasks[t].room < |b.rooms|))
    && (forall s | s in b.subs :: s < b.nextSub && b.subs[s].request < b.nextTask && b.subs[s].room < |b.rooms|)
  }

  /** Every step is of one of these kinds, or a `Subscribe`. */
  predicate IsLookup(step: Step) {
    step.Ask? || step.FastLookup? || step.Judge? || step.Install? || step.Abort?
  }

  predicate IsPublishing(step: Step) {
    step.LockWrite? || step.Push? || step.Notify? || step.Unlock?
  }

  predicate IsReading(step: Step) {
    step.LockRead? || step.Deliver? || step.Arm? || step.Park? || step.Wake? || step.Drop?
  }

  predicate CanStep(b: Broker, step: Step) {
    match step
    case Ask(_) => true
    case FastLookup(t) => t in b.tasks && b.tasks[t].Looking? && MapIsFree(b)
    case Judge(t) => t in b.tasks && b.tasks[t].Missed? && MapIsFree(b)
    case Install(t) => t in b.tasks && b.tasks[t].Replacing?
    case Abort(t) => t in b.tasks && (b.tasks[t].Looking? || b.tasks[t].Missed? || b.tasks[t].Holding?)
    case Subscribe(t, _) => t in b.tasks && b.tasks[t].Holding?
    case LockWrite(t) =>
      t in b.tasks && b.tasks[t].Holding? && NoWriter(b, b.tasks[t].room) && NoReader(b, b.tasks[t].room)
    case Push(t, _) => t in b.tasks && b.tasks[t].Locked?
    case Notify(t) => t in b.tasks && b.tasks[t].Pushed?
    case Unlock(t) => t in b.tasks && b.tasks[t].Notified?
    case LockRead(s) => s in b.subs && b.subs[s].phase.Idle? && NoWriter(b, b.subs[s].room)
    case Deliver(s) =>
      && s in b.subs && b.subs[s].phase.Reading?
      && b.subs[s].room < |b.rooms| && b.subs[s].next < |b.rooms[b.subs[s].room].messages|
    case Arm(s) =>
      && s in b.subs && b.subs[s].phase.Reading?
      && b.subs[s].room < |b.rooms| && b.subs[s].next >= |b.rooms[b.subs[s].room].messages|
    case Park(s) => s in b.subs && b.subs[s].phase.Armed?
    case Wake(s) =>
      && s in b.subs && b.subs[s].phase.Parked?
      && b.subs[s].room < |b.rooms| && b.subs[s].phase.ticket < b.rooms[b.subs[s].room].wakeups
    case Drop(s) => s in b.subs
  }

  /** The mapped room of this name, unless nobody watches it. */
  function WatchedRoom(b: Broker, name: string): Option<nat>
    requires Sound(b)
  {
    if name in b.mapped && !IsAbandoned(b.rooms[b.mapped[name]]) then Some(b.mapped[name]) else None
  }

  function MoveTask(b: Broker, t: nat, task: Task): Broker {
    b.(tasks := b.tasks[t := task])
  }

  function MoveSub(b: Broker, s: nat, sub: Sub): Broker {
    b.(subs := b.subs[s := sub])
  }

  function SetRoom(b: Broker, r: nat, room: Room): Broker
    requires r < |b.rooms|
  {
    b.(rooms := b.rooms[r := room])
  }

  function After(b: Broker, step: Step): Broker
    requires Sound(b) && CanStep(b, step)
  {
    match step
    case Ask(name) => b.(tasks := b.tasks[b.nextTask := Looking(name)], nextTask := b.nextTask + 1)
    case FastLookup(t) =>
      (match WatchedRoom(b, b.tasks[t].name)
       case Some(r) => MoveTask(b, t, Holding(b.tasks[t].name, r))
       case None => MoveTask(b, t, Missed(b.tasks[t].name)))
    case Judge(t) =>
      (match WatchedRoom(b, b.tasks[t].name)
       case Some(r) => MoveTask(b, t, Holding(b.tasks[t].name, r))
       case None => MoveTask(b, t, Replacing(b.tasks[t].name)))
    case Install(t) =>
      var name, r := b.tasks[t].name, |b.rooms|;
      MoveTask(b.(rooms := b.rooms + [EMPTY_ROOM], mapped := b.mapped[name := r]), t, Holding(name, r))
    case Abort(t) => b.(tasks := b.tasks - {t})
    case Subscribe(t, lastSeen) =>
      var r := b.tasks[t].room;
      var b1 := SetRoom(b.(tasks := b.tasks - {t}), r, WithSubscriber(b.rooms[r]));
      var sub := Sub(b.tasks[t].name, t, r, StartOf(lastSeen), StartOf(lastSeen), Idle, []);
      b1.(subs := b1.subs[b.nextSub := sub], nextSub := b.nextSub + 1)
    case LockWrite(t) => MoveTask(b, t, Locked(b.tasks[t].room))
    case Push(t, message) =>
      var r := b.tasks[t].room;
      MoveTask(SetRoom(b, r, WithMessage(b.rooms[r], message)), t, Pushed(r))
    case Notify(t) =>
      var r := b.tasks[t].room;
      MoveTask(SetRoom(b, r, WithWakeup(b.rooms[r])), t, Notified(r))
    case Unlock(t) => b.(tasks := b.tasks - {t})
    case LockRead(s) => MoveSub(b, s, b.subs[s].(phase := Reading))
    case Deliver(s) =>
      var sub := b.subs[s];
      var message := b.rooms[sub.room].messages[sub.next];
      MoveSub(b, s, sub.(next := NextId(sub.next), phase := Idle, delivered := sub.delivered + [(sub.next, message)]))
    case Arm(s) => MoveSub(b, s, b.subs[s].(phase := Armed(b.rooms[b.subs[s].room].wakeups)))
    case Park(s) => MoveSub(b, s, b.subs[s].(phase := Parked(b.subs[s].phase.ticket)))
    case Wake(s) => MoveSub(b, s, b.subs[s].(phase := Idle))
    case Drop(s) =>
      var r := b.subs[s].room;
      SetRoom(b.(subs := b.subs - {s}), r, WithoutSubscriber(b.rooms[r]))
  }

  lemma StepIsSound(b: Broker, step: Step)
    requires Sound(b) && CanStep(b, step)
    ensures Sound(After(b, step))
  {
  }

  ghost predicate Legal(steps: seq<Step>)
    decreases |steps|, 0
  {
    steps == [] ||
    var n := |steps| - 1;
    Legal(steps[..n]) && CanStep(Reached(steps[..n]), steps[n])
  }

  ghost function Reached(steps: seq<Step>): (b: Broker)
    requires Legal(steps)
    ensures Sound(b)
    decreases |steps|, 1
  {
    if steps == [] then NO_CLIENTS
    else
      var n := |steps| - 1;
      StepIsSound(Reached(steps[..n]), steps[n]);
      After(Reached(steps[..n]), steps[n])
  }

  // ---- Mutual exclusion ----

  /** One writer of a log at a time, and no readers beside it; one writer of the room map. */
  ghost predicate LocksOk(b: Broker) {
    && (forall t, t', room |
          t in b.tasks && t' in b.tasks && HoldsWrite(b.tasks[t], room) && HoldsWrite(b.tasks[t'], room) ::
          t == t')
    && (forall t, s, room | t in b.tasks && s in b.subs && HoldsWrite(b.tasks[t], room) :: !HoldsRead(b.subs[s], room))
    && (forall t, t' | t in b.tasks && t' in b.tasks && b.tasks[t].Replacing? && b.tasks[t'].Replacing? :: t == t')
  }

  lemma LookupKeepsLocks(b: Broker, step: Step)
    requires Sound(b) && LocksOk(b) && CanStep(b, step) && (IsLookup(step) || step.Subscribe?)
    ensures LocksOk(After(b, step))
  {
  }

  lemma PublishKeepsLocks(b: Broker, step: Step)
    requires Sound(b) && LocksOk(b) && CanStep(b, step) && IsPublishing(step)
    ensures LocksOk(After(b, step))
  {
  }

  lemma ReadingKeepsLocks(b: Broker, step: Step)
    requires Sound(b) && LocksOk(b) && CanStep(b, step) && IsReading(step)
    ensures LocksOk(After(b, step))
  {
  }

  lemma StepKeepsLocks(b: Broker, step: Step)
    requires Sound(b) && LocksOk(b) && CanStep(b, step)
    ensures LocksOk(After(b, step))
  {
    if IsReading(step) {
      ReadingKeepsLocks(b, step);
    } else if IsPublishing(step) {
      PublishKeepsLocks(b, step);
    } else {
      LookupKeepsLocks(b, step);
    }
  }

  // ---- No lost wake-up ----

  /** A publisher of this room has pushed and is about to notify, still under the write lock. */
  ghost predicate AboutToNotify(b: Broker, room: nat) {
    exists t :: t in b.tasks && b.tasks[t] == Pushed(room)
  }

  /** A waiting subscriber that no notification has reached has seen the whole log. */
  ghost predicate Awaits(room: Room, pushed: bool, sub: Sub) {
    (sub.phase.Armed? || sub.phase.Parked?) ==>
      && sub.phase.ticket <= room.wakeups
      && (sub.phase.ticket == room.wakeups && !pushed ==> sub.next >= |room.messages|)
  }

  ghost predicate WakeupsOk(b: Broker) {
    forall s | s in b.subs && b.subs[s].room < |b.rooms| ::
      Awaits(b.rooms[b.subs[s].room], AboutToNotify(b, b.subs[s].room), b.subs[s])
  }

  /** Publishing steps are seen by every subscriber of the room. */
  lemma PublishKeepsWakeups(b: Broker, step: Step)
    requires Sound(b) && LocksOk(b) && WakeupsOk(b) && CanStep(b, step)
    requires IsPublishing(step)
    ensures WakeupsOk(After(b, step))
  {
    var b' := After(b, step);
    forall s | s in b'.subs && b'.subs[s].room < |b'.rooms|
      ensures Awaits(b'.rooms[b'.subs[s].room], AboutToNotify(b', b'.subs[s].room), b'.subs[s])
    {
      var room := b.subs[s].room;
      assert Awaits(b.rooms[room], AboutToNotify(b, room), b.subs[s]);
      if AboutToNotify(b, room) {
        var t :| t in b.tasks && b.tasks[t] == Pushed(room);
        assert HoldsWrite(b.tasks[t], room);
        assert step.t != t ==> b'.tasks[t] == Pushed(room);
      }
      if step.Push? && b.tasks[step.t].room == room {
        assert b'.tasks[step.t] == Pushed(room);
      }
    }
  }

  lemma OtherTasksKeepWakeups(b: Broker, step: Step)
    requires Sound(b) && WakeupsOk(b) && CanStep(b, step)
    requires IsLookup(step) || step.Subscribe?
    ensures WakeupsOk(After(b, step))
  {
    var b' := After(b, step);
    forall s | s in b'.subs && b'.subs[s].room < |b'.rooms|
      ensures Awaits(b'.rooms[b'.subs[s].room], AboutToNotify(b', b'.subs[s].room), b'.subs[s])
    {
      if s in b.subs {
        var room := b.subs[s].room;
        assert Awaits(b.rooms[room], AboutToNotify(b, room), b.subs[s]);
        if AboutToNotify(b, room) {
          var t :| t in b.tasks && b.tasks[t] == Pushed(room);
          assert b'.tasks[t] == Pushed(room);
        }
      }
    }
  }

  lemma SubscriberKeepsWakeups(b: Broker, step: Step)
    requires Sound(b) && LocksOk(b) && WakeupsOk(b) && CanStep(b, step)
    requires IsReading(step)
    ensures WakeupsOk(After(b, step))
  {
    var b' := After(b, step);
    assert b'.tasks == b.tasks;
    forall s | s in b'.subs && b'.subs[s].room < |b'.rooms|
      ensures Awaits(b'.rooms[b'.subs[s].room], AboutToNotify(b', b'.subs[s].room), b'.subs[s])
    {
      assert Awaits(b.rooms[b.subs[s].room], AboutToNotify(b, b.subs[s].room), b.subs[s]);
      assert AboutToNotify(b', b.subs[s].room) == AboutToNotify(b, b.subs[s].room);
    }
  }

  // ---- Subscriber counts ----

  ghost function Watching(b: Broker, room: nat): set<nat> {
    set s | s in b.subs && b.subs[s].room == room
  }

  /** A 16-bit counter after n increments. */
  ghost function Counter16(n: nat): U16 {
    if n == 0 then 0 else NextId(Counter16(n - 1))
  }

  lemma {:induction false} CounterIsModulo(n: nat)
    ensures Counter16(n) == n % 0x10000
  {
    if n > 0 {
      CounterIsModulo(n - 1);
    }
  }

  ghost predicate CountsOk(b: Broker) {
    forall room | 0 <= room < |b.rooms| :: b.rooms[room].subscribers == Counter16(|Watching(b, room)|)
  }

  lemma SubscribeAddsWatcher(b: Broker, t: nat, lastSeen: Option<U16>, room: nat)
    requires Sound(b) && CanStep(b, Subscribe(t, lastSeen))
    ensures Watching(After(b, Subscribe(t, lastSeen)), room) ==
            if room == b.tasks[t].room then Watching(b, room) + {b.nextSub} else Watching(b, room)
    ensures b.nextSub !in Watching(b, room)
  {
  }

  lemma SubscribeKeepsCounts(b: Broker, t: nat, lastSeen: Option<U16>)
    requires Sound(b) && CountsOk(b) && CanStep(b, Subscribe(t, lastSeen))
    ensures CountsOk(After(b, Subscribe(t, lastSeen)))
  {
    var b', mine := After(b, Subscribe(t, lastSeen)), b.tasks[t].room;
    forall room | 0 <= room < |b'.rooms|
      ensures b'.rooms[room].subscribers == Counter16(|Watching(b', room)|)
    {
      SubscribeAddsWatcher(b, t, lastSeen, room);
      assert b.rooms[room].subscribers == Counter16(|Watching(b, room)|);
    }
  }

  lemma DropKeepsCounts(b: Broker, s: nat)
    requires Sound(b) && CountsOk(b) && CanStep(b, Drop(s))
    ensures CountsOk(After(b, Drop(s)))
  {
    var b', mine := After(b, Drop(s)), b.subs[s].room;
    forall room | 0 <= room < |b'.rooms|
      ensures b'.rooms[room].subscribers == Counter16(|Watching(b', room)|)
    {
      assert b.rooms[room].subscribers == Counter16(|Watching(b, room)|);
      if room == mine {
        assert s in Watching(b, room);
        assert Watching(b', room) == Watching(b, room) - {s};
      } else {
        assert Watching(b', room) == Watching(b, room);
      }
    }
  }

  lemma OthersKeepCounts(b: Broker, step: Step)
    requires Sound(b) && CountsOk(b) && CanStep(b, step) && !step.Subscribe? && !step.Drop?
    ensures CountsOk(After(b, step))
  {
    var b' := After(b, step);
    assert b'.subs.Keys == b.subs.Keys && forall s | s in b.subs :: b'.subs[s].room == b.subs[s].room;
    forall room | 0 <= room < |b'.rooms|
      ensures b'.rooms[room].subscribers == Counter16(|Watching(b', room)|)
    {
      assert Watching(b', room) == Watching(b, room);
      if room < |b.rooms| {
        assert b.rooms[room].subscribers == Counter16(|Watching(b, room)|);
      } else {
        assert Watching(b, room) == {};
      }
    }
  }

  lemma StepKeepsCounts(b: Broker, step: Step)
    requires Sound(b) && CountsOk(b) && CanStep(b, step)
    ensures CountsOk(After(b, step))
  {
    match step
    case Subscribe(t, lastSeen) => SubscribeKeepsCounts(b, t, lastSeen);
    case Drop(s) => DropKeepsCounts(b, s);
    case _ => OthersKeepCounts(b, step);
  }

  // ---- What was delivered ----

  /** The id of the k-th delivery of a subscription. */
  ghost function IdAt(start: U16, k: nat): U16 {
    if k == 0 then start else NextId(IdAt(start, k - 1))
  }

  lemma {:induction false} IdsAreConsecutive(start: U16, k: nat)
    ensures IdAt(start, k) == (start + k) % 0x10000
    ensures start + k < 0x10000 ==> IdAt(start, k) == start + k
  {
    if k > 0 {
      IdsAreConsecutive(start, k - 1);
    }
  }

  /** Each delivery carries its log entry, the ids follow each other, the cursor comes next. */
  ghost predicate StreamOk(messages: seq<string>, sub: Sub) {
    && sub.next == IdAt(sub.start, |sub.delivered|)
    && forall k | 0 <= k < |sub.delivered| ::
         && sub.delivered[k].0 == IdAt(sub.start, k) < |messages|
         && sub.delivered[k].1 == messages[sub.delivered[k].0]
  }

  ghost predicate StreamsOk(b: Broker) {
    forall s | s in b.subs && b.subs[s].room < |b.rooms| :: StreamOk(b.rooms[b.subs[s].room].messages, b.subs[s])
  }

  /** Rooms are never forgotten and logs only grow. */
  ghost predicate LogsGrow(b: Broker, b': Broker) {
    |b.rooms| <= |b'.rooms| && forall r | 0 <= r < |b.rooms| :: b.rooms[r].messages <= b'.rooms[r].messages
  }

  lemma StepGrowsLogs(b: Broker, step: Step)
    requires Sound(b) && CanStep(b, step)
    ensures LogsGrow(b, After(b, step))
  {
  }

  lemma DeliverKeepsStream(messages: seq<string>, sub: Sub, sub': Sub)
    requires StreamOk(messages, sub) && sub.next < |messages|
    requires sub'.start == sub.start && sub'.next == NextId(sub.next)
    requires sub'.delivered == sub.delivered + [(sub.next, messages[sub.next])]
    ensures StreamOk(messages, sub')
  {
  }

  lemma ReadingKeepsStreams(b: Broker, step: Step)
    requires Sound(b) && StreamsOk(b) && CanStep(b, step) && IsReading(step)
    ensures StreamsOk(After(b, step))
  {
    var b' := After(b, step);
    forall s | s in b'.subs && b'.subs[s].room < |b'.rooms|
      ensures StreamOk(b'.rooms[b'.subs[s].room].messages, b'.subs[s])
    {
      var log := b.rooms[b.subs[s].room].messages;
      assert StreamOk(log, b.subs[s]);
      if step.Deliver? && step.s == s {
        DeliverKeepsStream(log, b.subs[s], b'.subs[s]);
      }
    }
  }

  lemma GrowthKeepsStream(messages: seq<string>, messages': seq<string>, sub: Sub)
    requires StreamOk(messages, sub) && messages <= messages'
    ensures StreamOk(messages', sub)
  {
  }

  lemma TasksKeepStreams(b: Broker, step: Step)
    requires Sound(b) && StreamsOk(b) && CanStep(b, step) && !IsReading(step)
    ensures StreamsOk(After(b, step))
  {
    var b' := After(b, step);
    StepGrowsLogs(b, step);
    forall s | s in b'.subs && b'.subs[s].room < |b'.rooms|
      ensures StreamOk(b'.rooms[b'.subs[s].room].messages, b'.subs[s])
    {
      if s in b.subs {
        GrowthKeepsStream(b.rooms[b.subs[s].room].messages, b'.rooms[b.subs[s].room].messages, b.subs[s]);
      }
    }
  }

  lemma StepKeepsStreams(b: Broker, step: Step)
    requires Sound(b) && StreamsOk(b) && CanStep(b, step)
    ensures StreamsOk(After(b, step))
  {
    if IsReading(step) {
      ReadingKeepsStreams(b, step);
    } else {
      TasksKeepStreams(b, step);
    }
  }

  // ---- Runs ----

  ghost predicate BrokerOk(b: Broker) {
    Sound(b) && LocksOk(b) && WakeupsOk(b) && CountsOk(b) && StreamsOk(b)
  }

  lemma StepKeepsBroker(b: Broker, step: Step)
    requires BrokerOk(b) && CanStep(b, step)
    ensures BrokerOk(After(b, step))
  {
    StepIsSound(b, step);
    StepKeepsLocks(b, step);
    StepKeepsCounts(b, step);
    StepKeepsStreams(b, step);
    if IsPublishing(step) {
      PublishKeepsWakeups(b, step);
    } else if IsLookup(step) || step.Subscribe? {
      OtherTasksKeepWakeups(b, step);
    } else {
      SubscriberKeepsWakeups(b, step);
    }
  }

  lemma {:induction false} RunKeepsBroker(steps: seq<Step>)
    requires Legal(steps)
    ensures BrokerOk(Reached(steps))
  {
    if steps != [] {
      var n := |steps| - 1;
      RunKeepsBroker(steps[..n]);
      StepKeepsBroker(Reached(steps[..n]), steps[n]);
    }
  }

  lemma {:induction false} RunGrowsLogs(prefix: seq<Step>, steps: seq<Step>)
    requires Legal(steps) && prefix <= steps && Legal(prefix)
    ensures LogsGrow(Reached(prefix), Reached(steps))
  {
    var m := |steps| - 1;
    if |prefix| > m {
      assert prefix == steps;
    } else {
      assert prefix <= steps[..m];
      RunGrowsLogs(prefix, steps[..m]);
      StepGrowsLogs(Reached(steps[..m]), steps[m]);
    }
  }

  // ---- Logs and new subscriptions, exactly ----

  /** A push puts its message at the end of its room's log. */
  lemma PushAppends(b: Broker, t: nat, message: string)
    requires Sound(b) && CanStep(b, Push(t, message))
    ensures var r, b' := b.tasks[t].room, After(b, Push(t, message));
            && |b'.rooms| == |b.rooms| && b'.rooms[r].messages == b.rooms[r].messages + [message]
            && (forall q | 0 <= q < |b.rooms| && q != r :: b'.rooms[q].messages == b.rooms[q].messages)
  {
  }

  /** No other step touches a log; a new room's is empty. */
  lemma OthersKeepLogs(b: Broker, step: Step)
    requires Sound(b) && CanStep(b, step) && !step.Push?
    ensures var b' := After(b, step);
            && |b.rooms| <= |b'.rooms|
            && (forall q | 0 <= q < |b.rooms| :: b'.rooms[q].messages == b.rooms[q].messages)
            && (forall q | |b.rooms| <= q < |b'.rooms| :: b'.rooms[q].messages == [])
  {
  }

  /** Everything pushed to this room, in order. */
  ghost function PushedTo(steps: seq<Step>, room: nat): seq<string>
    requires Legal(steps)
  {
    if steps == [] then []
    else
      var n := |steps| - 1;
      var b := Reached(steps[..n]);
      PushedTo(steps[..n], room) +
      (if steps[n].Push? && b.tasks[steps[n].t].room == room then [steps[n].message] else [])
  }

  lemma {:induction false} NothingPushedYet(steps: seq<Step>, room: nat)
    requires Legal(steps) && room >= |Reached(steps).rooms|
    ensures PushedTo(steps, room) == []
  {
    if steps != [] {
      var n := |steps| - 1;
      StepGrowsLogs(Reached(steps[..n]), steps[n]);
      NothingPushedYet(steps[..n], room);
    }
  }

  /** In every interleaving a room's log is exactly what was published to it, in order. */
  lemma {:induction false} LogIsWhatWasPushed(steps: seq<Step>, room: nat)
    requires Legal(steps) && room < |Reached(steps).rooms|
    ensures Reached(steps).rooms[room].messages == PushedTo(steps, room)
  {
    if steps != [] {
      var n := |steps| - 1;
      var b := Reached(steps[..n]);
      if room < |b.rooms| {
        LogIsWhatWasPushed(steps[..n], room);
      } else {
        NothingPushedYet(steps[..n], room);
      }
      if steps[n].Push? {
        PushAppends(b, steps[n].t, steps[n].message);
      } else {
        OthersKeepLogs(b, steps[n]);
      }
    }
  }

  /** A subscription begins in its request's room, with the first message or behind the last one seen. */
  lemma SubscriptionBegins(b: Broker, t: nat, lastSeen: Option<U16>)
    requires Sound(b) && CanStep(b, Subscribe(t, lastSeen))
    ensures var b' := After(b, Subscribe(t, lastSeen));
            && b.nextSub in b'.subs && b'.subs[b.nextSub].room == b.tasks[t].room
            && b'.subs[b.nextSub].phase == Idle && b'.subs[b.nextSub].delivered == []
            && b'.subs[b.nextSub].next == b'.subs[b.nextSub].start ==
                 (match lastSeen case None => 0 case Some(id) => (id + 1) % 0x10000)
  {
  }

  // ---- Main results ----

  lemma PusherHoldsTheLock(b: Broker, room: nat)
    requires AboutToNotify(b, room)
    ensures !NoWriter(b, room)
  {
    var t :| t in b.tasks && b.tasks[t] == Pushed(room);
    assert HoldsWrite(b.tasks[t], room);
  }

  /**
   * No lost wake-up. In every interleaving a parked subscriber that no notification has reached
   * has its cursor at or past the end of the log, except while a publisher stands between its
   * push and its notification, which it makes before giving up the lock. So whenever no one
   * holds the write lock, a parked subscriber with something left to read can wake up.
   */
  lemma NoLostWakeup(steps: seq<Step>, s: nat)
    requires Legal(steps) && s in Reached(steps).subs && Reached(steps).subs[s].phase.Parked?
    ensures var b := Reached(steps);
            var sub := b.subs[s];
            && sub.room < |b.rooms|
            && (CanStep(b, Wake(s)) || sub.next >= |b.rooms[sub.room].messages| || AboutToNotify(b, sub.room))
            && (NoWriter(b, sub.room) && sub.next < |b.rooms[sub.room].messages| ==> CanStep(b, Wake(s)))
  {
    RunKeepsBroker(steps);
    var b := Reached(steps);
    var sub := b.subs[s];
    assert Awaits(b.rooms[sub.room], AboutToNotify(b, sub.room), sub);
    if AboutToNotify(b, sub.room) {
      PusherHoldsTheLock(b, sub.room);
    }
  }

  /** The subscriber counter of a room is the number of its live subscriptions, modulo 2^16. */
  lemma CounterCountsSubscriptions(steps: seq<Step>, room: nat)
    requires Legal(steps) && room < |Reached(steps).rooms|
    ensures Reached(steps).rooms[room].subscribers == |Watching(Reached(steps), room)| % 0x10000
  {
    RunKeepsBroker(steps);
    CounterIsModulo(|Watching(Reached(steps), room)|);
  }

  /**
   * Total order. Every subscription delivers the ids that follow its start without gap, each
   * with the log entry of that id; ids wrap only after 65535.
   */
  lemma StreamsFollowTheLog(steps: seq<Step>, s: nat, k: nat)
    requires Legal(steps) && s in Reached(steps).subs && k < |Reached(steps).subs[s].delivered|
    ensures var b := Reached(steps);
            var sub := b.subs[s];
            && sub.room < |b.rooms|
            && sub.delivered[k].0 == (sub.start + k) % 0x10000 < |b.rooms[sub.room].messages|
            && sub.delivered[k].1 == b.rooms[sub.room].messages[sub.delivered[k].0]
            && (sub.start + k < 0x10000 ==> sub.delivered[k].0 == sub.start + k)
  {
    RunKeepsBroker(steps);
    var b := Reached(steps);
    assert StreamOk(b.rooms[b.subs[s].room].messages, b.subs[s]);
    IdsAreConsecutive(b.subs[s].start, k);
  }

  /** The stretch of the log that a stream ought to show. */
  function LogStretch(messages: seq<string>, start: nat, count: nat): seq<(U16, string)>
    requires start + count <= |messages| && start + count <= 0x10000
  {
    seq(count, k requires 0 <= k < count => (start + k, messages[start + k]))
  }

  lemma StreamIsStretchOf(messages: seq<string>, sub: Sub)
    requires StreamOk(messages, sub) && sub.delivered != []
    requires sub.start + |sub.delivered| <= 0x10000
    ensures sub.start + |sub.delivered| <= |messages|
    ensures sub.delivered == LogStretch(messages, sub.start, |sub.delivered|)
  {
    IdsAreConsecutive(sub.start, |sub.delivered| - 1);
    forall k | 0 <= k < |sub.delivered|
      ensures sub.delivered[k] == (sub.start + k, messages[sub.start + k])
    {
      IdsAreConsecutive(sub.start, k);
    }
  }

  /** While its cursor stays within 16 bits, what a subscription delivered is one stretch of the log. */
  lemma StreamIsStretch(steps: seq<Step>, s: nat)
    requires Legal(steps) && s in Reached(steps).subs && Reached(steps).subs[s].delivered != []
    requires Reached(steps).subs[s].start + |Reached(steps).subs[s].delivered| <= 0x10000
    ensures var b := Reached(steps);
            var sub := b.subs[s];
            && sub.room < |b.rooms|
            && sub.start + |sub.delivered| <= |b.rooms[sub.room].messages|
            && sub.delivered == LogStretch(b.rooms[sub.room].messages, sub.start, |sub.delivered|)
  {
    RunKeepsBroker(steps);
    var b := Reached(steps);
    StreamIsStretchOf(b.rooms[b.subs[s].room].messages, b.subs[s]);
  }

  /** Two fresh subscriptions of one room see the same stream, one perhaps further than the other. */
  lemma FreshStreamsAgree(steps: seq<Step>, s: nat, s': nat)
    requires Legal(steps) && s in Reached(steps).subs && s' in Reached(steps).subs
    requires var b := Reached(steps);
             && b.subs[s].room == b.subs[s'].room && b.subs[s].start == b.subs[s'].start == 0
             && |b.subs[s].delivered| <= |b.subs[s'].delivered| <= 0x10000
    ensures Reached(steps).subs[s].delivered <= Reached(steps).subs[s'].delivered
  {
    if Reached(steps).subs[s].delivered != [] {
      StreamIsStretch(steps, s);
      StreamIsStretch(steps, s');
    }
  }
}

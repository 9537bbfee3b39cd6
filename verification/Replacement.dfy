/**
 * When a room keeps its name and when it is replaced, and what that means for a client that
 * comes back: its stream continues while somebody holds the room, and is cut off otherwise.
 */
module Replacement {
  import opened Basics
  import opened Broadcast

  ghost predicate MappedAt(b: Broker, name: string, room: nat) {
    name in b.mapped && b.mapped[name] == room
  }

  /** A look-up stands between its counter load and its map write. */
  ghost predicate Doomed(b: Broker, name: string) {
    exists t :: t in b.tasks && b.tasks[t] == Replacing(name)
  }

  /** The name has no room, or one whose live subscriptions are a multiple of 2^16. */
  ghost predicate Unwatched(b: Broker, name: string) {
    name in b.mapped ==> |Watching(b, b.mapped[name])| % 0x10000 == 0
  }

  ghost predicate JudgesUnwatched(b: Broker, step: Step, name: string) {
    step.Judge? && step.t in b.tasks && b.tasks[step.t] == Missed(name) && Unwatched(b, name)
  }

  ghost predicate Installs(b: Broker, step: Step, name: string) {
    step.Install? && step.t in b.tasks && b.tasks[step.t] == Replacing(name)
  }

  // ---- Single steps ----

  /** The load decides: the room in the map if anybody is counted there, and otherwise a new one. */
  lemma JudgeDecides(b: Broker, t: nat)
    requires BrokerOk(b) && CanStep(b, Judge(t))
    ensures var name := b.tasks[t].name;
            && After(b, Judge(t)).mapped == b.mapped
            && (Unwatched(b, name) ==> After(b, Judge(t)).tasks[t] == Replacing(name))
            && (!Unwatched(b, name) ==> After(b, Judge(t)).tasks[t] == Holding(name, b.mapped[name]))
  {
    var name := b.tasks[t].name;
    if name in b.mapped {
      CounterIsModulo(|Watching(b, b.mapped[name])|);
    }
  }

  lemma OtherStepsKeepMap(b: Broker, step: Step)
    requires Sound(b) && CanStep(b, step) && !step.Install?
    ensures After(b, step).mapped == b.mapped
  {
  }

  /** A room loses its name exactly by a map write for that name. */
  lemma MappedStep(b: Broker, step: Step, name: string, room: nat)
    requires Sound(b) && CanStep(b, step) && room < |b.rooms|
    ensures MappedAt(After(b, step), name, room) <==> MappedAt(b, name, room) && !Installs(b, step, name)
  {
    if !step.Install? {
      OtherStepsKeepMap(b, step);
    }
  }

  lemma StandingStep(b: Broker, step: Step, name: string)
    requires Sound(b) && CanStep(b, step) && Doomed(b, name) && !Installs(b, step, name)
    ensures Doomed(After(b, step), name)
  {
    var t :| t in b.tasks && b.tasks[t] == Replacing(name);
    assert t in After(b, step).tasks && After(b, step).tasks[t] == Replacing(name);
  }

  lemma UndoomedStep(b: Broker, step: Step, name: string)
    requires BrokerOk(b) && CanStep(b, step) && !Doomed(b, name)
    ensures Doomed(After(b, step), name) <==> JudgesUnwatched(b, step, name)
  {
    var b' := After(b, step);
    if step.Judge? {
      JudgeDecides(b, step.t);
      if b.tasks[step.t].name == name && Unwatched(b, name) {
        assert b'.tasks[step.t] == Replacing(name);
      }
    }
    if Doomed(b', name) {
      var t :| t in b'.tasks && b'.tasks[t] == Replacing(name);
      assert step.Judge? && step.t == t;
    }
  }

  /** The room has its name, and no look-up is about to take it away. */
  ghost predicate Safe(b: Broker, name: string, room: nat) {
    MappedAt(b, name, room) && !Doomed(b, name)
  }

  lemma SafeStep(b: Broker, step: Step, name: string, room: nat)
    requires BrokerOk(b) && CanStep(b, step) && room < |b.rooms|
    ensures Safe(After(b, step), name, room) <==> Safe(b, name, room) && !JudgesUnwatched(b, step, name)
  {
    MappedStep(b, step, name, room);
    if !Doomed(b, name) {
      UndoomedStep(b, step, name);
    } else if !Installs(b, step, name) {
      StandingStep(b, step, name);
    }
  }

  // ---- Runs ----

  /** After the first n steps of the run a look-up found the name unwatched. */
  ghost predicate UnwatchedSince(steps: seq<Step>, n: nat, name: string)
    requires Legal(steps)
  {
    var m := |steps| - 1;
    |steps| > n && (JudgesUnwatched(Reached(steps[..m]), steps[m], name) || UnwatchedSince(steps[..m], n, name))
  }

  /** After the first n steps of the run the name was given a new room. */
  ghost predicate InstalledSince(steps: seq<Step>, n: nat, name: string)
    requires Legal(steps)
  {
    var m := |steps| - 1;
    |steps| > n && (Installs(Reached(steps[..m]), steps[m], name) || InstalledSince(steps[..m], n, name))
  }

  /** A room keeps its name exactly as long as no look-up writes the map for that name. */
  lemma {:induction false} StillMappedIff(prefix: seq<Step>, steps: seq<Step>, name: string, room: nat)
    requires Legal(steps) && prefix <= steps && Legal(prefix)
    requires MappedAt(Reached(prefix), name, room)
    ensures MappedAt(Reached(steps), name, room) <==> !InstalledSince(steps, |prefix|, name)
    ensures room < |Reached(steps).rooms|
  {
    var m := |steps| - 1;
    if |prefix| > m {
      assert prefix == steps;
    } else {
      assert prefix <= steps[..m];
      StillMappedIff(prefix, steps[..m], name, room);
      MappedStep(Reached(steps[..m]), steps[m], name, room);
      StepGrowsLogs(Reached(steps[..m]), steps[m]);
    }
  }

  /**
   * Room replacement, exactly. A room that has its name, with no look-up about to take it away,
   * stays so until a look-up under the write lock loads a counter of zero: when the live
   * subscriptions are a multiple of 2^16, normally none.
   */
  lemma {:induction false} ReplacedExactlyWhenUnwatched(prefix: seq<Step>, steps: seq<Step>, name: string, room: nat)
    requires Legal(steps) && prefix <= steps && Legal(prefix)
    requires Safe(Reached(prefix), name, room)
    ensures Safe(Reached(steps), name, room) <==> !UnwatchedSince(steps, |prefix|, name)
    ensures room < |Reached(steps).rooms|
  {
    var m := |steps| - 1;
    if |prefix| > m {
      assert prefix == steps;
    } else {
      assert prefix <= steps[..m];
      ReplacedExactlyWhenUnwatched(prefix, steps[..m], name, room);
      RunKeepsBroker(steps[..m]);
      SafeStep(Reached(steps[..m]), steps[m], name, room);
      StepGrowsLogs(Reached(steps[..m]), steps[m]);
    }
  }

  lemma UnmappedStep(b: Broker, step: Step, room: nat)
    requires Sound(b) && CanStep(b, step) && room < |b.rooms| && room !in b.mapped.Values
    ensures room !in After(b, step).mapped.Values
  {
  }

  /** A room that is not mapped will never be mapped again, under any name. */
  lemma {:induction false} ReplacedForGood(prefix: seq<Step>, steps: seq<Step>, room: nat)
    requires Legal(steps) && prefix <= steps && Legal(prefix)
    requires room < |Reached(prefix).rooms| && room !in Reached(prefix).mapped.Values
    ensures room < |Reached(steps).rooms| && room !in Reached(steps).mapped.Values
  {
    var m := |steps| - 1;
    if |prefix| > m {
      assert prefix == steps;
    } else {
      assert prefix <= steps[..m];
      ReplacedForGood(prefix, steps[..m], room);
      UnmappedStep(Reached(steps[..m]), steps[m], room);
      StepGrowsLogs(Reached(steps[..m]), steps[m]);
    }
  }

  /** The subscription lives, in the room of this number, which is mapped under the name. */
  ghost predicate LivesIn(b: Broker, s: nat, name: string, room: nat) {
    s in b.subs && b.subs[s].room == room && MappedAt(b, name, room)
  }

  /**
   * Look-up and subscription are two steps: a client that found the mapped room subscribes to
   * the mapped room exactly when no other look-up wrote the map for the name in between.
   */
  lemma {:induction false} SubscribesToMappedRoomIff(
      prefix: seq<Step>, steps: seq<Step>, t: nat, lastSeen: Option<U16>, name: string, room: nat)
    requires Legal(steps) && prefix <= steps && Legal(prefix) && MappedAt(Reached(prefix), name, room)
    requires CanStep(Reached(steps), Subscribe(t, lastSeen)) && Reached(steps).tasks[t] == Holding(name, room)
    ensures LivesIn(After(Reached(steps), Subscribe(t, lastSeen)), Reached(steps).nextSub, name, room) <==>
              !InstalledSince(steps, |prefix|, name)
  {
    StillMappedIff(prefix, steps, name, room);
    OtherStepsKeepMap(Reached(steps), Subscribe(t, lastSeen));
  }

  // ---- A room that somebody holds ----

  /** Fewer than 2^16 subscriptions of the room live at any time of the run after its first n steps. */
  ghost predicate FewWatchers(steps: seq<Step>, n: nat, room: nat)
    requires Legal(steps)
  {
    && |Watching(Reached(steps), room)| < 0x10000
    && (|steps| <= n || FewWatchers(steps[..|steps| - 1], n, room))
  }

  lemma StepKeepsSubRoom(b: Broker, step: Step, s: nat)
    requires Sound(b) && CanStep(b, step) && s in b.subs && s in After(b, step).subs
    ensures After(b, step).subs[s].room == b.subs[s].room
  {
  }

  /** The subscription lives in the mapped room, and no look-up is about to replace it. */
  ghost predicate Keeps(b: Broker, s: nat, name: string, room: nat) {
    LivesIn(b, s, name, room) && !Doomed(b, name)
  }

  lemma KeeperStep(b: Broker, step: Step, s: nat, name: string, room: nat)
    requires BrokerOk(b) && CanStep(b, step) && |Watching(b, room)| < 0x10000
    requires Keeps(b, s, name, room) && s in After(b, step).subs
    ensures Keeps(After(b, step), s, name, room)
  {
    assert s in Watching(b, room);
    StepKeepsSubRoom(b, step, s);
    SafeStep(b, step, name, room);
  }

  /** Subscription numbers are not reused. */
  lemma StepNumbersSubs(b: Broker, step: Step, s: nat)
    requires Sound(b) && CanStep(b, step)
    ensures b.nextSub <= After(b, step).nextSub
    ensures s in After(b, step).subs && s !in b.subs ==> s == b.nextSub
  {
  }

  lemma {:induction false} RunNumbersSubs(prefix: seq<Step>, steps: seq<Step>)
    requires Legal(steps) && prefix <= steps && Legal(prefix)
    ensures Reached(prefix).nextSub <= Reached(steps).nextSub
  {
    var m := |steps| - 1;
    if |prefix| > m {
      assert prefix == steps;
    } else {
      assert prefix <= steps[..m];
      RunNumbersSubs(prefix, steps[..m]);
      StepNumbersSubs(Reached(steps[..m]), steps[m], 0);
    }
  }

  /** One that lives now and lived at an earlier moment lived in between. */
  lemma {:induction false} LivedInBetween(prefix: seq<Step>, steps: seq<Step>, s: nat)
    requires Legal(steps) && prefix <= steps && Legal(prefix) && |prefix| < |steps|
    requires s in Reached(prefix).subs && s in Reached(steps).subs
    ensures s in Reached(steps[..|steps| - 1]).subs
  {
    var m := |steps| - 1;
    RunNumbersSubs(prefix, steps[..m]);
    StepNumbersSubs(Reached(steps[..m]), steps[m], s);
  }

  lemma {:induction false} LastStepKeepsKeeper(steps: seq<Step>, s: nat, name: string, room: nat)
    requires Legal(steps) && steps != [] && |Watching(Reached(steps[..|steps| - 1]), room)| < 0x10000
    requires Keeps(Reached(steps[..|steps| - 1]), s, name, room) && s in Reached(steps).subs
    ensures Keeps(Reached(steps), s, name, room)
  {
    var m := |steps| - 1;
    RunKeepsBroker(steps[..m]);
    KeeperStep(Reached(steps[..m]), steps[m], s, name, room);
  }

  /** Once no look-up stands between load and write, a subscriber keeps its room mapped for as long as it lives. */
  lemma {:induction false} KeeperKeepsRoom(prefix: seq<Step>, steps: seq<Step>, s: nat, name: string, room: nat)
    requires Legal(steps) && prefix <= steps && Legal(prefix) && FewWatchers(steps, |prefix|, room)
    requires Keeps(Reached(prefix), s, name, room) && s in Reached(steps).subs
    ensures Keeps(Reached(steps), s, name, room)
  {
    var m := |steps| - 1;
    if |prefix| > m {
      assert prefix == steps;
    } else {
      assert prefix <= steps[..m];
      LivedInBetween(prefix, steps, s);
      KeeperKeepsRoom(prefix, steps[..m], s, name, room);
      LastStepKeepsKeeper(steps, s, name, room);
    }
  }

  lemma {:induction false} LivingKeepsSubRoom(prefix: seq<Step>, steps: seq<Step>, s: nat)
    requires Legal(steps) && prefix <= steps && Legal(prefix)
    requires s in Reached(prefix).subs && s in Reached(steps).subs
    ensures Reached(steps).subs[s].room == Reached(prefix).subs[s].room
  {
    var m := |steps| - 1;
    if |prefix| > m {
      assert prefix == steps;
    } else {
      assert prefix <= steps[..m];
      LivedInBetween(prefix, steps, s);
      LivingKeepsSubRoom(prefix, steps[..m], s);
      StepKeepsSubRoom(Reached(steps[..m]), steps[m], s);
    }
  }

  /** A subscriber of the mapped room stays in the mapped room, as long as it lives, until the map is written. */
  lemma {:induction false} StaysUntilInstalled(prefix: seq<Step>, steps: seq<Step>, s: nat, name: string, room: nat)
    requires Legal(steps) && prefix <= steps && Legal(prefix)
    requires LivesIn(Reached(prefix), s, name, room) && s in Reached(steps).subs
    ensures LivesIn(Reached(steps), s, name, room) <==> !InstalledSince(steps, |prefix|, name)
  {
    StillMappedIff(prefix, steps, name, room);
    LivingKeepsSubRoom(prefix, steps, s);
  }

  /** A way in which the run may go on, with fewer than 2^16 subscriptions of the room. */
  ghost predicate GoesOn(prefix: seq<Step>, steps: seq<Step>, room: nat) {
    Legal(steps) && prefix <= steps && FewWatchers(steps, |prefix|, room)
  }

  /** However the run goes on, the subscriber has the mapped room for as long as it lives. */
  ghost predicate KeepsForLife(prefix: seq<Step>, s: nat, name: string, room: nat) {
    forall steps | GoesOn(prefix, steps, room) && s in Reached(steps).subs :: LivesIn(Reached(steps), s, name, room)
  }

  lemma InstallTakesRoom(b: Broker, t: nat, s: nat, name: string, room: nat)
    requires Sound(b) && LivesIn(b, s, name, room) && t in b.tasks && b.tasks[t] == Replacing(name)
    ensures CanStep(b, Install(t)) && s in After(b, Install(t)).subs && !LivesIn(After(b, Install(t)), s, name, room)
    ensures Watching(After(b, Install(t)), room) == Watching(b, room)
  {
  }

  lemma {:induction false} DoomedGoesOnWithout(prefix: seq<Step>, s: nat, name: string, room: nat)
    returns (steps: seq<Step>)
    requires Legal(prefix) && |Watching(Reached(prefix), room)| < 0x10000
    requires LivesIn(Reached(prefix), s, name, room) && Doomed(Reached(prefix), name)
    ensures GoesOn(prefix, steps, room) && s in Reached(steps).subs && !LivesIn(Reached(steps), s, name, room)
  {
    var b := Reached(prefix);
    var t :| t in b.tasks && b.tasks[t] == Replacing(name);
    InstallTakesRoom(b, t, s, name, room);
    steps := prefix + [Install(t)];
    assert steps[..|steps| - 1] == prefix;
  }

  /**
   * Does a mapped room with a live subscriber ever lose its name? Exactly if, right now, some
   * look-up stands between its counter load and its map write. If none does, then however the
   * run goes on the subscriber has the mapped room for as long as it lives; if one does, the
   * very next step can take the room away.
   */
  lemma {:induction false} SubscriberKeepsItsRoom(prefix: seq<Step>, s: nat, name: string, room: nat)
    requires Legal(prefix) && |Watching(Reached(prefix), room)| < 0x10000
    requires LivesIn(Reached(prefix), s, name, room)
    ensures KeepsForLife(prefix, s, name, room) <==> !Doomed(Reached(prefix), name)
  {
    if Doomed(Reached(prefix), name) {
      var steps := DoomedGoesOnWithout(prefix, s, name, room);
    } else {
      forall steps | GoesOn(prefix, steps, room) && s in Reached(steps).subs
        ensures LivesIn(Reached(steps), s, name, room)
      {
        KeeperKeepsRoom(prefix, steps, s, name, room);
      }
    }
  }

  // ---- Coming back ----

  /** What one look-up finds, exactly: the mapped room, if its live subscriptions are not a multiple of 2^16. */
  lemma {:induction false} LookupFindsIff(steps: seq<Step>, step: Step, room: nat)
    requires Legal(steps) && (step.FastLookup? || step.Judge?) && CanStep(Reached(steps), step)
    ensures var b := Reached(steps);
            var name := b.tasks[step.t].name;
            After(b, step).tasks[step.t] == Holding(name, room) <==>
              MappedAt(b, name, room) && |Watching(b, room)| % 0x10000 != 0
  {
    RunKeepsBroker(steps);
    var b := Reached(steps);
    var name := b.tasks[step.t].name;
    if name in b.mapped {
      CounterIsModulo(|Watching(b, b.mapped[name])|);
    }
  }

  /** Requests for the name numbered n or later have found this room, those that found any. */
  ghost predicate FoundBy(b: Broker, n: nat, name: string, room: nat) {
    && (forall t | t in b.tasks && t >= n && b.tasks[t].Holding? && b.tasks[t].name == name :: b.tasks[t].room == room)
    && (forall s | s in b.subs && b.subs[s].request >= n && b.subs[s].name == name :: b.subs[s].room == room)
  }

  lemma FindingStep(b: Broker, step: Step, n: nat, name: string, room: nat)
    requires Sound(b) && CanStep(b, step)
    requires FoundBy(b, n, name, room) && MappedAt(b, name, room) && !Installs(b, step, name)
    ensures FoundBy(After(b, step), n, name, room)
  {
  }

  /** Until the map is written for the name, every later request for it finds the same room. */
  lemma {:induction false} MappedRoomIsFound(prefix: seq<Step>, steps: seq<Step>, name: string, room: nat)
    requires Legal(steps) && prefix <= steps && Legal(prefix)
    requires MappedAt(Reached(prefix), name, room) && !InstalledSince(steps, |prefix|, name)
    ensures FoundBy(Reached(steps), Reached(prefix).nextTask, name, room)
  {
    var m := |steps| - 1;
    if |prefix| > m {
      assert prefix == steps;
    } else {
      assert prefix <= steps[..m];
      MappedRoomIsFound(prefix, steps[..m], name, room);
      StillMappedIff(prefix, steps[..m], name, room);
      FindingStep(Reached(steps[..m]), steps[m], Reached(prefix).nextTask, name, room);
    }
  }

  /** No request numbered n or later has found this room. */
  ghost predicate LostSince(b: Broker, n: nat, room: nat) {
    && room < |b.rooms| && room !in b.mapped.Values
    && (forall t | t in b.tasks && t >= n && b.tasks[t].Holding? :: b.tasks[t].room != room)
    && (forall s | s in b.subs && b.subs[s].request >= n :: b.subs[s].room != room)
  }

  lemma LosingStep(b: Broker, step: Step, n: nat, room: nat)
    requires Sound(b) && CanStep(b, step) && LostSince(b, n, room)
    ensures LostSince(After(b, step), n, room)
  {
    UnmappedStep(b, step, room);
  }

  /** Once a room has been replaced, no later request finds it, whoever still holds it. */
  lemma {:induction false} ReplacedRoomIsLost(prefix: seq<Step>, steps: seq<Step>, room: nat)
    requires Legal(steps) && prefix <= steps && Legal(prefix)
    requires room < |Reached(prefix).rooms| && room !in Reached(prefix).mapped.Values
    ensures LostSince(Reached(steps), Reached(prefix).nextTask, room)
  {
    var m := |steps| - 1;
    if |prefix| > m {
      assert prefix == steps;
    } else {
      assert prefix <= steps[..m];
      ReplacedRoomIsLost(prefix, steps[..m], room);
      LosingStep(Reached(steps[..m]), steps[m], Reached(prefix).nextTask, room);
    }
  }

  /** The second stream starts from the last id of the first, and ids stay within 16 bits. */
  ghost predicate Resumes(first: Sub, second: Sub) {
    && first.delivered != []
    && second.start == StartOf(Some(first.delivered[|first.delivered| - 1].0))
    && first.start + |first.delivered| + |second.delivered| <= 0x10000
  }

  /** Both streams together are one stretch of the log. */
  ghost predicate Joined(log: seq<string>, first: Sub, second: Sub) {
    var count := |first.delivered| + |second.delivered|;
    && first.start + count <= |log| && first.start + count <= 0x10000
    && first.delivered + second.delivered == LogStretch(log, first.start, count)
  }

  lemma StreamsJoin(was: seq<string>, now: seq<string>, first: Sub, second: Sub)
    requires StreamOk(was, first) && StreamOk(now, second) && was <= now && Resumes(first, second)
    ensures Joined(now, first, second)
  {
    StreamIsStretchOf(was, first);
    if second.delivered != [] {
      assert second.start == first.start + |first.delivered|;
      StreamIsStretchOf(now, second);
    }
  }

  lemma BrokersJoin(before: Broker, after: Broker, s: nat, s': nat)
    requires BrokerOk(before) && BrokerOk(after) && LogsGrow(before, after)
    requires s in before.subs && s' in after.subs && before.subs[s].room == after.subs[s'].room
    requires Resumes(before.subs[s], after.subs[s'])
    ensures Joined(after.rooms[after.subs[s'].room].messages, before.subs[s], after.subs[s'])
  {
    var room := after.subs[s'].room;
    StreamsJoin(before.rooms[room].messages, after.rooms[room].messages, before.subs[s], after.subs[s']);
  }

  /** This subscription came from a request for the name that was made after the moment of b. */
  ghost predicate ComesBack(b: Broker, sub: Sub, name: string) {
    sub.name == name && sub.request >= b.nextTask
  }

  /**
   * Resumption. At some moment one subscriber has seen part of a room that another one keeps;
   * whatever the first one does then, a later request for the name with its last id continues
   * its stream as long as the keeper lives: together they are one stretch of the log, with no
   * gap and no repeat, while ids stay within 16 bits.
   */
  lemma {:induction false} ResumptionContinues(
      prefix: seq<Step>, steps: seq<Step>, s: nat, k: nat, s': nat, name: string, room: nat)
    requires Legal(steps) && prefix <= steps && Legal(prefix) && FewWatchers(steps, |prefix|, room)
    requires LivesIn(Reached(prefix), s, name, room)
    requires Keeps(Reached(prefix), k, name, room) && k in Reached(steps).subs
    requires s' in Reached(steps).subs && ComesBack(Reached(prefix), Reached(steps).subs[s'], name)
    requires Resumes(Reached(prefix).subs[s], Reached(steps).subs[s'])
    ensures room < |Reached(steps).rooms|
    ensures Joined(Reached(steps).rooms[room].messages, Reached(prefix).subs[s], Reached(steps).subs[s'])
  {
    KeeperKeepsRoom(prefix, steps, k, name, room);
    StaysUntilInstalled(prefix, steps, k, name, room);
    MappedRoomIsFound(prefix, steps, name, room);
    RunKeepsBroker(steps);
    RunKeepsBroker(prefix);
    RunGrowsLogs(prefix, steps);
    BrokersJoin(Reached(prefix), Reached(steps), s, s');
  }

  /** Whatever the room, entries before the start are never delivered while ids stay within 16 bits. */
  lemma {:induction false} EntriesBeforeStartAreMissed(steps: seq<Step>, s: nat)
    requires Legal(steps) && s in Reached(steps).subs
    requires Reached(steps).subs[s].start + |Reached(steps).subs[s].delivered| <= 0x10000
    ensures var sub := Reached(steps).subs[s]; forall d | d in sub.delivered :: d.0 >= sub.start
  {
    var sub := Reached(steps).subs[s];
    forall k | 0 <= k < |sub.delivered|
      ensures sub.delivered[k].0 >= sub.start
    {
      StreamsFollowTheLog(steps, s, k);
    }
  }

  // ---- Concrete runs ----

  /** The run `steps` ends in this state; as a value, so that the runs below need not look inside it. */
  type Trail = (seq<Step>, Broker) -> bool

  ghost predicate CanFollow(trail: Trail, steps: seq<Step>, b: Broker, step: Step) {
    trail(steps, b) && Sound(b) && CanStep(b, step)
  }

  ghost predicate Closed(trail: Trail) {
    forall steps, b, step {:trigger CanFollow(trail, steps, b, step)} | CanFollow(trail, steps, b, step) ::
      trail(steps + [step], After(b, step))
  }

  ghost predicate Ends(steps: seq<Step>, b: Broker) {
    Legal(steps) && Reached(steps) == b
  }

  lemma OneMore(steps: seq<Step>, b: Broker, step: Step)
    requires Ends(steps, b) && Sound(b) && CanStep(b, step)
    ensures Ends(steps + [step], After(b, step))
  {
    var more := steps + [step];
    assert more[..|more| - 1] == steps;
  }

  lemma RunsAreClosed() returns (trail: Trail)
    ensures Closed(trail) && trail([], NO_CLIENTS)
    ensures forall steps, b | trail(steps, b) :: Ends(steps, b)
  {
    trail := (steps, b) => Ends(steps, b);
    assert Legal([]) && Reached([]) == NO_CLIENTS;
    forall steps, b, step | CanFollow(trail, steps, b, step)
      ensures trail(steps + [step], After(b, step))
    {
      OneMore(steps, b, step);
    }
  }

  lemma Follow(trail: Trail, steps: seq<Step>, b: Broker, step: Step) returns (more: seq<Step>, b': Broker)
    requires Closed(trail) && trail(steps, b) && Sound(b) && CanStep(b, step)
    ensures trail(more, b') && b' == After(b, step) && more == steps + [step]
  {
    assert CanFollow(trail, steps, b, step);
    more, b' := steps + [step], After(b, step);
  }

  /** One client has looked up the name and got its first room. */
  function FirstRoom(name: string): Broker {
    Broker([EMPTY_ROOM], map[name := 0], map[0 := Holding(name, 0)], map[], 1, 0)
  }

  lemma GetFirstRoom(trail: Trail, name: string) returns (steps: seq<Step>)
    requires Closed(trail) && trail([], NO_CLIENTS)
    ensures trail(steps, FirstRoom(name))
  {
    var b: Broker;
    steps, b := Follow(trail, [], NO_CLIENTS, Ask(name));
    assert b == Broker([], map[], map[0 := Looking(name)], map[], 1, 0);
    steps, b := Follow(trail, steps, b, FastLookup(0));
    assert b == Broker([], map[], map[0 := Missed(name)], map[], 1, 0);
    steps, b := Follow(trail, steps, b, Judge(0));
    assert b == Broker([], map[], map[0 := Replacing(name)], map[], 1, 0);
    steps, b := Follow(trail, steps, b, Install(0));
    assert b == FirstRoom(name);
  }

  /** The second client's look-up has missed under the read lock, and then judged the room unwatched. */
  function SecondMisses(name: string): Broker {
    Broker([EMPTY_ROOM], map[name := 0], map[0 := Holding(name, 0), 1 := Missed(name)], map[], 2, 0)
  }

  function SecondLooks(name: string): Broker {
    Broker([EMPTY_ROOM], map[name := 0], map[0 := Holding(name, 0), 1 := Replacing(name)], map[], 2, 0)
  }

  lemma GetSecondMisses(trail: Trail, name: string, start: seq<Step>) returns (steps: seq<Step>)
    requires Closed(trail) && trail(start, FirstRoom(name))
    ensures start <= steps && trail(steps, SecondMisses(name))
  {
    var b: Broker;
    steps, b := Follow(trail, start, FirstRoom(name), Ask(name));
    assert b == FirstRoom(name).(tasks := map[0 := Holding(name, 0), 1 := Looking(name)], nextTask := 2);
    steps, b := Follow(trail, steps, b, FastLookup(1));
    assert b == SecondMisses(name);
  }

  lemma GetSecondLooks(trail: Trail, name: string, start: seq<Step>) returns (steps: seq<Step>)
    requires Closed(trail) && trail(start, SecondMisses(name))
    ensures start <= steps && trail(steps, SecondLooks(name))
  {
    var b: Broker;
    steps, b := Follow(trail, start, SecondMisses(name), Judge(1));
    assert b == SecondLooks(name);
  }

  /** The first client subscribes between load and write, then the second client writes. */
  function Watched(name: string): Broker {
    var sub := Sub(name, 0, 0, 0, 0, Idle, []);
    Broker([Room([], 1, 0)], map[name := 0], map[1 := Replacing(name)], map[0 := sub], 2, 1)
  }

  function Overtaken(name: string): Broker {
    Watched(name).(rooms := [Room([], 1, 0), EMPTY_ROOM], mapped := map[name := 1], tasks := map[1 := Holding(name, 1)])
  }

  lemma GetOvertaken(trail: Trail, name: string, start: seq<Step>) returns (watched: seq<Step>, overtaken: seq<Step>)
    requires Closed(trail) && trail(start, SecondLooks(name))
    ensures watched <= overtaken && trail(watched, Watched(name)) && trail(overtaken, Overtaken(name))
  {
    var b: Broker;
    watched, b := Follow(trail, start, SecondLooks(name), Subscribe(0, None));
    assert b == Watched(name);
    overtaken, b := Follow(trail, watched, b, Install(1));
    assert b.mapped == map[name := 1];
    assert b == Overtaken(name);
  }

  /**
   * A live subscriber of the mapped room can lose it: it subscribed after another client's
   * look-up had counted nobody and before that look-up wrote the map. From then on it waits in
   * a room that, by `ReplacedRoomIsLost`, no later request finds.
   */
  lemma WatchedRoomIsReplaced(name: string) returns (watched: seq<Step>, overtaken: seq<Step>)
    ensures Legal(watched) && Legal(overtaken) && watched <= overtaken
    ensures LivesIn(Reached(watched), 0, name, 0) && Doomed(Reached(watched), name)
    ensures 0 in Reached(overtaken).subs && Reached(overtaken).subs[0].room == 0
    ensures 0 !in Reached(overtaken).mapped.Values
  {
    var trail := RunsAreClosed();
    var steps := GetFirstRoom(trail, name);
    steps := GetSecondMisses(trail, name, steps);
    steps := GetSecondLooks(trail, name, steps);
    watched, overtaken := GetOvertaken(trail, name, steps);
    assert Ends(watched, Watched(name)) && Ends(overtaken, Overtaken(name));
    assert Watched(name).tasks[1] == Replacing(name);
  }

  /** The second client writes the map before the first one subscribes. */
  function Stranded(name: string): Broker {
    var sub := Sub(name, 0, 0, 0, 0, Idle, []);
    Broker([Room([], 1, 0), EMPTY_ROOM], map[name := 1], map[1 := Holding(name, 1)], map[0 := sub], 2, 1)
  }

  lemma GetStranded(trail: Trail, name: string, start: seq<Step>) returns (steps: seq<Step>)
    requires Closed(trail) && trail(start, SecondLooks(name))
    ensures trail(steps, Stranded(name))
  {
    var b: Broker;
    steps, b := Follow(trail, start, SecondLooks(name), Install(1));
    assert b.mapped == map[name := 1];
    assert b.tasks == map[0 := Holding(name, 0), 1 := Holding(name, 1)];
    steps, b := Follow(trail, steps, b, Subscribe(0, None));
    assert b.tasks == map[1 := Holding(name, 1)];
    assert b == Stranded(name);
  }

  /** Between its look-up and its subscription a client can lose the room, and then subscribes to a replaced one. */
  lemma LateSubscriberIsStranded(name: string) returns (steps: seq<Step>)
    ensures Legal(steps) && 0 in Reached(steps).subs && Reached(steps).subs[0].room == 0
    ensures 0 !in Reached(steps).mapped.Values
  {
    var trail := RunsAreClosed();
    steps := GetFirstRoom(trail, name);
    steps := GetSecondMisses(trail, name, steps);
    steps := GetSecondLooks(trail, name, steps);
    steps := GetStranded(trail, name, steps);
    assert Ends(steps, Stranded(name));
  }

  /** One subscriber, nobody else. */
  function Subscribed(name: string): Broker {
    Broker([Room([], 1, 0)], map[name := 0], map[], map[0 := Sub(name, 0, 0, 0, 0, Idle, [])], 1, 1)
  }

  lemma GetSubscribed(trail: Trail, name: string, start: seq<Step>) returns (steps: seq<Step>)
    requires Closed(trail) && trail(start, FirstRoom(name))
    ensures trail(steps, Subscribed(name))
  {
    var b: Broker;
    steps, b := Follow(trail, start, FirstRoom(name), Subscribe(0, None));
    assert b == Subscribed(name);
  }

  function Locking(name: string): Broker {
    Subscribed(name).(tasks := map[1 := Locked(0)], nextTask := 2)
  }

  function Holder(name: string): Broker {
    Subscribed(name).(tasks := map[1 := Holding(name, 0)], nextTask := 2)
  }

  lemma GetHolder(trail: Trail, name: string, start: seq<Step>) returns (steps: seq<Step>)
    requires Closed(trail) && trail(start, Subscribed(name))
    ensures trail(steps, Holder(name))
  {
    var b: Broker;
    steps, b := Follow(trail, start, Subscribed(name), Ask(name));
    assert b == Subscribed(name).(tasks := map[1 := Looking(name)], nextTask := 2);
    steps, b := Follow(trail, steps, b, FastLookup(1));
    assert b == Holder(name);
  }

  lemma GetLocking(trail: Trail, name: string, start: seq<Step>) returns (steps: seq<Step>)
    requires Closed(trail) && trail(start, Holder(name))
    ensures trail(steps, Locking(name))
  {
    var b: Broker;
    steps, b := Follow(trail, start, Holder(name), LockWrite(1));
    assert b == Locking(name);
  }

  function Published(name: string, message: string): Broker {
    Subscribed(name).(rooms := [Room([message], 1, 1)], nextTask := 2)
  }

  function PushedTo(name: string, message: string): Broker {
    Locking(name).(rooms := [Room([message], 1, 0)], tasks := map[1 := Pushed(0)])
  }

  lemma GetPushed(trail: Trail, name: string, message: string, start: seq<Step>) returns (steps: seq<Step>)
    requires Closed(trail) && trail(start, Locking(name))
    ensures trail(steps, PushedTo(name, message))
  {
    var b: Broker;
    steps, b := Follow(trail, start, Locking(name), Push(1, message));
    assert b.rooms[0] == Room([message], 1, 0) by { assert [] + [message] == [message]; }
    assert b == PushedTo(name, message);
  }

  lemma GetPublished(trail: Trail, name: string, message: string, start: seq<Step>) returns (steps: seq<Step>)
    requires Closed(trail) && trail(start, PushedTo(name, message))
    ensures trail(steps, Published(name, message))
  {
    var b: Broker;
    steps, b := Follow(trail, start, PushedTo(name, message), Notify(1));
    assert b == Locking(name).(rooms := [Room([message], 1, 1)], tasks := map[1 := Notified(0)]);
    steps, b := Follow(trail, steps, b, Unlock(1));
    assert b == Published(name, message);
  }

  /** The subscriber has seen the message with id 0. */
  function Seen(name: string, message: string): Broker {
    Published(name, message).(subs := map[0 := Sub(name, 0, 0, 0, 1, Idle, [(0, message)])])
  }

  /** It is gone, and nobody watches. */
  function Gone(name: string, message: string): Broker {
    Broker([Room([message], 0, 1)], map[name := 0], map[], map[], 2, 1)
  }

  lemma GetSeen(trail: Trail, name: string, message: string, start: seq<Step>) returns (steps: seq<Step>)
    requires Closed(trail) && trail(start, Published(name, message))
    ensures trail(steps, Seen(name, message))
  {
    var b: Broker;
    steps, b := Follow(trail, start, Published(name, message), LockRead(0));
    assert b == Published(name, message).(subs := map[0 := Sub(name, 0, 0, 0, 0, Reading, [])]);
    steps, b := Follow(trail, steps, b, Deliver(0));
    assert b.subs[0].delivered == [(0, message)];
    assert b == Seen(name, message);
  }

  lemma GetGone(trail: Trail, name: string, message: string, start: seq<Step>) returns (steps: seq<Step>)
    requires Closed(trail) && trail(start, Seen(name, message))
    ensures start <= steps && trail(steps, Gone(name, message))
  {
    var b: Broker;
    steps, b := Follow(trail, start, Seen(name, message), Drop(0));
    assert b == Gone(name, message);
  }

  /** It comes back, and its look-up has judged the room unwatched. */
  function Returning(name: string, message: string): Broker {
    Gone(name, message).(tasks := map[2 := Replacing(name)], nextTask := 3)
  }

  lemma GetReturning(trail: Trail, name: string, message: string, start: seq<Step>) returns (steps: seq<Step>)
    requires Closed(trail) && trail(start, Gone(name, message))
    ensures start <= steps && trail(steps, Returning(name, message))
  {
    var b: Broker;
    steps, b := Follow(trail, start, Gone(name, message), Ask(name));
    assert b == Gone(name, message).(tasks := map[2 := Looking(name)], nextTask := 3);
    steps, b := Follow(trail, steps, b, FastLookup(2));
    assert b == Gone(name, message).(tasks := map[2 := Missed(name)], nextTask := 3);
    steps, b := Follow(trail, steps, b, Judge(2));
    assert b == Returning(name, message);
  }

  /** It holds a new room. */
  function Back(name: string, message: string): Broker {
    Broker([Room([message], 0, 1), EMPTY_ROOM], map[name := 1], map[2 := Holding(name, 1)], map[], 3, 1)
  }

  lemma GetBack(trail: Trail, name: string, message: string, start: seq<Step>) returns (steps: seq<Step>)
    requires Closed(trail) && trail(start, Returning(name, message))
    ensures start <= steps && trail(steps, Back(name, message))
  {
    var b: Broker;
    steps, b := Follow(trail, start, Returning(name, message), Install(2));
    assert b.mapped == map[name := 1] && b.tasks == map[2 := Holding(name, 1)];
    assert b == Back(name, message);
  }

  /** It resumes behind id 0, in a new room whose log has no id 0 yet. */
  function Resumed(name: string, message: string): Broker {
    Back(name, message).(
      rooms := [Room([message], 0, 1), Room([], 1, 0)], tasks := map[],
      subs := map[1 := Sub(name, 2, 1, 1, 1, Idle, [])], nextSub := 2)
  }

  lemma GetResumed(trail: Trail, name: string, message: string, start: seq<Step>) returns (steps: seq<Step>)
    requires Closed(trail) && trail(start, Back(name, message))
    ensures start <= steps && trail(steps, Resumed(name, message))
  {
    var b: Broker;
    steps, b := Follow(trail, start, Back(name, message), Subscribe(2, Some(0)));
    assert b == Resumed(name, message);
  }

  /** What the two ends show: the same client, cut off. */
  ghost predicate IsCutOff(before: Broker, after: Broker, name: string, message: string) {
    && LivesIn(before, 0, name, 0) && before.subs[0].delivered == [(0, message)]
    && LivesIn(after, 1, name, 1) && ComesBack(before, after.subs[1], name) && Resumes(before.subs[0], after.subs[1])
    && 1 < |after.rooms| && after.rooms[1].messages == [] && after.subs[1].start == 1
  }

  lemma SeenAndResumed(name: string, message: string)
    ensures IsCutOff(Seen(name, message), Resumed(name, message), name, message)
  {
  }

  /**
   * With no keeper, resumption is cut off: a client sees id 0, leaves, and comes back behind
   * id 0 in a new, empty room. What that room gets as its id 0 it will, by
   * `EntriesBeforeStartAreMissed`, never see.
   */
  lemma UnkeptResumptionIsCutOff(name: string, message: string) returns (seen: seq<Step>, resumed: seq<Step>)
    ensures Legal(seen) && Legal(resumed) && seen <= resumed
    ensures IsCutOff(Reached(seen), Reached(resumed), name, message)
  {
    var trail := RunsAreClosed();
    var steps := GetFirstRoom(trail, name);
    steps := GetSubscribed(trail, name, steps);
    steps := GetHolder(trail, name, steps);
    steps := GetLocking(trail, name, steps);
    steps := GetPushed(trail, name, message, steps);
    steps := GetPublished(trail, name, message, steps);
    seen := GetSeen(trail, name, message, steps);
    var gone := GetGone(trail, name, message, seen);
    var returning := GetReturning(trail, name, message, gone);
    var back := GetBack(trail, name, message, returning);
    resumed := GetResumed(trail, name, message, back);
    assert Ends(seen, Seen(name, message)) && Ends(resumed, Resumed(name, message));
    SeenAndResumed(name, message);
  }
}

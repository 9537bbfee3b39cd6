/** What the coordinator puts on the sink, over whole runs: nothing addressed leaves it unsealed. */
module Outbox {
  import opened Basics
  import opened Codecs
  import opened Rooms
  import opened Storage
  import opened Envelopes
  import opened CoordinatorSpec
  import opened MessageLife

  /** One more entry, the sealed form of the message, if it can go out; nothing otherwise. */
  ghost predicate OutgoingFate(cfg: Config, s: State, msg: CoreMessage, nonce: nat, s': State) {
    && s' == s.(outbox := s'.outbox)
    && if CanGoOut(cfg.codec, s.tree, msg, nonce) then
         exists out :: s'.outbox == s.outbox + [out] && IsSealedForm(cfg.codec, s.tree, msg, nonce, out)
       else s'.outbox == s.outbox
  }

  lemma OutgoingHasFate(cfg: Config, s: State, msg: CoreMessage, nonce: nat)
    requires Lawful(cfg.codec) && Enabled(s, Outgoing(msg, nonce))
    ensures OutgoingFate(cfg, s, msg, nonce, Step(cfg, s, Outgoing(msg, nonce)))
  {
    EncryptExactly(cfg.codec, s.tree, msg, nonce);
  }

  lemma SignWithSendsNothing(cfg: Config, s: State, req: SignRequest, stored: StoredShare, machineStarts: bool)
    ensures SignWith(cfg, s, req, stored, machineStarts).outbox == s.outbox
  {
  }

  lemma OthersSendNothing(cfg: Config, s: State, ev: Event)
    requires Enabled(s, ev) && !ev.Outgoing?
    ensures Step(cfg, s, ev).outbox == s.outbox
  {
    if IsMessageEvent(ev) {
      MessageEventsTouchLedgerOnly(cfg, s, ev);
    } else if ev.SignRequested? {
      var share := ShareAt(cfg.codec, cfg.sk, s.tree, ev.sign.publicKey);
      if share.Some? {
        SignWithSendsNothing(cfg, Use(s, ev.sign.requestId), ev.sign, share.value, ev.machineStarts);
      }
    }
  }

  /** The outbox holds one entry for each message that could go out, in order: its sealed form at that time. */
  ghost predicate IsSent(cfg: Config, events: seq<Event>, outbox: seq<CoreMessage>)
    requires Legal(cfg, events)
  {
    if events == [] then outbox == []
    else
      var n := |events| - 1;
      var tree := After(cfg, events[..n]).tree;
      if events[n].Outgoing? && CanGoOut(cfg.codec, tree, events[n].core, events[n].nonce) then
        && outbox != []
        && IsSent(cfg, events[..n], outbox[..|outbox| - 1])
        && IsSealedForm(cfg.codec, tree, events[n].core, events[n].nonce, outbox[|outbox| - 1])
      else IsSent(cfg, events[..n], outbox)
  }

  /** In every run: each message that can go out adds exactly one entry, in its sealed form, and nothing else does. */
  lemma {:induction false} OutboxIsSent(cfg: Config, events: seq<Event>)
    requires Lawful(cfg.codec) && Legal(cfg, events)
    ensures IsSent(cfg, events, After(cfg, events).outbox)
  {
    if events != [] {
      var n := |events| - 1;
      var s := After(cfg, events[..n]);
      OutboxIsSent(cfg, events[..n]);
      if events[n].Outgoing? {
        OutgoingHasFate(cfg, s, events[n].core, events[n].nonce);
      } else {
        OthersSendNothing(cfg, s, events[n]);
      }
    }
  }

  lemma SealedFormLasts(c: Codec, tree: Tree, tree': Tree, msg: CoreMessage, nonce: nat, out: CoreMessage)
    requires Grows(tree, tree') && IsSealedForm(c, tree, msg, nonce, out)
    ensures IsSealedForm(c, tree', msg, nonce, out)
  {
    if c.parseGeneric(msg.message).value.receiver.Some? {
      var groupId := ExtractGroupId(msg.room).value;
      assert groupId in tree && GroupAt(tree', groupId) == GroupAt(tree, groupId);
    }
  }

  ghost predicate IsSealed(c: Codec, tree: Tree, out: CoreMessage) {
    exists msg, nonce :: IsSealedForm(c, tree, msg, nonce, out)
  }

  /** Each entry is the sealed form of some message, for the groups on file. */
  ghost predicate AllSealed(c: Codec, tree: Tree, outbox: seq<CoreMessage>) {
    forall i | 0 <= i < |outbox| :: IsSealed(c, tree, outbox[i])
  }

  lemma LastIsSealed(cfg: Config, s: State, ev: Event)
    requires Lawful(cfg.codec) && Enabled(s, ev) && |Step(cfg, s, ev).outbox| > |s.outbox|
    ensures var s' := Step(cfg, s, ev);
            && ev.Outgoing? && |s'.outbox| == |s.outbox| + 1
            && IsSealedForm(cfg.codec, s'.tree, ev.core, ev.nonce, s'.outbox[|s.outbox|])
  {
    if ev.Outgoing? {
      OutgoingHasFate(cfg, s, ev.core, ev.nonce);
    } else {
      OthersSendNothing(cfg, s, ev);
    }
  }

  lemma StepKeepsSealed(cfg: Config, s: State, ev: Event)
    requires Lawful(cfg.codec) && Enabled(s, ev) && AllSealed(cfg.codec, s.tree, s.outbox)
    ensures AllSealed(cfg.codec, Step(cfg, s, ev).tree, Step(cfg, s, ev).outbox)
  {
    var s' := Step(cfg, s, ev);
    assert Grows(s.tree, s'.tree) by {
      if IsMessageEvent(ev) {
        MessageEventsTouchLedgerOnly(cfg, s, ev);
      } else {
        OtherEventsGrowTree(cfg, s, ev);
      }
    }
    assert |s'.outbox| >= |s.outbox| && s'.outbox[..|s.outbox|] == s.outbox by {
      if ev.Outgoing? {
        OutgoingHasFate(cfg, s, ev.core, ev.nonce);
      } else {
        OthersSendNothing(cfg, s, ev);
      }
    }
    forall i | 0 <= i < |s'.outbox|
      ensures IsSealed(cfg.codec, s'.tree, s'.outbox[i])
    {
      if i < |s.outbox| {
        assert s'.outbox[i] == s.outbox[i] && IsSealed(cfg.codec, s.tree, s.outbox[i]);
        var msg, nonce :| IsSealedForm(cfg.codec, s.tree, msg, nonce, s.outbox[i]);
        SealedFormLasts(cfg.codec, s.tree, s'.tree, msg, nonce, s.outbox[i]);
      } else {
        LastIsSealed(cfg, s, ev);
      }
    }
  }

  lemma {:induction false} RunKeepsSealed(cfg: Config, events: seq<Event>)
    requires Lawful(cfg.codec) && Legal(cfg, events)
    ensures AllSealed(cfg.codec, After(cfg, events).tree, After(cfg, events).outbox)
  {
    if events != [] {
      var n := |events| - 1;
      RunKeepsSealed(cfg, events[..n]);
      StepKeepsSealed(cfg, After(cfg, events[..n]), events[n]);
    }
  }

  /** The body is a ciphertext sealed to the key at the receiver's index of the group on file. */
  ghost predicate IsSealedTo(c: Codec, tree: Tree, room: string, receiver: nat, body: string) {
    exists key, plaintext, nonce, ciphertext ::
      && IsReceiversKey(tree, room, receiver, key)
      && c.seal(key, plaintext, nonce) == Some(ciphertext)
      && body == c.showSealed(ciphertext)
  }

  ghost predicate SealedIfAddressed(c: Codec, tree: Tree, out: CoreMessage) {
    && c.parseGeneric(out.message).Some?
    && var m := c.parseGeneric(out.message).value;
       m.receiver.Some? ==> IsSealedTo(c, tree, out.room, m.receiver.value, m.body)
  }

  lemma SealedFormIsSealed(c: Codec, tree: Tree, msg: CoreMessage, nonce: nat, out: CoreMessage)
    requires Lawful(c) && IsSealedForm(c, tree, msg, nonce, out)
    ensures SealedIfAddressed(c, tree, out)
  {
    var m := c.parseGeneric(msg.message).value;
    if m.receiver.Some? {
      var key, ciphertext :|
        && IsReceiversKey(tree, msg.room, m.receiver.value, key)
        && c.seal(key, m.body, nonce) == Some(ciphertext)
        && out.message == c.showGeneric(Generic(m.sender, m.receiver, c.showSealed(ciphertext)));
      assert c.validJson(c.showSealed(ciphertext));
      assert c.parseGeneric(out.message) == Some(Generic(m.sender, m.receiver, c.showSealed(ciphertext)));
      assert IsSealedTo(c, tree, out.room, m.receiver.value, c.showSealed(ciphertext));
    }
  }

  /**
   * Confidentiality of the sink: in every run each addressed entry carries a ciphertext for its receiver, and
   * no plaintext.
   */
  lemma {:induction false} NothingLeavesUnsealed(cfg: Config, events: seq<Event>)
    requires Lawful(cfg.codec) && Legal(cfg, events)
    ensures var s := After(cfg, events);
            forall i | 0 <= i < |s.outbox| :: SealedIfAddressed(cfg.codec, s.tree, s.outbox[i])
  {
    RunKeepsSealed(cfg, events);
    var s := After(cfg, events);
    forall i | 0 <= i < |s.outbox|
      ensures SealedIfAddressed(cfg.codec, s.tree, s.outbox[i])
    {
      assert IsSealed(cfg.codec, s.tree, s.outbox[i]);
      var msg, nonce :| IsSealedForm(cfg.codec, s.tree, msg, nonce, s.outbox[i]);
      SealedFormIsSealed(cfg.codec, s.tree, msg, nonce, s.outbox[i]);
    }
  }
}

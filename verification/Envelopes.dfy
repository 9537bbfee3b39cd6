/** Messages on their way out and in: encrypt to an index, sign, verify, filter, decrypt. */
module Envelopes {
  import opened Basics
  import opened Codecs
  import opened Groups
  import opened Rooms
  import opened Storage

  datatype CoreMessage = CoreMessage(room: string, message: string)

  datatype WireMessage = WireMessage(room: string, payload: string, senderPublicKey: string, signature: string)

  /** The key list of the group that a room leads to, if there is one on file. */
  function FiledFor(tree: Tree, room: string): seq<string> {
    match ExtractGroupId(room)
    case Err(_) => []
    case Ok(groupId) =>
      match GroupAt(tree, groupId)
      case None => []
      case Some(group) => group.publicKeys
  }

  /** Encrypts the body of an addressed message to the key at the receiver's index. */
  function MaybeEncrypt(c: Codec, tree: Tree, msg: CoreMessage, nonce: nat): Option<CoreMessage> {
    match c.parseGeneric(msg.message)
    case None => None
    case Some(m) =>
      if m.receiver.None? then Some(msg)
      else
        match ExtractGroupId(msg.room)
        case Err(_) => None
        case Ok(groupId) =>
          match GroupAt(tree, groupId)
          case None => None
          case Some(group) =>
            match PublicKeyAt(group.publicKeys, m.receiver.value)
            case Err(_) => None
            case Ok(key) =>
              match c.seal(key, m.body, nonce)
              case None => None
              case Some(ciphertext) =>
                var body := c.showSealed(ciphertext);
                if !c.validJson(body) then None
                else Some(msg.(message := c.showGeneric(m.(body := body))))
  }

  /** Decrypts the body of an addressed message; a broadcast passes unchanged. */
  function MaybeDecrypt(c: Codec, sk: string, msg: WireMessage): Option<WireMessage> {
    match c.parseGeneric(msg.payload)
    case None => None
    case Some(m) =>
      if m.receiver.None? then Some(msg)
      else
        match c.parseSealed(m.body)
        case None => None
        case Some(ciphertext) =>
          match c.open(sk, ciphertext)
          case None => None
          case Some(plaintext) =>
            if !c.validJson(plaintext) then None
            else Some(msg.(payload := c.showGeneric(m.(body := plaintext))))
  }

  function SignEnvelope(c: Codec, sk: string, envelope: CoreMessage): WireMessage {
    WireMessage(envelope.room, envelope.message, c.publicKey(sk), c.sign(sk, envelope.message))
  }

  /** Verification on the receiving side; an unverifiable message never reaches the node. */
  function ParseSigned(c: Codec, msg: WireMessage): Option<WireMessage> {
    if c.verify(msg.senderPublicKey, msg.payload, msg.signature) then Some(msg) else None
  }

  predicate TakeNonOwned(own: string, msg: WireMessage) {
    msg.senderPublicKey != own
  }

  /** The stream a node listens to: verified messages of other nodes. */
  function Accepted(c: Codec, own: string, msg: WireMessage): Option<WireMessage> {
    match ParseSigned(c, msg)
    case Some(m) => if TakeNonOwned(own, m) then Some(m) else None
    case None => None
  }

  /** A message is accepted, unchanged, exactly if its signature verifies and its sender is somebody else. */
  lemma AcceptedIff(c: Codec, own: string, msg: WireMessage)
    ensures Accepted(c, own, msg).Some? <==>
              c.verify(msg.senderPublicKey, msg.payload, msg.signature) && msg.senderPublicKey != own
    ensures Accepted(c, own, msg).Some? ==> Accepted(c, own, msg) == Some(msg)
  {
  }

  /** An honest node's message is accepted by exactly the nodes that hold another key. */
  lemma SignedIsAccepted(c: Codec, sk: string, own: string, envelope: CoreMessage)
    requires Lawful(c)
    ensures Accepted(c, own, SignEnvelope(c, sk, envelope)).Some? <==> own != c.publicKey(sk)
    ensures own != c.publicKey(sk) ==>
        Accepted(c, own, SignEnvelope(c, sk, envelope)) == Some(SignEnvelope(c, sk, envelope))
  {
    assert c.verify(c.publicKey(sk), envelope.message, c.sign(sk, envelope.message));
  }

  /** The key that an addressed message is sealed to: the one at the receiver's index of the group on file. */
  ghost predicate IsReceiversKey(tree: Tree, room: string, receiver: nat, key: string) {
    1 <= receiver <= |FiledFor(tree, room)| && FiledFor(tree, room)[receiver - 1] == key
  }

  /** What a message becomes on its way out: itself if it is for all, and else with a body sealed to the receiver. */
  ghost predicate IsSealedForm(c: Codec, tree: Tree, msg: CoreMessage, nonce: nat, out: CoreMessage) {
    && out.room == msg.room && c.parseGeneric(msg.message).Some?
    && var m := c.parseGeneric(msg.message).value;
       if m.receiver.None? then out.message == msg.message
       else
         exists key, ciphertext ::
           && IsReceiversKey(tree, msg.room, m.receiver.value, key)
           && c.seal(key, m.body, nonce) == Some(ciphertext)
           && out.message == c.showGeneric(Generic(m.sender, m.receiver, c.showSealed(ciphertext)))
  }

  /** A message can go out: it is readable, and if addressed its receiver's key is on file and can be sealed to. */
  ghost predicate CanGoOut(c: Codec, tree: Tree, msg: CoreMessage, nonce: nat) {
    && c.parseGeneric(msg.message).Some?
    && var m := c.parseGeneric(msg.message).value;
       m.receiver.Some? ==>
         exists key :: IsReceiversKey(tree, msg.room, m.receiver.value, key) && c.seal(key, m.body, nonce).Some?
  }

  /** Encryption, exactly: it succeeds when the message can go out, and then gives its sealed form. */
  lemma EncryptExactly(c: Codec, tree: Tree, msg: CoreMessage, nonce: nat)
    requires Lawful(c)
    ensures MaybeEncrypt(c, tree, msg, nonce).Some? <==> CanGoOut(c, tree, msg, nonce)
    ensures MaybeEncrypt(c, tree, msg, nonce).Some? ==>
              IsSealedForm(c, tree, msg, nonce, MaybeEncrypt(c, tree, msg, nonce).value)
  {
    if c.parseGeneric(msg.message).Some? && c.parseGeneric(msg.message).value.receiver.Some? {
      var m := c.parseGeneric(msg.message).value;
      var keys, r := FiledFor(tree, msg.room), m.receiver.value;
      if 1 <= r <= |keys| && c.seal(keys[r - 1], m.body, nonce).Some? {
        assert IsReceiversKey(tree, msg.room, r, keys[r - 1]);
        assert c.validJson(c.showSealed(c.seal(keys[r - 1], m.body, nonce).value));
      }
    }
  }

  /** The body of an addressed message is a ciphertext that opens to this. */
  ghost predicate OpensAs(c: Codec, sk: string, body: string, plaintext: string) {
    exists ciphertext :: c.parseSealed(body) == Some(ciphertext) && c.open(sk, ciphertext) == Some(plaintext)
  }

  /** What a message is on its way in: itself if it is for all, and else with its body opened. */
  ghost predicate IsOpenedForm(c: Codec, sk: string, msg: WireMessage, plain: WireMessage) {
    && plain == msg.(payload := plain.payload) && c.parseGeneric(msg.payload).Some?
    && var m := c.parseGeneric(msg.payload).value;
       if m.receiver.None? then plain.payload == msg.payload
       else
         exists plaintext ::
           && OpensAs(c, sk, m.body, plaintext) && c.validJson(plaintext)
           && plain.payload == c.showGeneric(Generic(m.sender, m.receiver, plaintext))
  }

  /** Decryption, exactly: nothing addressed gets through unless its body opens to valid JSON. */
  lemma DecryptExactly(c: Codec, sk: string, msg: WireMessage, plain: WireMessage)
    ensures MaybeDecrypt(c, sk, msg) == Some(plain) <==> IsOpenedForm(c, sk, msg, plain)
  {
    if c.parseGeneric(msg.payload).Some? && c.parseGeneric(msg.payload).value.receiver.Some? {
      var m := c.parseGeneric(msg.payload).value;
      if MaybeDecrypt(c, sk, msg) == Some(plain) {
        assert OpensAs(c, sk, m.body, c.open(sk, c.parseSealed(m.body).value).value);
      }
    }
  }

  /** Both ends keep everything but the body of an addressed message. */
  lemma CiphersKeepTheHeader(c: Codec, tree: Tree, sk: string, msg: CoreMessage, wire: WireMessage, nonce: nat)
    requires Lawful(c)
    ensures MaybeEncrypt(c, tree, msg, nonce).Some? ==>
              var out := MaybeEncrypt(c, tree, msg, nonce).value;
              && out.room == msg.room
              && c.parseGeneric(msg.message).Some? && c.parseGeneric(out.message).Some?
              && c.parseGeneric(out.message).value.sender == c.parseGeneric(msg.message).value.sender
              && c.parseGeneric(out.message).value.receiver == c.parseGeneric(msg.message).value.receiver
    ensures MaybeDecrypt(c, sk, wire).Some? ==>
              var m := MaybeDecrypt(c, sk, wire).value;
              && m == wire.(payload := m.payload)
              && c.parseGeneric(wire.payload).Some? && c.parseGeneric(m.payload).Some?
              && c.parseGeneric(m.payload).value.sender == c.parseGeneric(wire.payload).value.sender
              && c.parseGeneric(m.payload).value.receiver == c.parseGeneric(wire.payload).value.receiver
  {
  }

  /**
   * Out and in again: the party whose key stands at the receiver's index of the sender's
   * group, and any party for a broadcast, decrypts to exactly the message that was emitted.
   */
  lemma EncryptThenDecrypt(c: Codec, tree: Tree, sk: string, sk': string, msg: CoreMessage, nonce: nat)
    requires Lawful(c)
    requires MaybeEncrypt(c, tree, msg, nonce).Some?
    requires var m := c.parseGeneric(msg.message).value;
             m.receiver.Some? ==>
               PublicKeyAt(GroupAt(tree, ExtractGroupId(msg.room).value).value.publicKeys, m.receiver.value) ==
                   Ok(c.publicKey(sk'))
    ensures var wire := SignEnvelope(c, sk, MaybeEncrypt(c, tree, msg, nonce).value);
            && MaybeDecrypt(c, sk', wire).Some?
            && c.parseGeneric(MaybeDecrypt(c, sk', wire).value.payload) == c.parseGeneric(msg.message)
  {
    var m := c.parseGeneric(msg.message).value;
    if m.receiver.Some? {
      var ciphertext := c.seal(c.publicKey(sk'), m.body, nonce).value;
      assert c.open(sk', ciphertext) == Some(m.body);
      var sealed := m.(body := c.showSealed(ciphertext));
      assert c.parseGeneric(c.showGeneric(sealed)) == Some(sealed);
      assert c.parseGeneric(c.showGeneric(m)) == Some(m);
    }
  }

  /** An addressed message always encrypts once its group is stored and the index is the key of some party. */
  lemma EncryptSucceeds(c: Codec, tree: Tree, msg: CoreMessage, nonce: nat, sk: string)
    requires Lawful(c) && c.parseGeneric(msg.message).Some?
    requires var m := c.parseGeneric(msg.message).value;
             m.receiver.Some? ==>
               && ExtractGroupId(msg.room).Ok?
               && GroupAt(tree, ExtractGroupId(msg.room).value).Some?
               && PublicKeyAt(GroupAt(tree, ExtractGroupId(msg.room).value).value.publicKeys, m.receiver.value) ==
                 Ok(c.publicKey(sk))
    ensures MaybeEncrypt(c, tree, msg, nonce).Some?
  {
    var m := c.parseGeneric(msg.message).value;
    assert c.seal(c.publicKey(sk), m.body, nonce).Some?;
  }
}

/** Encryption and decryption of a message in place. */
module Ciphers {
  import opened Codecs
  import opened Rooms
  import opened Groups
  import opened Storage
  import Envelopes

  class CoreCell {
    var room: string
    var message: string

    function View(): Envelopes.CoreMessage
      reads this
    {
      Envelopes.CoreMessage(room, message)
    }

    constructor (msg: Envelopes.CoreMessage)
      ensures View() == msg
    {
      room, message := msg.room, msg.message;
    }
  }

  class WireCell {
    var room: string
    var payload: string
    const senderPublicKey: string
    const signature: string

    function View(): Envelopes.WireMessage
      reads this
    {
      Envelopes.WireMessage(room, payload, senderPublicKey, signature)
    }

    constructor (msg: Envelopes.WireMessage)
      ensures View() == msg
    {
      room, payload := msg.room, msg.payload;
      senderPublicKey, signature := msg.senderPublicKey, msg.signature;
    }
  }

  class SimpleEncrypter {
    const codec: Codec
    const db: Database

    constructor (codec: Codec, db: Database)
      ensures this.codec == codec && this.db == db
    {
      this.codec := codec;
      this.db := db;
    }

    /** Replaces the body of an addressed message; a failure leaves the message as it was. */
    method MaybeEncrypt(msg: CoreCell, nonce: nat) returns (ok: bool)
      modifies msg`message
      ensures var out := Envelopes.MaybeEncrypt(codec, db.tree, old(msg.View()), nonce);
              && (ok <==> out.Some?)
              && msg.View() == (if ok then out.value else old(msg.View()))
    {
      var parsed := codec.parseGeneric(msg.message);
      if parsed.None? {
        return false;
      }
      var m := parsed.value;
      if m.receiver.None? {
        return true;
      }
      var groupId := ExtractGroupId(msg.room);
      if groupId.Err? {
        return false;
      }
      var group := GroupAt(db.tree, groupId.value);
      if group.None? {
        return false;
      }
      var key := PublicKeyAt(group.value.publicKeys, m.receiver.value);
      if key.Err? {
        return false;
      }
      var encrypted := codec.seal(key.value, m.body, nonce);
      if encrypted.None? {
        return false;
      }
      var body := codec.showSealed(encrypted.value);
      if !codec.validJson(body) {
        return false;
      }
      m := m.(body := body);
      msg.message := codec.showGeneric(m);
      return true;
    }
  }

  class SimpleDecrypter {
    const codec: Codec
    const sk: string

    constructor (codec: Codec, sk: string)
      ensures this.codec == codec && this.sk == sk
    {
      this.codec := codec;
      this.sk := sk;
    }

    /** Replaces the body of an addressed message; a failure leaves the message as it was. */
    method MaybeDecrypt(msg: WireCell) returns (ok: bool)
      modifies msg`payload
      ensures var out := Envelopes.MaybeDecrypt(codec, sk, old(msg.View()));
              && (ok <==> out.Some?)
              && msg.View() == (if ok then out.value else old(msg.View()))
    {
      var parsed := codec.parseGeneric(msg.payload);
      if parsed.None? {
        return false;
      }
      var m := parsed.value;
      if m.receiver.None? {
        return true;
      }
      var encrypted := codec.parseSealed(m.body);
      if encrypted.None? {
        return false;
      }
      var decrypted := codec.open(sk, encrypted.value);
      if decrypted.None? || !codec.validJson(decrypted.value) {
        return false;
      }
      m := m.(body := decrypted.value);
      msg.payload := codec.showGeneric(m);
      return true;
    }
  }
}

/**
 * The libraries the node calls and does not contain: JSON, ECIES, ECDSA and big-integer
 * parsing. They enter every statement as a record of functions, and `Lawful` lists all
 * that is ever assumed of them.
 */
module Codecs {
  import opened Basics

  /** The fields every protocol message shares; `body` is raw JSON text. */
  datatype Generic = Generic(sender: U16, receiver: Option<U16>, body: string)

  /** The three kinds of runner, each with its own message type. */
  datatype Kind = Keygen | Offline | Signing

  /** A compressed curve point in hex: 33 bytes. */
  type PointHex = s: string | |s| == 66 witness seq(66, _ => '0')

  /** A key share as key generation delivers it. */
  datatype LocalKey = LocalKey(t: U16, sumPublicKey: PointHex, secret: string)

  datatype Codec = Codec(
    parseGeneric: string -> Option<Generic>,
    showGeneric: Generic -> string,
    parseSealed: string -> Option<string>,
    showSealed: string -> string,
    parseShare: string -> Option<LocalKey>,
    showShare: LocalKey -> string,
    validJson: string -> bool,
    decodes: (Kind, string) -> bool,
    hashParses: string -> bool,
    publicKey: string -> PointHex,
    seal: (string, string, nat) -> Option<string>,
    open: (string, string) -> Option<string>,
    sign: (string, string) -> string,
    verify: (string, string, string) -> bool)

  /** JSON loses nothing, and a payload with a typed reading has a generic one. */
  ghost predicate LosslessJson(c: Codec) {
    && (forall g: Generic :: c.validJson(g.body) ==> c.parseGeneric(c.showGeneric(g)) == Some(g))
    && (forall s: string :: c.parseGeneric(s).Some? ==> c.validJson(c.parseGeneric(s).value.body))
    && (forall s: string :: c.validJson(c.showSealed(s)) && c.parseSealed(c.showSealed(s)) == Some(s))
    && (forall k: LocalKey :: c.parseShare(c.showShare(k)) == Some(k))
    && (forall kind: Kind, s: string :: c.decodes(kind, s) ==> c.parseGeneric(s).Some?)
  }

  /** Encryption to a key is undone by its secret, whatever randomness was drawn. */
  ghost predicate CorrectEcies(c: Codec) {
    forall sk: string, m: string, nonce: nat ::
      && c.seal(c.publicKey(sk), m, nonce).Some?
      && c.open(sk, c.seal(c.publicKey(sk), m, nonce).value) == Some(m)
  }

  /** What a key signs, its public key verifies. */
  ghost predicate CorrectSignatures(c: Codec) {
    forall sk: string, m: string :: c.verify(c.publicKey(sk), m, c.sign(sk, m))
  }

  ghost predicate Lawful(c: Codec) {
    LosslessJson(c) && CorrectEcies(c) && CorrectSignatures(c)
  }

  // ---- The assumptions can be met ----

  function Digits(n: U16): (s: string)
    ensures |s| == 2
  {
    [(n / 256) as char, (n % 256) as char]
  }

  function Number(s: string): U16
    requires |s| == 2
  {
    if s[0] as int < 256 && s[1] as int < 256 then s[0] as int * 256 + s[1] as int else 0
  }

  lemma NumberOfDigits(n: U16)
    ensures Number(Digits(n)) == n
  {
  }

  function ShowPlain(g: Generic): string {
    Digits(g.sender) + (if g.receiver.Some? then ['>'] + Digits(g.receiver.value) else "*..") + g.body
  }

  function ParsePlain(s: string): Option<Generic> {
    if |s| < 5 then None
    else Some(Generic(Number(s[..2]), if s[2] == '>' then Some(Number(s[3..5])) else None, s[5..]))
  }

  function ShowKey(k: LocalKey): string {
    Digits(k.t) + k.sumPublicKey + k.secret
  }

  function ParseKey(s: string): Option<LocalKey> {
    if |s| < 68 then None else Some(LocalKey(Number(s[..2]), s[2..68], s[68..]))
  }

  lemma PlainRoundTrip(g: Generic)
    ensures ParsePlain(ShowPlain(g)) == Some(g)
  {
    var s := ShowPlain(g);
    NumberOfDigits(g.sender);
    assert s[..2] == Digits(g.sender) && s[5..] == g.body;
    if g.receiver.Some? {
      NumberOfDigits(g.receiver.value);
      assert s[3..5] == Digits(g.receiver.value);
    }
  }

  lemma KeyRoundTrip(k: LocalKey)
    ensures ParseKey(ShowKey(k)) == Some(k)
  {
    var s := ShowKey(k);
    NumberOfDigits(k.t);
    assert s[..2] == Digits(k.t) && s[2..68] == k.sumPublicKey && s[68..] == k.secret;
  }

  /** A secret cut or filled up to 66 characters. */
  function PlainKey(sk: string): PointHex {
    (sk + seq(66, _ => '0'))[..66]
  }

  function OpenPlain(sk: string, ciphertext: string): Option<string> {
    if PlainKey(sk) <= ciphertext then Some(ciphertext[66..]) else None
  }

  /** A toy library whose keys, ciphertexts and signatures depend on the secret. */
  function PlainCodec(): Codec {
    Codec(
      ParsePlain, ShowPlain, s => Some(s), s => s, ParseKey, ShowKey,
      _ => true, (_, s) => ParsePlain(s).Some?, _ => true,
      PlainKey, (key, m, _) => Some(key + m), OpenPlain,
      (sk, m) => PlainKey(sk) + m, (key, m, signature) => signature == key + m)
  }

  /** The assumptions hold of it, so no statement below is about nothing. */
  lemma LawfulIsConsistent()
    ensures Lawful(PlainCodec())
  {
    var c := PlainCodec();
    forall g: Generic
      ensures c.parseGeneric(c.showGeneric(g)) == Some(g)
    {
      PlainRoundTrip(g);
    }
    forall k: LocalKey
      ensures c.parseShare(c.showShare(k)) == Some(k)
    {
      KeyRoundTrip(k);
    }
    forall sk: string, m: string, nonce: nat
      ensures c.seal(c.publicKey(sk), m, nonce).Some? && c.open(sk, c.seal(c.publicKey(sk), m, nonce).value) == Some(m)
    {
      assert (PlainKey(sk) + m)[66..] == m;
    }
  }
}

/** The one database tree that holds both group records and encrypted key shares. */
module Storage {
  import opened Basics
  import opened Groups
  import opened Codecs

  /** A key share as it rests on disk, sealed to the node's own key. */
  datatype EncryptedShare = EncryptedShare(publicKeys: seq<string>, ownPublicKey: string, encryptedShare: string)

  datatype StoredShare = StoredShare(publicKeys: seq<string>, ownPublicKey: string, share: LocalKey)

  /** A stored value decodes as one of the two record types and never as the other. */
  datatype Record = GroupRecord(group: PublicKeyGroup) | ShareRecord(share: EncryptedShare)

  type Tree = map<string, Record>

  /** `compare_and_swap` from absent: the first write of a key stands. */
  function PutIfAbsent(tree: Tree, key: string, record: Record): Tree {
    if key in tree then tree else tree[key := record]
  }

  function WithGroup(tree: Tree, group: PublicKeyGroup): Tree {
    PutIfAbsent(tree, group.groupId, GroupRecord(group))
  }

  function GroupAt(tree: Tree, groupId: string): Option<PublicKeyGroup> {
    if groupId in tree && tree[groupId].GroupRecord? then Some(tree[groupId].group) else None
  }

  function SealShare(c: Codec, stored: StoredShare, nonce: nat): Option<EncryptedShare> {
    match c.seal(stored.ownPublicKey, c.showShare(stored.share), nonce)
    case Some(ciphertext) => Some(EncryptedShare(stored.publicKeys, stored.ownPublicKey, ciphertext))
    case None => None
  }

  function OpenShare(c: Codec, sk: string, sealed: EncryptedShare): Option<StoredShare> {
    match c.open(sk, sealed.encryptedShare)
    case None => None
    case Some(plaintext) =>
      match c.parseShare(plaintext)
      case None => None
      case Some(share) => Some(StoredShare(sealed.publicKeys, sealed.ownPublicKey, share))
  }

  function WithShare(c: Codec, tree: Tree, stored: StoredShare, nonce: nat): Tree {
    match SealShare(c, stored, nonce)
    case Some(sealed) => PutIfAbsent(tree, stored.share.sumPublicKey, ShareRecord(sealed))
    case None => tree
  }

  function ShareAt(c: Codec, sk: string, tree: Tree, publicKey: string): Option<StoredShare> {
    if publicKey in tree && tree[publicKey].ShareRecord? then OpenShare(c, sk, tree[publicKey].share) else None
  }

  /** The shared database handle. */
  class Database {
    var tree: Tree

    constructor ()
      ensures tree == map[]
    {
      tree := map[];
    }

    method SaveGroup(group: PublicKeyGroup)
      modifies this
      ensures tree == WithGroup(old(tree), group)
    {
      if group.groupId !in tree {
        tree := tree[group.groupId := GroupRecord(group)];
      }
    }

    method SaveShare(c: Codec, stored: StoredShare, nonce: nat)
      modifies this
      ensures tree == WithShare(c, old(tree), stored, nonce)
    {
      var sealed := SealShare(c, stored, nonce);
      if sealed.Some? && stored.share.sumPublicKey !in tree {
        tree := tree[stored.share.sumPublicKey := ShareRecord(sealed.value)];
      }
    }
  }

  /** Sealing a share and opening it again gives back the whole record. */
  lemma ShareRoundTrip(c: Codec, sk: string, stored: StoredShare, nonce: nat)
    requires Lawful(c) && stored.ownPublicKey == c.publicKey(sk)
    ensures SealShare(c, stored, nonce).Some?
    ensures OpenShare(c, sk, SealShare(c, stored, nonce).value) == Some(stored)
  {
    assert c.open(sk, c.seal(c.publicKey(sk), c.showShare(stored.share), nonce).value) ==
        Some(c.showShare(stored.share));
  }

  // ---- Any history of saves ----

  datatype Save = SaveGroup(keys: seq<string>, t: U16) | SaveShare(stored: StoredShare, nonce: nat)

  ghost predicate SaveIsPossible(own: string, save: Save) {
    match save
    case SaveGroup(keys, _) => Sliceable(keys)
    case SaveShare(stored, _) => stored.ownPublicKey == own
  }

  function Apply(c: Codec, own: string, tree: Tree, save: Save): Tree
    requires save.SaveGroup? ==> Sliceable(save.keys)
  {
    match save
    case SaveGroup(keys, t) => WithGroup(tree, GroupOf(keys, t, own))
    case SaveShare(stored, nonce) => WithShare(c, tree, stored, nonce)
  }

  ghost predicate PossibleHistory(own: string, saves: seq<Save>) {
    forall i | 0 <= i < |saves| :: SaveIsPossible(own, saves[i])
  }

  ghost function Replay(c: Codec, own: string, saves: seq<Save>): Tree
    requires PossibleHistory(own, saves)
  {
    if saves == [] then map[]
    else Apply(c, own, Replay(c, own, saves[..|saves| - 1]), saves[|saves| - 1])
  }

  /** Keys of the two record types cannot meet: one length is a multiple of eight, the other is 66. */
  ghost predicate Separated(tree: Tree) {
    forall key | key in tree ::
      if tree[key].GroupRecord? then |key| % 8 == 0 && tree[key].group.groupId == key
      else |key| == 66
  }

  lemma SaveKeepsSeparation(c: Codec, own: string, tree: Tree, save: Save)
    requires Separated(tree) && SaveIsPossible(own, save)
    ensures Separated(Apply(c, own, tree, save))
  {
    if save.SaveGroup? {
      GroupIdLength(save.keys);
    }
  }

  /** The type of record that a look-up of this save's key has to find. */
  ghost predicate Found(tree: Tree, save: Save) {
    match save
    case SaveGroup(keys, _) => Sliceable(keys) && GroupAt(tree, GroupId(keys)).Some?
    case SaveShare(stored, _) =>
      var key := stored.share.sumPublicKey;
      key in tree && tree[key].ShareRecord?
  }

  lemma SaveIsFound(c: Codec, sk: string, tree: Tree, save: Save)
    requires Lawful(c) && Separated(tree) && SaveIsPossible(c.publicKey(sk), save)
    ensures Found(Apply(c, c.publicKey(sk), tree, save), save)
  {
    match save
    case SaveGroup(keys, _) => GroupIdLength(keys);
    case SaveShare(stored, nonce) => ShareRoundTrip(c, sk, stored, nonce);
  }

  /** An earlier save's record is never replaced by a later save. */
  lemma {:induction false} HistoryOnlyAdds(c: Codec, own: string, saves: seq<Save>, n: nat, key: string)
    requires PossibleHistory(own, saves) && n <= |saves|
    requires key in Replay(c, own, saves[..n])
    ensures key in Replay(c, own, saves) && Replay(c, own, saves)[key] == Replay(c, own, saves[..n])[key]
  {
    if n == |saves| {
      assert saves[..n] == saves;
    } else {
      var init := saves[..|saves| - 1];
      assert init[..n] == saves[..n];
      HistoryOnlyAdds(c, own, init, n, key);
    }
  }

  lemma {:induction false} HistoryIsSeparated(c: Codec, own: string, saves: seq<Save>)
    requires PossibleHistory(own, saves)
    ensures Separated(Replay(c, own, saves))
  {
    if saves != [] {
      HistoryIsSeparated(c, own, saves[..|saves| - 1]);
      SaveKeepsSeparation(c, own, Replay(c, own, saves[..|saves| - 1]), saves[|saves| - 1]);
    }
  }

  /**
   * No history of saves lets one record type mask the other: once a group or a share has
   * been saved, a look-up of its key finds a record of its own type ever after.
   */
  lemma {:induction false} NothingIsMasked(c: Codec, sk: string, saves: seq<Save>, i: nat)
    requires Lawful(c) && PossibleHistory(c.publicKey(sk), saves) && i < |saves|
    ensures Separated(Replay(c, c.publicKey(sk), saves))
    ensures Found(Replay(c, c.publicKey(sk), saves), saves[i])
  {
    var own := c.publicKey(sk);
    HistoryIsSeparated(c, own, saves);
    HistoryIsSeparated(c, own, saves[..i]);
    var upTo := saves[..i + 1];
    assert upTo[..i] == saves[..i] && upTo[i] == saves[i];
    SaveIsFound(c, sk, Replay(c, own, saves[..i]), saves[i]);
    assert Found(Replay(c, own, upTo), saves[i]);
    var key := if saves[i].SaveGroup? then GroupId(saves[i].keys) else saves[i].stored.share.sumPublicKey;
    HistoryOnlyAdds(c, own, saves, i + 1, key);
  }
}

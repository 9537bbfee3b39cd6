/** Groups of public keys: fixed-width group ids, 1-based indices and signer selection. */
module Groups {
  import opened Basics
  import opened Rooms

  datatype PublicKeyGroup = PublicKeyGroup(
    groupId: string,
    t: U16,
    publicKeys: seq<string>,
    ownPublicKey: string)

  datatype GroupError = InvalidIndex

  /** Each key must be long enough to be sliced at [2..10]; a shorter one panics. */
  predicate Sliceable(keys: seq<string>) {
    forall i | 0 <= i < |keys| :: |keys[i]| >= 10
  }

  function Prefix(key: string): string
    requires |key| >= 10
  {
    key[2..10]
  }

  function GroupId(keys: seq<string>): string
    requires Sliceable(keys)
  {
    if keys == [] then ""
    else GroupId(keys[..|keys| - 1]) + Prefix(keys[|keys| - 1])
  }

  function GroupOf(keys: seq<string>, t: U16, own: string): PublicKeyGroup
    requires Sliceable(keys)
  {
    PublicKeyGroup(GroupId(keys), t, keys, own)
  }

  /** The constructor: the id is accumulated over the keys in order. */
  method NewGroup(keys: seq<string>, t: U16, own: string) returns (g: PublicKeyGroup)
    requires Sliceable(keys)
    ensures g == GroupOf(keys, t, own)
  {
    var groupId := "";
    for i := 0 to |keys|
      invariant groupId == GroupId(keys[..i])
    {
      assert keys[..i + 1][..i] == keys[..i];
      groupId := groupId + keys[i][2..10];
    }
    assert keys[..|keys|] == keys;
    g := PublicKeyGroup(groupId, t, keys, own);
  }

  /** `iter().position(..)` plus one. */
  function IndexOf(keys: seq<string>, key: string): (r: Option<nat>)
    ensures r.None? <==> key !in keys
    ensures r.Some? ==>
              && 1 <= r.value <= |keys|
              && keys[r.value - 1] == key
              && key !in keys[..r.value - 1]
  {
    if keys == [] then None
    else
      var n := |keys| - 1;
      var earlier := IndexOf(keys[..n], key);
      assert keys == keys[..n] + [keys[n]];
      if earlier.Some? then
        assert keys[..n][..earlier.value - 1] == keys[..earlier.value - 1];
        earlier
      else if keys[n] == key then Some(n + 1)
      else None
  }

  /** `get_i`: `None` stands for the panic of `unwrap` on a key outside the group. */
  function OwnIndex(keys: seq<string>, own: string): Option<U16> {
    match IndexOf(keys, own)
    case Some(i) => Some(Truncate16(i))
    case None => None
  }

  function PublicKeyAt(keys: seq<string>, index: nat): Result<string, GroupError> {
    if index == 0 || index > |keys| then Err(InvalidIndex) else Ok(keys[index - 1])
  }

  /** Index and key look-ups are inverse: always one way, and the other way at exactly the first occurrences. */
  lemma IndexAndKeyAreInverse(keys: seq<string>, key: string, index: nat)
    ensures IndexOf(keys, key).Some? ==> PublicKeyAt(keys, IndexOf(keys, key).value) == Ok(key)
    ensures PublicKeyAt(keys, index).Ok? ==>
              (IndexOf(keys, keys[index - 1]) == Some(index) <==> keys[index - 1] !in keys[..index - 1])
  {
    if 1 <= index <= |keys| {
      var k := keys[index - 1];
      var first := IndexOf(keys, k).value;
      assert forall j | 0 <= j < first - 1 :: keys[..first - 1][j] == keys[j];
      assert first <= index;
      if first < index {
        assert keys[..index - 1][first - 1] == k;
      }
    }
  }

  /** In a group that 16 bits can index, an index names its key: two keys never share one. */
  lemma OwnIndexNamesTheKey(keys: seq<string>, key: string)
    requires |keys| < 0x10000 && OwnIndex(keys, key).Some?
    ensures PublicKeyAt(keys, OwnIndex(keys, key).value) == Ok(key)
  {
    IndexAndKeyAreInverse(keys, key, 1);
  }

  // ---- Group identity ----

  lemma {:induction false} GroupIdLength(keys: seq<string>)
    requires Sliceable(keys)
    ensures |GroupId(keys)| == 8 * |keys|
  {
    if keys != [] {
      GroupIdLength(keys[..|keys| - 1]);
    }
  }

  /** The i-th block of eight characters is the i-th key's prefix. */
  lemma {:induction false} GroupIdBlock(keys: seq<string>, i: nat)
    requires Sliceable(keys) && i < |keys|
    ensures |GroupId(keys)| == 8 * |keys|
    ensures GroupId(keys)[8 * i..8 * i + 8] == Prefix(keys[i])
  {
    var n := |keys| - 1;
    GroupIdLength(keys);
    GroupIdLength(keys[..n]);
    if i < n {
      GroupIdBlock(keys[..n], i);
      assert GroupId(keys)[8 * i..8 * i + 8] == GroupId(keys[..n])[8 * i..8 * i + 8];
    }
  }

  lemma {:induction false} GroupIdHasNoSeparator(keys: seq<string>)
    requires Sliceable(keys)
    requires forall i | 0 <= i < |keys| :: SEPARATOR !in Prefix(keys[i])
    ensures SEPARATOR !in GroupId(keys)
  {
    if keys != [] {
      var rest := keys[..|keys| - 1];
      GroupIdHasNoSeparator(rest);
    }
  }

  /** A universe of keys that can be told apart by their eight characters, none of them a separator. */
  ghost predicate DistinctPrefixes(universe: set<string>) {
    && (forall k | k in universe :: |k| >= 10 && SEPARATOR !in Prefix(k))
    && (forall k, k' | k in universe && k' in universe && Prefix(k) == Prefix(k') :: k == k')
  }

  ghost predicate Within(keys: seq<string>, universe: set<string>) {
    forall i | 0 <= i < |keys| :: keys[i] in universe
  }

  lemma {:induction false} SamePrefixesSameGroupId(keys: seq<string>, keys': seq<string>)
    requires Sliceable(keys) && Sliceable(keys') && |keys| == |keys'|
    requires forall i | 0 <= i < |keys| :: Prefix(keys[i]) == Prefix(keys'[i])
    ensures GroupId(keys) == GroupId(keys')
  {
    if keys != [] {
      SamePrefixesSameGroupId(keys[..|keys| - 1], keys'[..|keys'| - 1]);
    }
  }

  /** Two key lists share a group id exactly when they agree prefix by prefix. */
  lemma {:induction false} SameGroupIdIffSamePrefixes(keys: seq<string>, keys': seq<string>)
    requires Sliceable(keys) && Sliceable(keys')
    ensures GroupId(keys) == GroupId(keys') <==>
              |keys| == |keys'| && forall i | 0 <= i < |keys| :: Prefix(keys[i]) == Prefix(keys'[i])
  {
    GroupIdLength(keys);
    GroupIdLength(keys');
    if GroupId(keys) == GroupId(keys') {
      forall i | 0 <= i < |keys|
        ensures Prefix(keys[i]) == Prefix(keys'[i])
      {
        GroupIdBlock(keys, i);
        GroupIdBlock(keys', i);
      }
    } else if |keys| == |keys'| && forall i | 0 <= i < |keys| :: Prefix(keys[i]) == Prefix(keys'[i]) {
      SamePrefixesSameGroupId(keys, keys');
    }
  }

  /** With distinguishable keys the group id names the key list, order included. */
  lemma GroupIdInjective(universe: set<string>, keys: seq<string>, keys': seq<string>)
    requires DistinctPrefixes(universe) && Within(keys, universe) && Within(keys', universe)
    ensures Sliceable(keys) && Sliceable(keys')
    ensures GroupId(keys) == GroupId(keys') <==> keys == keys'
  {
    SameGroupIdIffSamePrefixes(keys, keys');
  }

  // ---- Rooms of real groups ----

  /** Any text cut into eights is the group id of some key list. */
  lemma {:induction false} KeysOfGroupId(id: string) returns (keys: seq<string>)
    requires |id| % 8 == 0
    ensures Sliceable(keys) && GroupId(keys) == id
  {
    if id == "" {
      keys := [];
    } else {
      var n := |id| - 8;
      var rest := KeysOfGroupId(id[..n]);
      var key := "02" + id[n..];
      keys := rest + [key];
      assert keys[..|keys| - 1] == rest && Prefix(key) == id[n..];
    }
  }

  /** A separator that leaves a multiple of eight characters behind it. */
  predicate CutsOffGroup(room: string, i: nat) {
    i < |room| && room[i] == SEPARATOR && (|room| - i - 1) % 8 == 0
  }

  /** The request for this key list has this room. */
  ghost predicate IsRoomOf(room: string, requestId: string, keys: seq<string>) {
    Sliceable(keys) && RoomId(requestId, GroupId(keys)) == room
  }

  /** All requests with this room have this id and this group id. */
  ghost predicate OnlyRequestFor(room: string, requestId: string, groupId: string) {
    forall requestId', keys | IsRoomOf(room, requestId', keys) :: requestId' == requestId && GroupId(keys) == groupId
  }

  lemma RealRequestsAreCuts(room: string, requestId: string, keys: seq<string>)
    requires IsRoomOf(room, requestId, keys)
    ensures CutsOffGroup(room, |requestId|) && CutAt(room, |requestId|, requestId, GroupId(keys))
  {
    RoomIdsAreCuts(room, requestId, GroupId(keys));
    GroupIdLength(keys);
  }

  lemma CutsAreRealRequests(room: string, i: nat) returns (requestId: string, keys: seq<string>)
    requires CutsOffGroup(room, i)
    ensures IsRoomOf(room, requestId, keys) && |requestId| == i
  {
    requestId := room[..i];
    keys := KeysOfGroupId(room[i + 1..]);
    RoomIdsAreCuts(room, requestId, GroupId(keys));
  }

  /**
   * When two requests can meet in one room, exactly: when the room holds a second separator
   * that leaves a multiple of eight characters behind it. With separator-free keys there is none.
   */
  lemma OnlyRequestForIff(requestId: string, keys: seq<string>)
    requires Sliceable(keys)
    ensures var room := RoomId(requestId, GroupId(keys));
            OnlyRequestFor(room, requestId, GroupId(keys)) <==> forall i | CutsOffGroup(room, i) :: i == |requestId|
  {
    var room := RoomId(requestId, GroupId(keys));
    assert IsRoomOf(room, requestId, keys);
    RealRequestsAreCuts(room, requestId, keys);
    forall i | CutsOffGroup(room, i) && i != |requestId|
      ensures !OnlyRequestFor(room, requestId, GroupId(keys))
    {
      var requestId', keys' := CutsAreRealRequests(room, i);
    }
    forall requestId', keys' | IsRoomOf(room, requestId', keys')
      ensures CutsOffGroup(room, |requestId'|) && CutAt(room, |requestId'|, requestId', GroupId(keys'))
    {
      RealRequestsAreCuts(room, requestId', keys');
    }
  }

  /** Two real requests in one room: a key with a separator at its tenth place, a request id with one to match. */
  lemma RealRoomsCanCollide(key: string)
    requires |key| >= 10
    ensures Sliceable([key]) && Sliceable(["021234567@", key])
    ensures RoomId("a@1234567", GroupId([key])) == RoomId("a", GroupId(["021234567@", key]))
  {
    assert ["021234567@", key][..1] == ["021234567@"];
    assert ["021234567@"][..0] == [] && [key][..0] == [];
    assert Prefix("021234567@") == "1234567@";
    assert GroupId(["021234567@"]) == "1234567@" && GroupId([key]) == Prefix(key);
    assert GroupId(["021234567@", key]) == "1234567@" + Prefix(key);
    assert "a@1234567" + ['@'] + Prefix(key) == "a" + ['@'] + ("1234567@" + Prefix(key));
  }

  // ---- The foreign-group filter ----

  lemma {:induction false} GroupIdSplits(keys: seq<string>, i: nat) returns (before: string, after: string)
    requires Sliceable(keys) && i < |keys|
    ensures GroupId(keys) == before + Prefix(keys[i]) + after
  {
    var n := |keys| - 1;
    if i == n {
      before, after := GroupId(keys[..n]), "";
    } else {
      var b, a := GroupIdSplits(keys[..n], i);
      before, after := b, a + Prefix(keys[n]);
    }
  }

  /** The substring test on a room never discards a message of a group that holds the key. */
  lemma FilterKeepsOwnGroups(requestId: string, keys: seq<string>, own: string)
    requires Sliceable(keys) && own in keys
    ensures Contains(RoomId(requestId, GroupId(keys)), Prefix(own))
  {
    var i :| 0 <= i < |keys| && keys[i] == own;
    var before, after := GroupIdSplits(keys, i);
    var room := RoomId(requestId, GroupId(keys));
    assert room == (requestId + [SEPARATOR] + before) + Prefix(own) + after;
    ContainsIffOccurs(room, Prefix(own));
  }

  // ---- Selecting the signers of a request ----

  datatype SelectionError = WrongNumberOfParticipants | WrongPublicKeys

  /** The participants' indices in the group, unknown keys left out. */
  function KnownIndices(keys: seq<string>, participants: seq<string>): seq<nat> {
    if participants == [] then []
    else
      var n := |participants| - 1;
      var rest := KnownIndices(keys, participants[..n]);
      match IndexOf(keys, participants[n])
      case Some(i) => rest + [i]
      case None => rest
  }

  function UnknownKeys(keys: seq<string>, participants: seq<string>): seq<string> {
    if participants == [] then []
    else
      var n := |participants| - 1;
      var rest := UnknownKeys(keys, participants[..n]);
      if participants[n] in keys then rest else rest + [participants[n]]
  }

  function Truncated(indices: seq<nat>): (r: seq<U16>)
    ensures |r| == |indices|
    ensures forall k | 0 <= k < |r| :: r[k] == Truncate16(indices[k])
  {
    seq(|indices|, k requires 0 <= k < |indices| => Truncate16(indices[k]))
  }

  /** The list `s_l`; it is computed without looking at who computes it. */
  function SelectSigners(keys: seq<string>, participants: seq<string>, t: U16): Result<seq<U16>, SelectionError> {
    var indices := KnownIndices(keys, participants);
    if |indices| != Truncate16(t + 1) then Err(WrongNumberOfParticipants)
    else if UnknownKeys(keys, participants) != [] then Err(WrongPublicKeys)
    else Ok(Truncated(indices))
  }

  lemma {:induction false} KnownAndUnknownPartition(keys: seq<string>, participants: seq<string>)
    ensures |KnownIndices(keys, participants)| + |UnknownKeys(keys, participants)| == |participants|
    ensures UnknownKeys(keys, participants) == [] <==> forall k | 0 <= k < |participants| :: participants[k] in keys
    ensures UnknownKeys(keys, participants) == [] ==>
              forall k | 0 <= k < |participants| ::
                participants[k] in keys && KnownIndices(keys, participants)[k] == IndexOf(keys, participants[k]).value
  {
    if participants != [] {
      var n := |participants| - 1;
      var init := participants[..n];
      KnownAndUnknownPartition(keys, init);
      assert forall k | 0 <= k < n :: init[k] == participants[k];
      assert (forall k | 0 <= k < |participants| :: participants[k] in keys) <==>
             (forall k | 0 <= k < n :: init[k] in keys) && participants[n] in keys;
    }
  }

  /**
   * Selection succeeds exactly on t + 1 participants that all belong to the group, and then
   * lists their group indices in the participants' own order.
   */
  lemma SelectionIsExact(keys: seq<string>, participants: seq<string>, t: U16)
    ensures SelectSigners(keys, participants, t).Ok? <==>
              && |participants| == Truncate16(t + 1)
              && forall k | 0 <= k < |participants| :: participants[k] in keys
    ensures SelectSigners(keys, participants, t).Ok? ==>
              var signers := SelectSigners(keys, participants, t).value;
              && |signers| == |participants|
              && forall k | 0 <= k < |participants| ::
                   participants[k] in keys && signers[k] == Truncate16(IndexOf(keys, participants[k]).value)
  {
    KnownAndUnknownPartition(keys, participants);
  }

  /**
   * Agreement with key generation: a participant that finds itself at position i of the
   * signing subgroup finds its key-generation index at s_l[i - 1].
   */
  lemma OwnSignerIndexAgrees(keys: seq<string>, participants: seq<string>, t: U16, own: string)
    requires SelectSigners(keys, participants, t).Ok?
    requires own in participants
    ensures var signers := SelectSigners(keys, participants, t).value;
            var i := OwnIndex(participants, own).value;
            && own in keys
            && 1 <= i <= |signers|
            && signers[i - 1] == OwnIndex(keys, own).value
  {
    SelectionIsExact(keys, participants, t);
    var i := IndexOf(participants, own).value;
    assert participants[i - 1] == own;
    assert Truncate16(i) == i;
  }

  /** In a group that 16 bits can index, the list holds distinct indices between 1 and n. */
  lemma SignersAreDistinctIndices(keys: seq<string>, participants: seq<string>, t: U16)
    requires SelectSigners(keys, participants, t).Ok?
    requires |keys| < 0x10000
    ensures var signers := SelectSigners(keys, participants, t).value;
            && (forall k | 0 <= k < |signers| :: 1 <= signers[k] <= |keys|)
            && (NoDuplicates(participants) <==> NoDuplicates(signers))
  {
    SelectionIsExact(keys, participants, t);
    var signers := SelectSigners(keys, participants, t).value;
    assert forall k | 0 <= k < |signers| :: signers[k] == IndexOf(keys, participants[k]).value;
    forall i, j | 0 <= i < j < |signers|
      ensures participants[i] == participants[j] <==> signers[i] == signers[j]
    {
      assert keys[signers[i] - 1] == participants[i] && keys[signers[j] - 1] == participants[j];
    }
  }
}

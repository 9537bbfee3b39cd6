/** Room names: a request id and a group id around one separator. */
module Rooms {
  import opened Basics

  const SEPARATOR: char := '@'

  datatype RoomError = FailedToParseGroupId

  /** `str::split`: always at least one part, possibly empty. */
  function Split(s: string, separator: char): (parts: seq<string>)
    ensures |parts| >= 1
  {
    if s == "" then [""]
    else
      var rest := Split(s[1..], separator);
      if s[0] == separator then [""] + rest
      else [[s[0]] + rest[0]] + rest[1..]
  }

  function ExtractGroupId(room: string): Result<string, RoomError> {
    var parts := Split(room, SEPARATOR);
    if |parts| < 2 then Err(FailedToParseGroupId) else Ok(parts[1])
  }

  function RoomId(requestId: string, groupId: string): string {
    requestId + [SEPARATOR] + groupId
  }

  /** Builds the room name by pushing onto a string, piece by piece. */
  method MakeRoomId(requestId: string, groupId: string) returns (s: string)
    ensures s == RoomId(requestId, groupId)
  {
    s := requestId;
    s := s + [SEPARATOR];
    s := s + groupId;
  }

  lemma {:induction false} SplitWithoutSeparator(s: string, separator: char)
    requires separator !in s
    ensures Split(s, separator) == [s]
  {
    if s != "" {
      SplitWithoutSeparator(s[1..], separator);
      assert s == [s[0]] + s[1..];
    }
  }

  /** The text up to the first separator is the first part. */
  lemma {:induction false} SplitAtFirst(head: string, tail: string, separator: char)
    requires separator !in head
    ensures Split(head + [separator] + tail, separator) == [head] + Split(tail, separator)
  {
    var s := head + [separator] + tail;
    if head == "" {
      assert s[1..] == tail;
    } else {
      assert s[1..] == head[1..] + [separator] + tail;
      SplitAtFirst(head[1..], tail, separator);
      assert head == [head[0]] + head[1..];
    }
  }

  lemma {:induction false} FirstSeparator(s: string, separator: char) returns (head: string, tail: string)
    requires separator in s
    ensures separator !in head
    ensures s == head + [separator] + tail
  {
    if s[0] == separator {
      head, tail := "", s[1..];
    } else {
      var h, t := FirstSeparator(s[1..], separator);
      head, tail := [s[0]] + h, t;
    }
  }

  ghost predicate IsSecondSegment(room: string, head: string, segment: string, rest: string) {
    && SEPARATOR !in head && SEPARATOR !in segment
    && room == head + [SEPARATOR] + segment + rest
    && (rest == "" || rest[0] == SEPARATOR)
  }

  /**
   * What extraction returns on any text whatever: nothing without a separator, and otherwise
   * the segment between the first separator and the second one, or the end of the text.
   */
  lemma ExtractReturnsSecondSegment(room: string)
    ensures ExtractGroupId(room).Ok? <==> SEPARATOR in room
    ensures ExtractGroupId(room).Ok? ==>
              exists head, rest :: IsSecondSegment(room, head, ExtractGroupId(room).value, rest)
  {
    if SEPARATOR !in room {
      SplitWithoutSeparator(room, SEPARATOR);
    } else {
      var head, tail := FirstSeparator(room, SEPARATOR);
      SplitAtFirst(head, tail, SEPARATOR);
      if SEPARATOR !in tail {
        SplitWithoutSeparator(tail, SEPARATOR);
        assert IsSecondSegment(room, head, tail, "");
      } else {
        var segment, after := FirstSeparator(tail, SEPARATOR);
        SplitAtFirst(segment, after, SEPARATOR);
        assert IsSecondSegment(room, head, segment, [SEPARATOR] + after);
      }
    }
  }

  lemma {:induction false} FirstPartIgnoresTail(s: string, tail: string)
    ensures Split(s + [SEPARATOR] + tail, SEPARATOR)[0] == Split(s, SEPARATOR)[0]
  {
    if s != "" {
      assert (s + [SEPARATOR] + tail)[1..] == s[1..] + [SEPARATOR] + tail;
      FirstPartIgnoresTail(s[1..], tail);
    }
  }

  /** A request id that itself holds a separator decides what is extracted. */
  lemma ExtractIgnoresTail(requestId: string, tail: string)
    requires SEPARATOR in requestId
    ensures ExtractGroupId(requestId + [SEPARATOR] + tail) == ExtractGroupId(requestId)
  {
    var head, rest := FirstSeparator(requestId, SEPARATOR);
    SplitAtFirst(head, rest, SEPARATOR);
    var rest' := rest + [SEPARATOR] + tail;
    assert requestId + [SEPARATOR] + tail == head + [SEPARATOR] + rest';
    SplitAtFirst(head, rest', SEPARATOR);
    FirstPartIgnoresTail(rest, tail);
  }

  lemma {:induction false} FirstPartHoldsNoSeparator(s: string)
    ensures SEPARATOR !in Split(s, SEPARATOR)[0]
  {
    if s != "" {
      FirstPartHoldsNoSeparator(s[1..]);
    }
  }

  /**
   * The round trip, exactly. A request id that holds a separator makes extraction answer from
   * the request id alone, which may by chance be right; otherwise the group id comes back
   * exactly when it holds no separator.
   */
  lemma ExtractOfRoomId(requestId: string, groupId: string)
    ensures ExtractGroupId(RoomId(requestId, groupId)) == Ok(groupId) <==>
              if SEPARATOR in requestId then ExtractGroupId(requestId) == Ok(groupId) else SEPARATOR !in groupId
    ensures SEPARATOR in requestId ==>
              ExtractGroupId(RoomId(requestId, groupId)) == ExtractGroupId(requestId)
  {
    if SEPARATOR in requestId {
      ExtractIgnoresTail(requestId, groupId);
    } else {
      SplitAtFirst(requestId, groupId, SEPARATOR);
      if SEPARATOR !in groupId {
        SplitWithoutSeparator(groupId, SEPARATOR);
      } else {
        ExtractReturnsSecondSegment(RoomId(requestId, groupId));
        FirstPartHoldsNoSeparator(groupId);
      }
    }
  }

  // ---- Can two pairs of ids meet in one room? ----

  /** A room cut at one of its separators. */
  predicate CutAt(room: string, i: nat, requestId: string, groupId: string) {
    i < |room| && room[i] == SEPARATOR && requestId == room[..i] && groupId == room[i + 1..]
  }

  /** The pairs of ids that share a room are its cuts at its separators. */
  lemma RoomIdsAreCuts(room: string, requestId: string, groupId: string)
    ensures RoomId(requestId, groupId) == room <==> CutAt(room, |requestId|, requestId, groupId)
  {
    if CutAt(room, |requestId|, requestId, groupId) {
      assert room == room[..|requestId|] + [room[|requestId|]] + room[|requestId| + 1..];
    }
  }

  /** Besides its own separator a room holds those of its two ids. */
  lemma OtherSeparators(requestId: string, groupId: string, i: nat)
    requires i < |RoomId(requestId, groupId)| && RoomId(requestId, groupId)[i] == SEPARATOR
    ensures i < |requestId| ==> SEPARATOR in requestId
    ensures i > |requestId| ==> SEPARATOR in groupId
  {
    if i < |requestId| {
      assert requestId[i] == SEPARATOR;
    } else if i > |requestId| {
      assert groupId[i - |requestId| - 1] == SEPARATOR;
    }
  }

  /** Rooms do not collide if both request ids, or both group ids, hold no separator. */
  lemma RoomIdInjective(requestId: string, groupId: string, requestId': string, groupId': string)
    requires || (SEPARATOR !in requestId && SEPARATOR !in requestId')
             || (SEPARATOR !in groupId && SEPARATOR !in groupId')
    ensures RoomId(requestId, groupId) == RoomId(requestId', groupId') <==>
              requestId == requestId' && groupId == groupId'
  {
    var room, n, n' := RoomId(requestId, groupId), |requestId|, |requestId'|;
    if RoomId(requestId', groupId') == room {
      RoomIdsAreCuts(room, requestId, groupId);
      RoomIdsAreCuts(room, requestId', groupId');
      OtherSeparators(requestId, groupId, n');
      OtherSeparators(requestId', groupId', n);
    }
  }

  /** No other pair of ids has this room. */
  ghost predicate NamesOnly(requestId: string, groupId: string) {
    forall requestId', groupId' | RoomId(requestId', groupId') == RoomId(requestId, groupId) ::
      requestId' == requestId && groupId' == groupId
  }

  /** A room names one pair of arbitrary ids exactly when neither id holds a separator. */
  lemma RoomNamesOnlyIff(requestId: string, groupId: string)
    ensures NamesOnly(requestId, groupId) <==> SEPARATOR !in requestId && SEPARATOR !in groupId
  {
    var room := RoomId(requestId, groupId);
    RoomIdsAreCuts(room, requestId, groupId);
    if SEPARATOR in requestId || SEPARATOR in groupId {
      var i: nat :| i < |room| && i != |requestId| && room[i] == SEPARATOR by {
        if SEPARATOR in requestId {
          var k :| 0 <= k < |requestId| && requestId[k] == SEPARATOR;
          assert room[k] == SEPARATOR;
        } else {
          var k :| 0 <= k < |groupId| && groupId[k] == SEPARATOR;
          assert room[|requestId| + 1 + k] == SEPARATOR;
        }
      }
      RoomIdsAreCuts(room, room[..i], room[i + 1..]);
      assert RoomId(room[..i], room[i + 1..]) == RoomId(requestId, groupId) && |room[..i]| != |requestId|;
    } else {
      forall requestId', groupId' | RoomId(requestId', groupId') == room
        ensures requestId' == requestId && groupId' == groupId
      {
        RoomIdsAreCuts(room, requestId', groupId');
        OtherSeparators(requestId, groupId, |requestId'|);
      }
    }
  }
}

/** The spaces router (app/routers/spaces.py): spaces with their member
    counts and the caller's membership, joining a space, creating a space
    (its creator becomes its admin), threads with their message counts, and
    the messages of a thread. */
module Spaces {
  import opened Basics
  import opened Tables

  /** A `spaces` row. */
  datatype SpaceRow = SpaceRow(id: string, name: string, description: Option<string>, createdBy: string)

  /** A `space_members` row. */
  datatype Member = Member(spaceId: string, userId: string, role: string)

  /** A `space_threads` row. */
  datatype ThreadRow = ThreadRow(id: string, spaceId: string, title: string, createdBy: string,
                                 createdAt: int)

  /** A `space_messages` row. */
  datatype MessageRow = MessageRow(id: string, threadId: string, userId: string, content: string,
                                   attachments: Option<seq<string>>, attachmentCount: int,
                                   createdAt: int)

  datatype SpaceView = SpaceView(row: SpaceRow, memberCount: nat, isMember: bool)
  datatype ThreadView = ThreadView(row: ThreadRow, users: Option<UserRow>, messageCount: nat)
  datatype MessageView = MessageView(row: MessageRow, users: Option<UserRow>)

  /** The body of a new space: its name and description. */
  datatype SpaceInput = SpaceInput(name: string, description: Option<string>)


  // ---------------------------------------------------------------------------
  // Counts and membership

  /** The number of `space_members` rows of space `sid`. */
  function MemberCount(members: seq<Member>, sid: string): (n: nat)
    ensures n <= |members|
  {
    if |members| == 0 then 0
    else
      var last := members[|members| - 1];
      MemberCount(members[..|members| - 1], sid) + (if last.spaceId == sid then 1 else 0)
  }

  /** The number of `space_messages` rows of thread `tid`. */
  function MessageCount(messages: seq<MessageRow>, tid: string): (n: nat)
    ensures n <= |messages|
  {
    if |messages| == 0 then 0
    else
      var last := messages[|messages| - 1];
      MessageCount(messages[..|messages| - 1], tid) + (if last.threadId == tid then 1 else 0)
  }

  /** The membership rows of space `sid`, by position. */
  ghost function RowsOfSpace(members: seq<Member>, sid: string): set<nat> {
    set i: nat | i < |members| && members[i].spaceId == sid
  }

  /** `MemberCount` is the number of rows whose space is `sid`. */
  lemma {:induction false} MemberCountCounts(members: seq<Member>, sid: string)
    ensures MemberCount(members, sid) == |RowsOfSpace(members, sid)|
  {
    if |members| == 0 {
      assert RowsOfSpace(members, sid) == {};
    } else {
      var k := |members| - 1;
      var init := members[..k];
      MemberCountCounts(init, sid);
      assert forall i :: 0 <= i < k ==> members[i] == init[i];
      if members[k].spaceId == sid {
        assert RowsOfSpace(members, sid) == RowsOfSpace(init, sid) + {k};
      } else {
        assert RowsOfSpace(members, sid) == RowsOfSpace(init, sid);
      }
    }
  }

  /** The message rows of thread `tid`, by position. */
  ghost function RowsOfThread(messages: seq<MessageRow>, tid: string): set<nat> {
    set i: nat | i < |messages| && messages[i].threadId == tid
  }

  /** `MessageCount` is the number of rows whose thread is `tid`. */
  lemma {:induction false} MessageCountCounts(messages: seq<MessageRow>, tid: string)
    ensures MessageCount(messages, tid) == |RowsOfThread(messages, tid)|
  {
    if |messages| == 0 {
      assert RowsOfThread(messages, tid) == {};
    } else {
      var k := |messages| - 1;
      var init := messages[..k];
      MessageCountCounts(init, tid);
      assert forall i :: 0 <= i < k ==> messages[i] == init[i];
      if messages[k].threadId == tid {
        assert RowsOfThread(messages, tid) == RowsOfThread(init, tid) + {k};
      } else {
        assert RowsOfThread(messages, tid) == RowsOfThread(init, tid);
      }
    }
  }

  /** Some membership row links the user to the space. */
  predicate IsMember(members: seq<Member>, sid: string, uid: string) {
    exists m :: m in members && m.spaceId == sid && m.userId == uid
  }

  /** `[m["space_id"] for m in member_res.data]`: the spaces of the user's
      membership rows, in table order. */
  function JoinedSpaceIds(members: seq<Member>, uid: string): (r: seq<string>)
    ensures forall sid :: sid in r <==> IsMember(members, sid, uid)
  {
    if |members| == 0 then []
    else
      var last := members[|members| - 1];
      var init := members[..|members| - 1];
      assert members == init + [last];
      JoinedSpaceIds(init, uid) + (if last.userId == uid then [last.spaceId] else [])
  }

  lemma {:induction false} MemberCountAppend(members: seq<Member>, m: Member, sid: string)
    ensures MemberCount(members + [m], sid) == MemberCount(members, sid) + (if m.spaceId == sid then 1 else 0)
  {
    assert (members + [m])[..|members|] == members;
  }

  /** `get_spaces` (lines 14-39): every space in fetched order, with the
      number of its membership rows and whether the caller has one. */
  method GetSpaces(userId: string, spaces: seq<SpaceRow>, members: seq<Member>)
    returns (r: seq<SpaceView>)
    ensures |r| == |spaces|
    ensures forall i :: 0 <= i < |r| ==>
              r[i].row == spaces[i] && r[i].memberCount == MemberCount(members, spaces[i].id)
              && (r[i].isMember <==> IsMember(members, spaces[i].id, userId))
  {
    var joined := JoinedSpaceIds(members, userId);
    r := [];
    var i := 0;
    while i < |spaces|
      invariant 0 <= i <= |spaces|
      invariant |r| == i
      invariant forall k :: 0 <= k < i ==>
                  r[k].row == spaces[k] && r[k].memberCount == MemberCount(members, spaces[k].id)
                  && (r[k].isMember <==> IsMember(members, spaces[k].id, userId))
    {
      var s := spaces[i];
      r := r + [SpaceView(s, MemberCount(members, s.id), s.id in joined)];
      i := i + 1;
    }
  }

  /** `get_space_threads` after its query (lines 103-119): every thread with
      its author and the number of its messages. */
  method GetSpaceThreads(threads: seq<ThreadRow>, authors: seq<UserRow>, messages: seq<MessageRow>)
    returns (r: seq<ThreadView>)
    ensures |r| == |threads|
    ensures forall i :: 0 <= i < |r| ==>
              r[i] == ThreadView(threads[i], UserById(authors, threads[i].createdBy),
                                 MessageCount(messages, threads[i].id))
  {
    if |threads| == 0 {
      return [];
    }
    r := [];
    var i := 0;
    while i < |threads|
      invariant 0 <= i <= |threads|
      invariant |r| == i
      invariant forall k :: 0 <= k < i ==>
                  r[k] == ThreadView(threads[k], UserById(authors, threads[k].createdBy),
                                     MessageCount(messages, threads[k].id))
    {
      var t := threads[i];
      r := r + [ThreadView(t, UserById(authors, t.createdBy), MessageCount(messages, t.id))];
      i := i + 1;
    }
  }

  /** `get_thread_messages` after its query (lines 157-171): the messages in
      fetched order, each with its author or None. */
  method GetThreadMessages(messages: seq<MessageRow>, users: seq<UserRow>)
    returns (r: seq<MessageView>)
    ensures |r| == |messages|
    ensures forall i :: 0 <= i < |r| ==>
              r[i].row == messages[i] && r[i].users == UserById(users, messages[i].userId)
  {
    if |messages| == 0 {
      return [];
    }
    r := [];
    var i := 0;
    while i < |messages|
      invariant 0 <= i <= |messages|
      invariant |r| == i
      invariant forall k :: 0 <= k < i ==>
                  r[k].row == messages[k] && r[k].users == UserById(users, messages[k].userId)
    {
      r := r + [MessageView(messages[i], UserById(users, messages[i].userId))];
      i := i + 1;
    }
  }

  // ---------------------------------------------------------------------------
  // Joining

  /** `join_space`'s effect on `space_members`. */
  function Joined(members: seq<Member>, sid: string, uid: string): seq<Member> {
    if IsMember(members, sid, uid) then members else members + [Member(sid, uid, "member")]
  }

  /** After a join the user is a member; a second join changes nothing. */
  lemma JoinIsIdempotent(members: seq<Member>, sid: string, uid: string)
    ensures IsMember(Joined(members, sid, uid), sid, uid)
    ensures Joined(Joined(members, sid, uid), sid, uid) == Joined(members, sid, uid)
  {
    assert Member(sid, uid, "member") in members + [Member(sid, uid, "member")];
  }

  /** A join by a non-member adds one to that space's count and no other's. */
  lemma JoinCounts(members: seq<Member>, sid: string, uid: string, other: string)
    ensures MemberCount(Joined(members, sid, uid), sid)
            == MemberCount(members, sid) + (if IsMember(members, sid, uid) then 0 else 1)
    ensures other != sid ==> MemberCount(Joined(members, sid, uid), other) == MemberCount(members, other)
  {
    MemberCountAppend(members, Member(sid, uid, "member"), sid);
    MemberCountAppend(members, Member(sid, uid, "member"), other);
  }

  /** The freshly created space's `member_count` of 1 is the true count when
      no membership row named its id before. */
  lemma CreatedSpaceCountsItsCreator(members: seq<Member>, sid: string, uid: string)
    requires MemberCount(members, sid) == 0
    ensures MemberCount(members + [Member(sid, uid, "admin")], sid) == 1
    ensures IsMember(members + [Member(sid, uid, "admin")], sid, uid)
  {
    MemberCountAppend(members, Member(sid, uid, "admin"), sid);
    assert Member(sid, uid, "admin") in members + [Member(sid, uid, "admin")];
  }

  /** The tables the space handlers write, and the `users` rows they read. */
  class SpacesDb {
    var spaces: seq<SpaceRow>
    var members: seq<Member>
    var threads: seq<ThreadRow>
    var messages: seq<MessageRow>
    var users: seq<UserRow>

    constructor (spaces0: seq<SpaceRow>, members0: seq<Member>, threads0: seq<ThreadRow>,
                 messages0: seq<MessageRow>, users0: seq<UserRow>)
      ensures spaces == spaces0 && members == members0 && threads == threads0
      ensures messages == messages0 && users == users0
    {
      spaces, members, threads, messages, users := spaces0, members0, threads0, messages0, users0;
    }

    /** `join_space` (lines 74-95): no row when one already links the pair,
        otherwise one "member" row; a failing insert is a 500. */
    method JoinSpace(spaceId: string, userId: string, write: Write) returns (r: Response<string>)
      modifies this`members
      ensures IsMember(old(members), spaceId, userId) ==>
                members == old(members) && r == Ok("Already a member")
      ensures !IsMember(old(members), spaceId, userId) ==>
                match write
                case Stored => members == Joined(old(members), spaceId, userId) && r == Ok("Joined successfully")
                case NoData => members == old(members) && r == Ok("Joined successfully")
                case WriteFailed(m) => members == old(members) && r == Raised(HttpError(SERVER_ERROR, m))
    {
      if IsMember(members, spaceId, userId) {
        return Ok("Already a member");
      }
      match write {
        case WriteFailed(m) =>
          return Raised(HttpError(SERVER_ERROR, m));
        case NoData =>
        case Stored =>
          members := members + [Member(spaceId, userId, "member")];
      }
      r := Ok("Joined successfully");
    }

    /** `create_space` (lines 41-72): the space is stored as created by the
        caller, who then gets an "admin" membership; the result claims one
        member and membership. An empty insert result raises a 400 that the
        blanket handler turns into a 500. */
    method CreateSpace(input: SpaceInput, userId: string, newId: string, spaceWrite: Write,
                       memberWrite: Write)
      returns (r: Response<SpaceView>)
      modifies this`spaces, this`members
      ensures var row := SpaceRow(newId, input.name, input.description, userId);
              match spaceWrite
              case NoData =>
                spaces == old(spaces) && members == old(members)
                && r == Raised(HttpError(SERVER_ERROR, "400: Failed to create space"))
              case WriteFailed(m) =>
                spaces == old(spaces) && members == old(members) && r == Raised(HttpError(SERVER_ERROR, m))
              case Stored =>
                spaces == old(spaces) + [row]
                && match memberWrite
                   case Stored =>
                     members == old(members) + [Member(newId, userId, "admin")]
                     && r == Ok(SpaceView(row, 1, true))
                   case NoData =>
                     members == old(members) && r == Ok(SpaceView(row, 1, true))
                   case WriteFailed(m) =>
                     members == old(members) && r == Raised(HttpError(SERVER_ERROR, m))
    {
      var row := SpaceRow(newId, input.name, input.description, userId);
      match spaceWrite {
        case NoData =>
          return Raised(HttpError(SERVER_ERROR, "400: Failed to create space"));
        case WriteFailed(m) =>
          return Raised(HttpError(SERVER_ERROR, m));
        case Stored =>
          spaces := spaces + [row];
      }
      match memberWrite {
        case WriteFailed(m) =>
          return Raised(HttpError(SERVER_ERROR, m));
        case NoData =>
        case Stored =>
          members := members + [Member(newId, userId, "admin")];
      }
      r := Ok(SpaceView(row, 1, true));
    }

    /** `create_thread` (lines 123-149): stored as created by the caller,
        returned with its author and no messages. */
    method CreateThread(spaceId: string, title: string, userId: string, newId: string, createdAt: int,
                        write: Write)
      returns (r: Response<ThreadView>)
      modifies this`threads
      ensures var row := ThreadRow(newId, spaceId, title, userId, createdAt);
              match write
              case Stored =>
                threads == old(threads) + [row]
                && r == Ok(ThreadView(row, FirstUserWithId(users, userId), 0))
              case NoData =>
                threads == old(threads) && r == Raised(HttpError(SERVER_ERROR, "400: Failed to create thread"))
              case WriteFailed(m) =>
                threads == old(threads) && r == Raised(HttpError(SERVER_ERROR, m))
    {
      var row := ThreadRow(newId, spaceId, title, userId, createdAt);
      match write {
        case NoData =>
          return Raised(HttpError(SERVER_ERROR, "400: Failed to create thread"));
        case WriteFailed(m) =>
          return Raised(HttpError(SERVER_ERROR, m));
        case Stored =>
          threads := threads + [row];
          r := Ok(ThreadView(row, FirstUserWithId(users, userId), 0));
      }
    }

    /** `create_message` (lines 175-202). */
    method CreateMessage(threadId: string, content: string, attachments: Option<seq<string>>,
                         attachmentCount: int, userId: string, newId: string, createdAt: int,
                         write: Write)
      returns (r: Response<MessageView>)
      modifies this`messages
      ensures var row := MessageRow(newId, threadId, userId, content, attachments, attachmentCount,
                                    createdAt);
              match write
              case Stored =>
                messages == old(messages) + [row]
                && r == Ok(MessageView(row, FirstUserWithId(users, userId)))
              case NoData =>
                messages == old(messages) && r == Raised(HttpError(SERVER_ERROR, "400: Failed to post message"))
              case WriteFailed(m) =>
                messages == old(messages) && r == Raised(HttpError(SERVER_ERROR, m))
    {
      var row := MessageRow(newId, threadId, userId, content, attachments, attachmentCount, createdAt);
      match write {
        case NoData =>
          return Raised(HttpError(SERVER_ERROR, "400: Failed to post message"));
        case WriteFailed(m) =>
          return Raised(HttpError(SERVER_ERROR, m));
        case Stored =>
          messages := messages + [row];
          r := Ok(MessageView(row, FirstUserWithId(users, userId)));
      }
    }
  }
}

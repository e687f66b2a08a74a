/**
 * The Realtime Database service: the business rules the client applies to
 * the database tree — one-to-one chat ids and chat creation, group chats,
 * call records and their signaling data, the connection-request protocol,
 * user search, 24-hour statuses, call history, and the ban cascade.
 *
 * The tree is a class whose fields are its top-level nodes, each a map.
 * A key `push()` would generate is a parameter that must not already be in
 * use, a server timestamp or Date.now() is the parameter `now`, and a query
 * that iterates a snapshot takes the snapshot's children in the order the
 * database delivers them.
 */
module RtdbService {
  import opened Common

  const DAY_MS: int := 24 * 60 * 60 * 1000
  const SEARCH_LIMIT: nat := 20
  const BAN_NOTICE: string := "User has been removed from ZyChat by admin."
  const SYSTEM_SENDER: string := "system"

  // ---------------------------------------------------------------- records

  /**
   * A users/{uid} record. `Partial` is what an update on a uid with no record
   * leaves behind: only the flags written (an absent isOnline reads as false)
   * and the stamp. `updatedAt` is the server time of the last
   * updateUserProfile, absent until the first one.
   */
  datatype Profile =
    | Profile(uid: string, email: Option<string>, username: Option<string>, displayName: Option<string>,
              phone: string, about: string, avatarUrl: Option<string>, role: string,
              isBanned: bool, isOnline: bool, lastSeen: Option<int>, createdAt: int, updatedAt: Option<int>)
    | Partial(isBanned: bool, isOnline: bool, updatedAt: Option<int>)

  /** A chats/{chatId} record; `members` holds the uids mapped to true. */
  datatype Chat = Chat(chatId: string, isGroup: bool, groupName: Option<string>, groupIconUrl: Option<string>,
                       createdBy: string, createdAt: int, members: set<string>)

  datatype Message = Message(messageId: string, senderId: string, senderUsername: string, kind: string,
                             text: string, createdAt: int, status: string)

  /** The only values the client ever stores as a call's status. */
  datatype CallStatus = Ringing | Accepted | Rejected | Ended

  /**
   * A calls/{callId} record with its signaling data (offer, answer, and the
   * ICE candidates in push order). SDP and candidate texts are opaque.
   */
  datatype CallRecord = CallRecord(callId: string, callerId: string, calleeId: string, kind: string,
                                   status: CallStatus, startedAt: int, endedAt: Option<int>,
                                   offer: Option<string>, answer: Option<string>, candidates: seq<string>)

  /** A connectionRequests/{from_to} record. */
  datatype Request = Request(fromUid: string, toUid: string, status: string, createdAt: int)

  /** A status/{uid}/{statusId} record. */
  datatype StatusItem = StatusItem(statusId: string, mediaUrl: string, caption: string, createdAt: int, expiresAt: int)

  /** getConnectionStatus's answers. */
  datatype ConnectionStatus = Connected | PendingSent | PendingReceived | NoConnection

  /** The listeners subscribeToCallSignaling attaches, in the order it attaches them. */
  datatype Listener = AnswerListener | CandidateListener | StatusListener

  // ---------------------------------------------------------------- chat ids

  /** getChatId: the two uids sorted and joined with "_". */
  function GetChatId(uid1: string, uid2: string): (id: string)
    ensures id == uid1 + "_" + uid2 || id == uid2 + "_" + uid1
    ensures StrLess(uid2, uid1) ==> id == uid2 + "_" + uid1
    ensures !StrLess(uid2, uid1) ==> id == uid1 + "_" + uid2
  {
    if StrLess(uid2, uid1) then uid2 + "_" + uid1 else uid1 + "_" + uid2
  }

  /** Both members of a one-to-one chat compute the same id. */
  lemma GetChatIdSymmetric(uid1: string, uid2: string)
    ensures GetChatId(uid1, uid2) == GetChatId(uid2, uid1)
  {
    StrLessTotal(uid1, uid2);
  }

  /** The chat createOrGetChat writes when none exists. */
  function DirectChat(uid1: string, uid2: string, now: int): (c: Chat)
    ensures !c.isGroup && c.members == {uid1, uid2} && c.createdBy == uid1
    ensures c.chatId == GetChatId(uid1, uid2)
  {
    Chat(GetChatId(uid1, uid2), false, None, None, uid1, now, {uid1, uid2})
  }

  /** The chats node after createOrGetChat. */
  function ChatsAfterCreate(chats: map<string, Chat>, uid1: string, uid2: string, now: int): (r: map<string, Chat>)
    ensures GetChatId(uid1, uid2) in r
    ensures GetChatId(uid1, uid2) in chats ==> r == chats
    ensures r.Keys == chats.Keys + {GetChatId(uid1, uid2)}
    ensures forall id :: id in chats ==> r[id] == chats[id]
  {
    var id := GetChatId(uid1, uid2);
    if id in chats then chats else chats[id := DirectChat(uid1, uid2, now)]
  }

  /** Creating the chat again, from either side and at any time, changes nothing. */
  lemma CreateOrGetChatIdempotent(chats: map<string, Chat>, uid1: string, uid2: string, t1: int, t2: int)
    ensures ChatsAfterCreate(ChatsAfterCreate(chats, uid1, uid2, t1), uid1, uid2, t2) == ChatsAfterCreate(chats, uid1, uid2, t1)
    ensures ChatsAfterCreate(ChatsAfterCreate(chats, uid1, uid2, t1), uid2, uid1, t2) == ChatsAfterCreate(chats, uid1, uid2, t1)
  {
    GetChatIdSymmetric(uid1, uid2);
  }

  // ---------------------------------------------------------------- calls

  /** The record createCall writes. */
  function NewCall(callId: string, callerId: string, calleeId: string, kind: string, now: int): (c: CallRecord)
    ensures c.status == Ringing && c.endedAt.None? && c.startedAt == now
    ensures c.offer.None? && c.answer.None? && c.candidates == []
  {
    CallRecord(callId, callerId, calleeId, kind, Ringing, now, None, None, None, [])
  }

  /** A call id that has no record yet, as `update` and `set` on a child path would create it. */
  function BlankCall(): CallRecord
  {
    CallRecord("", "", "", "", Ringing, 0, None, None, None, [])
  }

  function CallOrBlank(calls: map<string, CallRecord>, callId: string): CallRecord
  {
    if callId in calls then calls[callId] else BlankCall()
  }

  /** updateCallStatus on one record: the status, and endedAt only for "ended" and "rejected". */
  function WithStatus(c: CallRecord, status: CallStatus, now: int): (r: CallRecord)
    ensures r.status == status
    ensures status == Ended || status == Rejected ==> r.endedAt == Some(now)
    ensures status != Ended && status != Rejected ==> r.endedAt == c.endedAt
    ensures r.(status := c.status, endedAt := c.endedAt) == c
  {
    if status == Ended || status == Rejected then c.(status := status, endedAt := Some(now))
    else c.(status := status)
  }

  /** The calls subscribeToIncomingCalls passes to its callback: ringing calls addressed to the user. */
  predicate RingingFor(c: CallRecord, uid: string)
  {
    c.calleeId == uid && c.status == Ringing
  }

  /** The calls getCallHistory keeps: those the user made or received. */
  predicate Involves(c: CallRecord, uid: string)
  {
    c.callerId == uid || c.calleeId == uid
  }

  /** Newest first, by startedAt. */
  predicate SortedByStartDesc(s: seq<CallRecord>)
  {
    forall i, j :: 0 <= i < j < |s| ==> s[i].startedAt >= s[j].startedAt
  }

  /** Inserts a call before the first call that did not start later, so that earlier entries stay first among equals. */
  function InsertByStart(c: CallRecord, s: seq<CallRecord>): (r: seq<CallRecord>)
    ensures multiset(r) == multiset(s) + multiset{c}
  {
    if |s| == 0 then [c]
    else if s[0].startedAt <= c.startedAt then [c] + s
    else
      assert s == [s[0]] + s[1..];
      [s[0]] + InsertByStart(c, s[1..])
  }

  lemma {:induction false} InsertKeepsSorted(c: CallRecord, s: seq<CallRecord>)
    requires SortedByStartDesc(s)
    ensures SortedByStartDesc(InsertByStart(c, s))
  {
    if |s| > 0 && s[0].startedAt > c.startedAt {
      var rest := InsertByStart(c, s[1..]);
      InsertKeepsSorted(c, s[1..]);
      forall x | x in rest ensures s[0].startedAt >= x.startedAt {
        assert x in multiset(rest);
        assert x in multiset(s[1..]) || x == c;
      }
      ConsSorted(s[0], rest);
    }
  }

  /** A call that started no earlier than every call of a sorted list can head it. */
  lemma ConsSorted(h: CallRecord, rest: seq<CallRecord>)
    requires SortedByStartDesc(rest)
    requires forall x | x in rest :: h.startedAt >= x.startedAt
    ensures SortedByStartDesc([h] + rest)
  {
    var r := [h] + rest;
    forall i, j | 0 <= i < j < |r| ensures r[i].startedAt >= r[j].startedAt {
      if i == 0 {
        assert r[j] in rest;
      } else {
        assert r[i] == rest[i - 1] && r[j] == rest[j - 1];
      }
    }
  }

  /** Array#sort with the comparator (b.startedAt || 0) - (a.startedAt || 0). */
  function SortByStartDesc(s: seq<CallRecord>): (r: seq<CallRecord>)
    ensures multiset(r) == multiset(s)
    ensures SortedByStartDesc(r)
  {
    if |s| == 0 then []
    else
      assert s == [s[0]] + s[1..];
      InsertKeepsSorted(s[0], SortByStartDesc(s[1..]));
      InsertByStart(s[0], SortByStartDesc(s[1..]))
  }

  /** The listeners attached for the callbacks supplied, in attachment order. */
  function SignalingListeners(onAnswer: bool, onCandidate: bool, onStatusChange: bool): (r: seq<Listener>)
    ensures AnswerListener in r <==> onAnswer
    ensures CandidateListener in r <==> onCandidate
    ensures StatusListener in r <==> onStatusChange
    ensures |r| <= 3
  {
    (if onAnswer then [AnswerListener] else []) +
    (if onCandidate then [CandidateListener] else []) +
    (if onStatusChange then [StatusListener] else [])
  }

  // ---------------------------------------------------------------- connection requests

  /** The key of a request from one user to another. */
  function RequestId(fromUid: string, toUid: string): string
  {
    fromUid + "_" + toUid
  }

  // ---------------------------------------------------------------- ban

  /** The profile update banUser makes through updateUserProfile, stamped with the server time `now`. */
  function BannedProfile(p: Option<Profile>, now: int): (r: Profile)
    ensures r.isBanned && !r.isOnline && r.updatedAt == Some(now)
    ensures p.Some? ==> r.Profile? == p.value.Profile?
    ensures p.Some? && p.value.Profile? ==> r == p.value.(isBanned := true, isOnline := false, updatedAt := Some(now))
    ensures p.None? ==> r.Partial?
  {
    match p
    case Some(q) => q.(isBanned := true, isOnline := false, updatedAt := Some(now))
    case None => Partial(true, false, Some(now))
  }

  /** The profile update unbanUser makes through updateUserProfile, stamped with the server time `now`. */
  function UnbannedProfile(p: Option<Profile>, now: int): (r: Profile)
    ensures !r.isBanned && r.updatedAt == Some(now)
    ensures p.Some? ==> r.Profile? == p.value.Profile? && r.isOnline == p.value.isOnline
    ensures p.Some? && p.value.Profile? ==> r == p.value.(isBanned := false, updatedAt := Some(now))
    ensures p.None? ==> r == Partial(false, false, Some(now))
  {
    match p
    case Some(q) => q.(isBanned := false, updatedAt := Some(now))
    case None => Partial(false, false, Some(now))
  }

  /** Unbanning a banned user restores the profile, except that the user is now offline and the stamp is the later one. */
  lemma UnbanAfterBan(p: Profile, banned: int, unbanned: int)
    requires !p.isBanned
    ensures UnbannedProfile(Some(BannedProfile(Some(p), banned)), unbanned) == p.(isOnline := false, updatedAt := Some(unbanned))
  {
  }

  /** The notice banUser adds to each chat the user is removed from. */
  function BanNotice(messageId: string, now: int): (m: Message)
    ensures m.senderId == SYSTEM_SENDER && m.senderUsername == SYSTEM_SENDER && m.kind == "text"
    ensures m.text == BAN_NOTICE && m.status == "sent" && m.messageId == messageId
  {
    Message(messageId, SYSTEM_SENDER, SYSTEM_SENDER, "text", BAN_NOTICE, now, "sent")
  }

  function MessagesIn(messages: map<string, map<string, Message>>, chatId: string): map<string, Message>
  {
    if chatId in messages then messages[chatId] else map[]
  }

  /** The chat lists the user among its members. */
  predicate ListsMember(chats: map<string, Chat>, chatId: string, uid: string)
  {
    chatId in chats && uid in chats[chatId].members
  }

  /** The chats node after banUser: the user is gone from every member list, and nothing else changes. */
  function ChatsAfterBan(chats: map<string, Chat>, uid: string): (r: map<string, Chat>)
    ensures r.Keys == chats.Keys
    ensures forall c :: c in r ==> uid !in r[c].members
    ensures forall c :: c in chats ==> r[c].members == chats[c].members - {uid}
    ensures forall c :: c in chats ==> r[c].(members := chats[c].members) == chats[c]
  {
    map c | c in chats :: chats[c].(members := chats[c].members - {uid})
  }

  /** The messages node after banUser: each chat that listed the user gains the notice under its minted key. */
  function MessagesAfterBan(messages: map<string, map<string, Message>>, chats: map<string, Chat>, uid: string,
                            mint: string -> string, now: int): (r: map<string, map<string, Message>>)
    ensures forall c :: ListsMember(chats, c, uid) ==>
      MessagesIn(r, c) == MessagesIn(messages, c)[mint(c) := BanNotice(mint(c), now)]
    ensures forall c :: !ListsMember(chats, c, uid) ==> MessagesIn(r, c) == MessagesIn(messages, c)
  {
    map c | c in messages.Keys + (set c | c in chats && uid in chats[c].members) ::
      if ListsMember(chats, c, uid) then MessagesIn(messages, c)[mint(c) := BanNotice(mint(c), now)] else messages[c]
  }

  /** With fresh keys, every chat the banned user was in gains exactly one message. */
  lemma BanAddsOneNotice(messages: map<string, map<string, Message>>, chats: map<string, Chat>, uid: string,
                         mint: string -> string, now: int, chatId: string)
    requires ListsMember(chats, chatId, uid)
    requires mint(chatId) !in MessagesIn(messages, chatId)
    ensures |MessagesIn(MessagesAfterBan(messages, chats, uid, mint, now), chatId)| == |MessagesIn(messages, chatId)| + 1
    ensures BanNotice(mint(chatId), now) in MessagesIn(MessagesAfterBan(messages, chats, uid, mint, now), chatId).Values
  {
    var after := MessagesIn(MessagesAfterBan(messages, chats, uid, mint, now), chatId);
    assert after.Keys == MessagesIn(messages, chatId).Keys + {mint(chatId)};
    assert after[mint(chatId)] == BanNotice(mint(chatId), now);
  }

  /** A user who is in no chat leaves chats and messages exactly as they were. */
  lemma BanOfLoneUserChangesNothing(messages: map<string, map<string, Message>>, chats: map<string, Chat>, uid: string,
                                    mint: string -> string, now: int)
    requires forall c :: c in chats ==> uid !in chats[c].members
    ensures ChatsAfterBan(chats, uid) == chats
    ensures MessagesAfterBan(messages, chats, uid, mint, now) == messages
  {
    var r := ChatsAfterBan(chats, uid);
    forall c | c in chats ensures r[c] == chats[c] {
      assert chats[c].members - {uid} == chats[c].members;
    }
    var m := MessagesAfterBan(messages, chats, uid, mint, now);
    assert (set c | c in chats && uid in chats[c].members) == {};
    assert m.Keys == messages.Keys;
    forall c | c in messages ensures m[c] == messages[c] {
      assert MessagesIn(m, c) == MessagesIn(messages, c);
    }
  }

  /** What banUser's loop has built once the chats outside `remaining` have been visited. */
  ghost predicate BanProgress(chats: map<string, Chat>, messages: map<string, map<string, Message>>, uid: string,
                        mint: string -> string, now: int, remaining: set<string>,
                        newChats: map<string, Chat>, newMessages: map<string, map<string, Message>>)
  {
    && newChats.Keys == chats.Keys
    && (forall c :: c in chats ==>
          newChats[c] == if c !in remaining then chats[c].(members := chats[c].members - {uid}) else chats[c])
    && (forall c :: c in newMessages <==> c in messages || (ListsMember(chats, c, uid) && c !in remaining))
    && (forall c :: c in newMessages ==>
          newMessages[c] == if ListsMember(chats, c, uid) && c !in remaining
                            then MessagesIn(messages, c)[mint(c) := BanNotice(mint(c), now)] else messages[c])
  }

  lemma BanProgressStep(chats: map<string, Chat>, messages: map<string, map<string, Message>>, uid: string,
                        mint: string -> string, now: int, remaining: set<string>,
                        newChats: map<string, Chat>, newMessages: map<string, map<string, Message>>, c: string)
    requires c in remaining && c in chats
    requires BanProgress(chats, messages, uid, mint, now, remaining, newChats, newMessages)
    ensures BanProgress(chats, messages, uid, mint, now, remaining - {c},
                        newChats[c := chats[c].(members := chats[c].members - {uid})],
                        if uid in chats[c].members
                        then newMessages[c := MessagesIn(messages, c)[mint(c) := BanNotice(mint(c), now)]]
                        else newMessages)
  {
  }

  /**
   * The loop of banUser that collects the multi-path update: one pass over
   * the chats, touching those that list the user. `any` says whether the
   * update has any path at all.
   */
  method BanUpdates(chats: map<string, Chat>, messages: map<string, map<string, Message>>, uid: string,
                    mint: string -> string, now: int)
    returns (newChats: map<string, Chat>, newMessages: map<string, map<string, Message>>, any: bool)
    ensures newChats == ChatsAfterBan(chats, uid)
    ensures newMessages == MessagesAfterBan(messages, chats, uid, mint, now)
    ensures any ==> exists c :: ListsMember(chats, c, uid)
    ensures !any ==> forall c :: c in chats ==> uid !in chats[c].members
  {
    newChats, newMessages, any := chats, messages, false;
    ghost var sample := "";
    var remaining := chats.Keys;
    while remaining != {}
      invariant remaining <= chats.Keys
      invariant BanProgress(chats, messages, uid, mint, now, remaining, newChats, newMessages)
      invariant any ==> ListsMember(chats, sample, uid)
      invariant !any ==> forall c :: c in chats && c !in remaining ==> uid !in chats[c].members
      decreases |remaining|
    {
      var c :| c in remaining;
      BanProgressStep(chats, messages, uid, mint, now, remaining, newChats, newMessages, c);
      newChats := newChats[c := chats[c].(members := chats[c].members - {uid})];
      if uid in chats[c].members {
        newMessages := newMessages[c := MessagesIn(messages, c)[mint(c) := BanNotice(mint(c), now)]];
        any, sample := true, c;
      }
      remaining := remaining - {c};
    }
    if any {
      assert ListsMember(chats, sample, uid);
    }
    ChatsAfterBanPointwise(newChats, chats, uid);
    MessagesAfterBanPointwise(newMessages, messages, chats, uid, mint, now);
  }

  lemma ChatsAfterBanPointwise(newChats: map<string, Chat>, chats: map<string, Chat>, uid: string)
    requires newChats.Keys == chats.Keys
    requires forall c :: c in chats ==> newChats[c] == chats[c].(members := chats[c].members - {uid})
    ensures newChats == ChatsAfterBan(chats, uid)
  {
  }

  lemma MessagesAfterBanPointwise(newMessages: map<string, map<string, Message>>, messages: map<string, map<string, Message>>,
                                  chats: map<string, Chat>, uid: string, mint: string -> string, now: int)
    requires forall c :: c in newMessages <==> c in messages || ListsMember(chats, c, uid)
    requires forall c :: c in newMessages ==>
      newMessages[c] == if ListsMember(chats, c, uid)
                        then MessagesIn(messages, c)[mint(c) := BanNotice(mint(c), now)] else messages[c]
    ensures newMessages == MessagesAfterBan(messages, chats, uid, mint, now)
  {
    var r := MessagesAfterBan(messages, chats, uid, mint, now);
    assert newMessages.Keys == r.Keys;
  }

  // ---------------------------------------------------------------- statuses

  /** The record createStatus writes: an empty caption for a missing one, expiring a day later. */
  function NewStatus(statusId: string, mediaUrl: string, caption: Option<string>, now: int): (s: StatusItem)
    ensures s.expiresAt == now + DAY_MS && s.createdAt == now
    ensures s.caption == (if caption.Some? then caption.value else "")
  {
    StatusItem(statusId, mediaUrl, if caption.Some? then caption.value else "", now, now + DAY_MS)
  }

  /** getUserStatuses keeps the statuses that have not expired. */
  predicate Live(s: StatusItem, now: int)
  {
    s.expiresAt > now
  }

  /** A new status is shown for exactly the 24 hours after it was posted. */
  lemma StatusLivesOneDay(statusId: string, mediaUrl: string, caption: Option<string>, posted: int, now: int)
    ensures Live(NewStatus(statusId, mediaUrl, caption, posted), now) <==> now < posted + 86400000
  {
  }

  // ---------------------------------------------------------------- search

  /** `s?.toLowerCase().includes(q)` for an optional field. */
  predicate FieldIncludes(field: Option<string>, queryLower: string)
  {
    field.Some? && Contains(Lower(field.value), queryLower)
  }

  /** A user searchUsers keeps: not the searcher, not banned, and matching by username or display name. */
  predicate SearchMatch(p: Profile, queryLower: string, currentUid: string)
  {
    p.Profile? && p.uid != currentUid && !p.isBanned &&
    (FieldIncludes(p.username, queryLower) || FieldIncludes(p.displayName, queryLower))
  }

  /** `filter` as a specification: the elements satisfying the search, in order. */
  function SearchMatches(users: seq<Profile>, queryLower: string, currentUid: string): (r: seq<Profile>)
    ensures |r| <= |users|
    ensures forall p :: p in r ==> p in users && SearchMatch(p, queryLower, currentUid)
    ensures forall p :: p in users && SearchMatch(p, queryLower, currentUid) ==> p in r
  {
    if |users| == 0 then []
    else
      var rest := SearchMatches(users[..|users| - 1], queryLower, currentUid);
      var last := users[|users| - 1];
      assert users == users[..|users| - 1] + [last];
      if SearchMatch(last, queryLower, currentUid) then rest + [last] else rest
  }

  /** The first n elements, or all when there are fewer (Array#slice(0, n)). */
  function Take<T>(s: seq<T>, n: nat): (r: seq<T>)
    ensures |r| == if |s| < n then |s| else n
    ensures r == s[..|r|]
  {
    if |s| <= n then s else s[..n]
  }

  /** searchUsers: the first twenty users that match, in delivery order. */
  method SearchUsers(query: string, currentUid: string, snapshot: seq<Profile>) returns (results: seq<Profile>)
    ensures results == Take(SearchMatches(snapshot, Lower(query), currentUid), SEARCH_LIMIT)
    ensures |results| <= SEARCH_LIMIT
    ensures forall p :: p in results ==> SearchMatch(p, Lower(query), currentUid)
  {
    var queryLower := Lower(query);
    var matches: seq<Profile> := [];
    for i := 0 to |snapshot|
      invariant matches == SearchMatches(snapshot[..i], queryLower, currentUid)
    {
      assert snapshot[..i + 1][..i] == snapshot[..i];
      var user := snapshot[i];
      if user.Profile? && user.uid != currentUid && !user.isBanned {
        var usernameMatch := FieldIncludes(user.username, queryLower);
        var displayNameMatch := FieldIncludes(user.displayName, queryLower);
        if usernameMatch || displayNameMatch {
          matches := matches + [user];
        }
      }
    }
    assert snapshot[..|snapshot|] == snapshot;
    results := Take(matches, SEARCH_LIMIT);
    assert forall p :: p in results ==> p in matches;
  }

  /** The statuses of a snapshot still live at `now`, in delivery order. */
  function LiveStatuses(s: seq<StatusItem>, now: int): (r: seq<StatusItem>)
    ensures |r| <= |s|
    ensures forall x :: x in r <==> x in s && Live(x, now)
  {
    if |s| == 0 then []
    else
      var rest := LiveStatuses(s[..|s| - 1], now);
      assert s == s[..|s| - 1] + [s[|s| - 1]];
      if Live(s[|s| - 1], now) then rest + [s[|s| - 1]] else rest
  }

  /** getUserStatuses: the statuses whose expiry is still ahead, in delivery order. */
  method GetUserStatuses(snapshot: seq<StatusItem>, now: int) returns (statuses: seq<StatusItem>)
    ensures statuses == LiveStatuses(snapshot, now)
    ensures forall s :: s in statuses <==> s in snapshot && Live(s, now)
  {
    statuses := [];
    for i := 0 to |snapshot|
      invariant statuses == LiveStatuses(snapshot[..i], now)
    {
      assert snapshot[..i + 1][..i] == snapshot[..i];
      if snapshot[i].expiresAt > now {
        statuses := statuses + [snapshot[i]];
      }
    }
    assert snapshot[..|snapshot|] == snapshot;
  }

  /** The calls of a snapshot ringing for the user, in delivery order. */
  function RingingCalls(s: seq<CallRecord>, uid: string): (r: seq<CallRecord>)
    ensures |r| <= |s|
    ensures forall c :: c in r <==> c in s && RingingFor(c, uid)
  {
    if |s| == 0 then []
    else
      var rest := RingingCalls(s[..|s| - 1], uid);
      assert s == s[..|s| - 1] + [s[|s| - 1]];
      if RingingFor(s[|s| - 1], uid) then rest + [s[|s| - 1]] else rest
  }

  /** The calls subscribeToIncomingCalls hands to its callback, one by one in delivery order. */
  method IncomingCalls(snapshot: seq<CallRecord>, uid: string) returns (delivered: seq<CallRecord>)
    ensures delivered == RingingCalls(snapshot, uid)
    ensures forall c :: c in delivered <==> c in snapshot && RingingFor(c, uid)
  {
    delivered := [];
    for i := 0 to |snapshot|
      invariant delivered == RingingCalls(snapshot[..i], uid)
    {
      assert snapshot[..i + 1][..i] == snapshot[..i];
      if snapshot[i].calleeId == uid && snapshot[i].status == Ringing {
        delivered := delivered + [snapshot[i]];
      }
    }
    assert snapshot[..|snapshot|] == snapshot;
  }

  /** The calls of a snapshot that involve the user, in delivery order. */
  function Involving(s: seq<CallRecord>, uid: string): (r: seq<CallRecord>)
    ensures forall c :: c in r <==> c in s && Involves(c, uid)
  {
    if |s| == 0 then []
    else
      var rest := Involving(s[..|s| - 1], uid);
      assert s == s[..|s| - 1] + [s[|s| - 1]];
      if Involves(s[|s| - 1], uid) then rest + [s[|s| - 1]] else rest
  }

  /** getCallHistory: the user's calls, newest first. */
  method GetCallHistory(uid: string, snapshot: seq<CallRecord>) returns (calls: seq<CallRecord>)
    ensures SortedByStartDesc(calls)
    ensures multiset(calls) == multiset(Involving(snapshot, uid))
    ensures forall c :: c in calls <==> c in snapshot && Involves(c, uid)
  {
    calls := [];
    for i := 0 to |snapshot|
      invariant calls == Involving(snapshot[..i], uid)
    {
      assert snapshot[..i + 1][..i] == snapshot[..i];
      if snapshot[i].callerId == uid || snapshot[i].calleeId == uid {
        calls := calls + [snapshot[i]];
      }
    }
    assert snapshot[..|snapshot|] == snapshot;
    var involving := calls;
    calls := SortByStartDesc(calls);
    assert forall c :: c in calls <==> c in involving by {
      forall c ensures c in calls <==> c in involving {
        assert c in calls <==> c in multiset(calls);
        assert c in involving <==> c in multiset(involving);
      }
    }
  }

  // ---------------------------------------------------------------- the database

  class Database {
    var users: map<string, Profile>
    var usernames: map<string, string>
    var chats: map<string, Chat>
    var messages: map<string, map<string, Message>>
    var calls: map<string, CallRecord>
    var requests: map<string, Request>
    var connections: map<(string, string), int>
    var statuses: map<string, seq<StatusItem>>

    constructor()
      ensures users == map[] && usernames == map[] && chats == map[] && messages == map[]
      ensures calls == map[] && requests == map[] && connections == map[] && statuses == map[]
    {
      users, usernames, chats, messages := map[], map[], map[], map[];
      calls, requests, connections, statuses := map[], map[], map[], map[];
    }

    /** Every node except calls, which the call handlers are the only ones to touch. */
    function Others(): (map<string, Profile>, map<string, string>, map<string, Chat>, map<string, map<string, Message>>,
                        map<string, Request>, map<(string, string), int>, map<string, seq<StatusItem>>)
      reads this
    {
      (users, usernames, chats, messages, requests, connections, statuses)
    }

    /** Every node except the account nodes users and usernames. */
    function NonAccount(): (map<string, Chat>, map<string, map<string, Message>>, map<string, CallRecord>,
                            map<string, Request>, map<(string, string), int>, map<string, seq<StatusItem>>)
      reads this
    {
      (chats, messages, calls, requests, connections, statuses)
    }

    /** getUser: the record, or null. */
    function GetUser(uid: string): (r: Option<Profile>)
      reads this
      ensures r.Some? <==> uid in users
      ensures r.Some? ==> r.value == users[uid]
    {
      if uid in users then Some(users[uid]) else None
    }

    /** Every connection is recorded in both directions. */
    predicate ConnectionsSymmetric()
      reads this
    {
      forall pair :: pair in connections ==> (pair.1, pair.0) in connections
    }

    /** getConnectionStatus, with its precedence: connected, then sent, then received. */
    function GetConnectionStatus(uid1: string, uid2: string): (r: ConnectionStatus)
      reads this
      ensures r == Connected <==> (uid1, uid2) in connections
      ensures r == PendingSent <==> (uid1, uid2) !in connections && RequestId(uid1, uid2) in requests
      ensures r == PendingReceived <==>
        (uid1, uid2) !in connections && RequestId(uid1, uid2) !in requests && RequestId(uid2, uid1) in requests
    {
      if (uid1, uid2) in connections then Connected
      else if RequestId(uid1, uid2) in requests then PendingSent
      else if RequestId(uid2, uid1) in requests then PendingReceived
      else NoConnection
    }

    /** areUsersConnected. */
    function AreUsersConnected(uid1: string, uid2: string): (r: bool)
      reads this
      ensures r <==> GetConnectionStatus(uid1, uid2) == Connected
    {
      (uid1, uid2) in connections
    }

    /** createOrGetChat. */
    method CreateOrGetChat(uid1: string, uid2: string, now: int) returns (chatId: string)
      modifies this
      ensures chatId == GetChatId(uid1, uid2)
      ensures chats == ChatsAfterCreate(old(chats), uid1, uid2, now)
      ensures old(chatId in chats) ==> chats == old(chats)
      ensures !old(chatId in chats) ==> chats[chatId] == DirectChat(uid1, uid2, now)
      ensures users == old(users) && messages == old(messages) && calls == old(calls)
      ensures requests == old(requests) && connections == old(connections) && statuses == old(statuses)
      ensures usernames == old(usernames)
    {
      chatId := GetChatId(uid1, uid2);
      if chatId !in chats {
        chats := chats[chatId := DirectChat(uid1, uid2, now)];
      }
    }

    /** createGroupChat: the members are memberIds plus the creator; a missing or empty icon URL is stored as null. */
    method CreateGroupChat(groupName: string, groupIconUrl: Option<string>, createdBy: string,
                           memberIds: seq<string>, newId: string, now: int) returns (chatId: string)
      requires newId !in chats
      modifies this
      ensures chatId == newId && chats.Keys == old(chats.Keys) + {chatId}
      ensures forall id :: id in old(chats) ==> chats[id] == old(chats[id])
      ensures chats[chatId].isGroup && chats[chatId].createdBy == createdBy
      ensures chats[chatId].groupName == Some(groupName)
      ensures chats[chatId].members == (set m | m in memberIds) + {createdBy}
      ensures chats[chatId].groupIconUrl == (if Truthy(groupIconUrl) then groupIconUrl else None)
      ensures users == old(users) && messages == old(messages) && calls == old(calls)
      ensures requests == old(requests) && connections == old(connections) && statuses == old(statuses)
      ensures usernames == old(usernames)
    {
      chatId := newId;
      var members: set<string> := {};
      for i := 0 to |memberIds|
        invariant members == set m | m in memberIds[..i]
      {
        assert memberIds[..i + 1] == memberIds[..i] + [memberIds[i]];
        members := members + {memberIds[i]};
      }
      assert memberIds[..|memberIds|] == memberIds;
      members := members + {createdBy};
      var icon := if Truthy(groupIconUrl) then groupIconUrl else None;
      chats := chats[chatId := Chat(chatId, true, Some(groupName), icon, createdBy, now, members)];
    }

    /** createCall: a ringing record with no end time. */
    method CreateCall(callerId: string, calleeId: string, kind: string, newId: string, now: int) returns (callId: string)
      requires newId !in calls
      modifies this
      ensures callId == newId && calls == old(calls)[callId := NewCall(callId, callerId, calleeId, kind, now)]
      ensures users == old(users) && chats == old(chats) && messages == old(messages)
      ensures requests == old(requests) && connections == old(connections) && statuses == old(statuses)
      ensures usernames == old(usernames)
    {
      callId := newId;
      calls := calls[callId := NewCall(callId, callerId, calleeId, kind, now)];
    }

    /** updateCallStatus. */
    method UpdateCallStatus(callId: string, status: CallStatus, now: int)
      modifies this
      ensures calls == old(calls)[callId := WithStatus(CallOrBlank(old(calls), callId), status, now)]
      ensures users == old(users) && chats == old(chats) && messages == old(messages)
      ensures requests == old(requests) && connections == old(connections) && statuses == old(statuses)
      ensures usernames == old(usernames)
    {
      calls := calls[callId := WithStatus(CallOrBlank(calls, callId), status, now)];
    }

    /** setCallOffer. */
    method SetCallOffer(callId: string, offer: string)
      modifies this
      ensures calls == old(calls)[callId := CallOrBlank(old(calls), callId).(offer := Some(offer))]
      ensures users == old(users) && chats == old(chats) && messages == old(messages)
      ensures requests == old(requests) && connections == old(connections) && statuses == old(statuses)
      ensures usernames == old(usernames)
    {
      calls := calls[callId := CallOrBlank(calls, callId).(offer := Some(offer))];
    }

    /** setCallAnswer. */
    method SetCallAnswer(callId: string, answer: string)
      modifies this
      ensures calls == old(calls)[callId := CallOrBlank(old(calls), callId).(answer := Some(answer))]
      ensures users == old(users) && chats == old(chats) && messages == old(messages)
      ensures requests == old(requests) && connections == old(connections) && statuses == old(statuses)
      ensures usernames == old(usernames)
    {
      calls := calls[callId := CallOrBlank(calls, callId).(answer := Some(answer))];
    }

    /** addIceCandidate: one more candidate after the earlier ones. */
    method AddIceCandidate(callId: string, candidate: string)
      modifies this
      ensures callId in calls
      ensures calls[callId].candidates == CallOrBlank(old(calls), callId).candidates + [candidate]
      ensures calls == old(calls)[callId := CallOrBlank(old(calls), callId).(candidates := CallOrBlank(old(calls), callId).candidates + [candidate])]
      ensures users == old(users) && chats == old(chats) && messages == old(messages)
      ensures requests == old(requests) && connections == old(connections) && statuses == old(statuses)
      ensures usernames == old(usernames)
    {
      var c := CallOrBlank(calls, callId);
      calls := calls[callId := c.(candidates := c.candidates + [candidate])];
    }

    /** acceptConnectionRequest: both directions connected, the request removed. */
    method AcceptConnectionRequest(fromUid: string, toUid: string, now: int)
      modifies this
      ensures connections == old(connections)[(fromUid, toUid) := now][(toUid, fromUid) := now]
      ensures requests == old(requests) - {RequestId(fromUid, toUid)}
      ensures old(ConnectionsSymmetric()) ==> ConnectionsSymmetric()
      ensures GetConnectionStatus(fromUid, toUid) == Connected && GetConnectionStatus(toUid, fromUid) == Connected
      ensures users == old(users) && chats == old(chats) && messages == old(messages)
      ensures calls == old(calls) && statuses == old(statuses) && usernames == old(usernames)
    {
      connections := connections[(fromUid, toUid) := now][(toUid, fromUid) := now];
      requests := requests - {RequestId(fromUid, toUid)};
    }

    /**
     * rejectConnectionRequest and cancelConnectionRequest, which are the same
     * operation: the request from one user to the other is removed.
     */
    method RemoveConnectionRequest(fromUid: string, toUid: string) returns (r: bool)
      modifies this
      ensures r && requests == old(requests) - {RequestId(fromUid, toUid)}
      ensures users == old(users) && chats == old(chats) && messages == old(messages)
      ensures calls == old(calls) && connections == old(connections) && statuses == old(statuses)
      ensures usernames == old(usernames)
    {
      requests := requests - {RequestId(fromUid, toUid)};
      r := true;
    }

    /**
     * sendConnectionRequest: an existing request fails, a reverse request is
     * accepted, an existing connection fails, and otherwise a pending request
     * is written.
     */
    method SendConnectionRequest(fromUid: string, toUid: string, now: int) returns (r: Result<string>)
      modifies this
      ensures old(RequestId(fromUid, toUid) in requests) ==>
        r == Err("Request already sent") && requests == old(requests) && connections == old(connections)
      ensures !old(RequestId(fromUid, toUid) in requests) && old(RequestId(toUid, fromUid) in requests) ==>
        r == Ok("connected") && requests == old(requests) - {RequestId(toUid, fromUid)} &&
        connections == old(connections)[(toUid, fromUid) := now][(fromUid, toUid) := now]
      ensures !old(RequestId(fromUid, toUid) in requests) && !old(RequestId(toUid, fromUid) in requests) &&
              old((fromUid, toUid) in connections) ==>
        r == Err("Already connected") && requests == old(requests) && connections == old(connections)
      ensures !old(RequestId(fromUid, toUid) in requests) && !old(RequestId(toUid, fromUid) in requests) &&
              !old((fromUid, toUid) in connections) ==>
        r == Ok("sent") && connections == old(connections) &&
        requests == old(requests)[RequestId(fromUid, toUid) := Request(fromUid, toUid, "pending", now)]
      ensures r == Ok("connected") ==> GetConnectionStatus(fromUid, toUid) == Connected
      ensures r == Ok("sent") ==> GetConnectionStatus(fromUid, toUid) == PendingSent
      ensures old(ConnectionsSymmetric()) ==> ConnectionsSymmetric()
      ensures users == old(users) && chats == old(chats) && messages == old(messages)
      ensures calls == old(calls) && statuses == old(statuses) && usernames == old(usernames)
    {
      var requestId := RequestId(fromUid, toUid);
      if requestId in requests {
        return Err("Request already sent");
      }
      if RequestId(toUid, fromUid) in requests {
        AcceptConnectionRequest(toUid, fromUid, now);
        return Ok("connected");
      }
      if (fromUid, toUid) in connections {
        return Err("Already connected");
      }
      requests := requests[requestId := Request(fromUid, toUid, "pending", now)];
      r := Ok("sent");
    }

    /** createStatus: the record is appended to the user's statuses and returned. */
    method CreateStatus(uid: string, mediaUrl: string, caption: Option<string>, newId: string, now: int)
      returns (status: StatusItem)
      modifies this
      ensures status == NewStatus(newId, mediaUrl, caption, now)
      ensures statuses == old(statuses)[uid := (if uid in old(statuses) then old(statuses[uid]) else []) + [status]]
      ensures users == old(users) && chats == old(chats) && messages == old(messages)
      ensures calls == old(calls) && requests == old(requests) && connections == old(connections)
      ensures usernames == old(usernames)
    {
      status := NewStatus(newId, mediaUrl, caption, now);
      var existing := if uid in statuses then statuses[uid] else [];
      statuses := statuses[uid := existing + [status]];
    }

    /** unbanUser: the flag is cleared and the record stamped with the server time `now`. */
    method UnbanUser(uid: string, now: int)
      modifies this
      ensures uid in users && !users[uid].isBanned && users[uid].updatedAt == Some(now)
      ensures users[uid] == UnbannedProfile(old(GetUser(uid)), now)
      ensures old(uid in users) ==> users[uid] == old(users[uid]).(isBanned := false, updatedAt := Some(now))
      ensures forall u :: u in old(users) && u != uid ==> u in users && users[u] == old(users[u])
      ensures users.Keys == old(users.Keys) + {uid}
      ensures chats == old(chats) && messages == old(messages) && calls == old(calls)
      ensures requests == old(requests) && connections == old(connections) && statuses == old(statuses)
      ensures usernames == old(usernames)
    {
      users := users[uid := UnbannedProfile(GetUser(uid), now)];
    }

    /**
     * banUser: the user is flagged banned and offline, and the record
     * stamped with the server time `now`; then, in one update
     * made only when some chat lists the user, the user is removed from
     * every such chat and each of them gets one system notice. `mint`
     * supplies the push key of each chat's notice.
     */
    method BanUser(uid: string, mint: string -> string, now: int)
      requires forall c :: c in chats ==> mint(c) !in MessagesIn(messages, c)
      modifies this
      ensures users == old(users)[uid := BannedProfile(old(GetUser(uid)), now)]
      ensures chats == ChatsAfterBan(old(chats), uid)
      ensures messages == MessagesAfterBan(old(messages), old(chats), uid, mint, now)
      ensures calls == old(calls) && requests == old(requests) && connections == old(connections)
      ensures statuses == old(statuses) && usernames == old(usernames)
    {
      users := users[uid := BannedProfile(GetUser(uid), now)];
      RemoveFromChats(uid, mint, now);
    }

    /** The second half of banUser: the single chats-and-notices update, made only when some chat lists the user. */
    method RemoveFromChats(uid: string, mint: string -> string, now: int)
      modifies this
      ensures chats == ChatsAfterBan(old(chats), uid)
      ensures messages == MessagesAfterBan(old(messages), old(chats), uid, mint, now)
      ensures users == old(users) && calls == old(calls) && requests == old(requests)
      ensures connections == old(connections) && statuses == old(statuses) && usernames == old(usernames)
    {
      var newChats, newMessages, any := BanUpdates(chats, messages, uid, mint, now);
      if any {
        chats := newChats;
        messages := newMessages;
      } else {
        BanOfLoneUserChangesNothing(messages, chats, uid, mint, now);
      }
    }
  }
}

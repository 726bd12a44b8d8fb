/** The chat datasource (backend/chat/datasource.js): the lazy assignment of
    conversation ids to a user's messages, the per-conversation summary (other
    participant, last message, unread count) ordered by most recent message, and the
    message query with its direction annotation. */
module Chat {
  import opened Common
  import opened Ordering

  type UserId = string

  /** A stored message; `createdAt` is a timestamp in milliseconds. */
  datatype Message = Message(
    id: string,
    sender: UserId,
    recipient: UserId,
    content: string,
    status: Option<string>,
    conversationId: Option<string>,
    createdAt: int)

  /** `$or: [{ sender: user }, { recipient: user }]`. */
  predicate Touches(m: Message, user: UserId) {
    m.sender == user || m.recipient == user
  }

  /** `${prefix}-${sorted[0]}-${sorted[1]}` where `sorted` is the pair of participants
      in string order. */
  function ConversationKey(prefix: string, a: UserId, b: UserId): (k: string)
    ensures k != ""
  {
    var pair := SortedPair(a, b);
    prefix + "-" + (pair.0 + "-" + pair.1)
  }

  /** The key does not depend on which participant sent the message. */
  lemma KeySymmetric(prefix: string, a: UserId, b: UserId)
    ensures ConversationKey(prefix, a, b) == ConversationKey(prefix, b, a)
  {
    SortedPairSymmetric(a, b);
  }

  /** A random prefix (base-36 digits) has no dash. */
  predicate DashFree(p: string) {
    forall i :: 0 <= i < |p| ==> p[i] != '-'
  }

  /** A dash right after a shorter head cannot match a longer dash-free head. */
  lemma DashAt(p1: string, r1: string, p2: string, r2: string)
    requires DashFree(p2) && |p1| < |p2|
    ensures p1 + "-" + r1 != p2 + "-" + r2
  {
    assert (p1 + "-" + r1)[|p1|] == '-';
    assert (p2 + "-" + r2)[|p1|] == p2[|p1|];
  }

  /** Two strings that each start with a dash-free part followed by a dash share that part. */
  lemma SameHead(p1: string, r1: string, p2: string, r2: string)
    requires DashFree(p1) && DashFree(p2)
    requires p1 + "-" + r1 == p2 + "-" + r2
    ensures p1 == p2
  {
    if |p1| < |p2| {
      DashAt(p1, r1, p2, r2);
    } else if |p2| < |p1| {
      DashAt(p2, r2, p1, r1);
    } else {
      assert p1 == (p1 + "-" + r1)[..|p1|];
      assert p2 == (p2 + "-" + r2)[..|p2|];
    }
  }

  /** Keys made with different random prefixes never coincide, whatever the pairs. */
  lemma PrefixDecidesKey(p1: string, a: UserId, b: UserId, p2: string, c: UserId, d: UserId)
    requires DashFree(p1) && DashFree(p2) && p1 != p2
    ensures ConversationKey(p1, a, b) != ConversationKey(p2, c, d)
  {
    var x := SortedPair(a, b);
    var y := SortedPair(c, d);
    if ConversationKey(p1, a, b) == ConversationKey(p2, c, d) {
      SameHead(p1, x.0 + "-" + x.1, p2, y.0 + "-" + y.1);
    }
  }

  /** The backfill of one message: a message of `user` without a (truthy) conversation
      id gets a fresh key built from the random prefix; every other message is kept. */
  function Assigned(m: Message, user: UserId, prefix: string): (r: Message)
    ensures r.(conversationId := m.conversationId) == m
    ensures Touches(m, user) ==> Truthy(r.conversationId)
    ensures Truthy(m.conversationId) || !Touches(m, user) ==> r == m
    ensures Touches(m, user) && !Truthy(m.conversationId) ==>
              r.conversationId == Some(ConversationKey(prefix, m.sender, m.recipient))
  {
    if Touches(m, user) && !Truthy(m.conversationId) then
      m.(conversationId := Some(ConversationKey(prefix, m.sender, m.recipient)))
    else m
  }

  /** Backfilling twice changes nothing the first pass did not. */
  lemma AssignedIdempotent(m: Message, user: UserId, p: string, q: string)
    ensures Assigned(Assigned(m, user, p), user, q) == Assigned(m, user, p)
  {
  }

  /** The fragility of the anchor: once a conversation between `a` and `b` carries the
      key made with prefix `anchor`, a later unassigned message between the same two
      users, backfilled with another prefix, lands in a different conversation. */
  lemma LaterMessageMissesAnchor(m: Message, anchor: string, prefix: string)
    requires DashFree(anchor) && DashFree(prefix) && anchor != prefix
    requires !Truthy(m.conversationId)
    ensures Assigned(m, m.sender, prefix).conversationId != Some(ConversationKey(anchor, m.sender, m.recipient))
  {
    PrefixDecidesKey(prefix, m.sender, m.recipient, anchor, m.sender, m.recipient);
  }

  // ------------------------------------------------------------ aggregation

  /** The messages of `user`, in store order. */
  function Mine(ms: seq<Message>, user: UserId): (r: seq<Message>)
    ensures forall m :: m in r <==> m in ms && Touches(m, user)
    ensures |r| <= |ms|
  {
    if ms == [] then []
    else (if Touches(ms[0], user) then [ms[0]] else []) + Mine(ms[1..], user)
  }

  /** The conversation ids occurring in `ms`, each once, in order of first appearance. */
  function Ids(ms: seq<Message>): (ids: seq<Option<string>>)
    ensures forall k :: k in ids <==> exists m :: m in ms && m.conversationId == k
    ensures forall i, j :: 0 <= i < j < |ids| ==> ids[i] != ids[j]
  {
    if ms == [] then []
    else
      var init := ms[..|ms| - 1];
      var last := ms[|ms| - 1];
      var ids := Ids(init);
      assert ms == init + [last];
      if last.conversationId in ids then ids else ids + [last.conversationId]
  }

  /** The messages of one conversation, in store order. */
  function Group(ms: seq<Message>, k: Option<string>): (g: seq<Message>)
    ensures forall m :: m in g <==> m in ms && m.conversationId == k
  {
    if ms == [] then []
    else (if ms[0].conversationId == k then [ms[0]] else []) + Group(ms[1..], k)
  }

  /** `recipient == user && status != "seen"`; a message without a status counts. */
  predicate Unread(m: Message, user: UserId) {
    m.recipient == user && m.status != Some("seen")
  }

  /** The `$sum` of the unread flags. */
  function CountUnread(g: seq<Message>, user: UserId): (n: nat)
    ensures n <= |g|
  {
    if g == [] then 0
    else CountUnread(g[..|g| - 1], user) + (if Unread(g[|g| - 1], user) then 1 else 0)
  }

  /** The positions of the unread messages. */
  ghost function UnreadPositions(g: seq<Message>, user: UserId): set<int> {
    set i | 0 <= i < |g| && Unread(g[i], user)
  }

  /** The unread count is the number of messages addressed to `user` and not seen. */
  lemma {:induction false} CountUnreadCounts(g: seq<Message>, user: UserId)
    ensures CountUnread(g, user) == |UnreadPositions(g, user)|
  {
    if g != [] {
      var init := g[..|g| - 1];
      CountUnreadCounts(init, user);
      var last := |g| - 1;
      assert UnreadPositions(g, user) ==
             UnreadPositions(init, user) + (if Unread(g[last], user) then {last} else {});
    }
  }

  /** One conversation as `$group` summarises it. */
  datatype Thread = Thread(id: Option<string>, otherUser: UserId, lastMessage: Message, unreadCount: nat)

  /** `$cond: [{ $eq: ["$sender", user] }, "$recipient", "$sender"]`. */
  function OtherParty(m: Message, user: UserId): (u: UserId)
    ensures Touches(m, user) && m.sender != m.recipient ==> u != user
    ensures u == m.sender || u == m.recipient
  {
    if m.sender == user then m.recipient else m.sender
  }

  /** `$group` for one id: the other party of the first message, the last message, the
      unread count. */
  function ThreadOf(ms: seq<Message>, user: UserId, k: Option<string>): (t: Thread)
    requires |Group(ms, k)| > 0
    ensures t.id == k && t.lastMessage in ms && t.lastMessage.conversationId == k
    ensures t.unreadCount == |UnreadPositions(Group(ms, k), user)|
    ensures t.lastMessage == Group(ms, k)[|Group(ms, k)| - 1]
    ensures t.otherUser == OtherParty(Group(ms, k)[0], user)
  {
    var g := Group(ms, k);
    assert g[|g| - 1] in g;
    CountUnreadCounts(g, user);
    Thread(k, OtherParty(g[0], user), g[|g| - 1], CountUnread(g, user))
  }

  /** Every id of `ms` has messages. */
  lemma IdsHaveGroups(ms: seq<Message>)
    ensures forall k :: k in Ids(ms) ==> |Group(ms, k)| > 0
  {
    forall k | k in Ids(ms) ensures |Group(ms, k)| > 0 {
      var m :| m in ms && m.conversationId == k;
      assert m in Group(ms, k);
    }
  }

  /** One thread per id, in the order of `ids`. */
  function ThreadsFor(ms: seq<Message>, user: UserId, ids: seq<Option<string>>): (ts: seq<Thread>)
    requires forall k :: k in ids ==> |Group(ms, k)| > 0
    ensures |ts| == |ids|
    ensures forall i :: 0 <= i < |ids| ==> |Group(ms, ids[i])| > 0 && ts[i] == ThreadOf(ms, user, ids[i])
  {
    if ids == [] then []
    else
      assert ids[0] in ids;
      var rest := ThreadsFor(ms, user, ids[1..]);
      [ThreadOf(ms, user, ids[0])] + rest
  }

  /** The `$sort` key: most recent last message first. */
  function Recency(t: Thread): int {
    -t.lastMessage.createdAt
  }

  /** The threads before sorting: one per id of the user's messages. */
  function Unsorted(ms: seq<Message>, user: UserId): (ts: seq<Thread>)
    ensures |ts| == |Ids(Mine(ms, user))|
    ensures forall i :: 0 <= i < |ts| ==>
              |Group(Mine(ms, user), Ids(Mine(ms, user))[i])| > 0 &&
              ts[i] == ThreadOf(Mine(ms, user), user, Ids(Mine(ms, user))[i])
  {
    IdsHaveGroups(Mine(ms, user));
    ThreadsFor(Mine(ms, user), user, Ids(Mine(ms, user)))
  }

  /** The aggregation: one thread per conversation of `user`, ordered by descending time
      of the last message. */
  function Threads(ms: seq<Message>, user: UserId): (ts: seq<Thread>)
    ensures Ascending(ts, Recency)
    ensures forall i, j :: 0 <= i < j < |ts| ==> ts[i].lastMessage.createdAt >= ts[j].lastMessage.createdAt
  {
    SortBy(Unsorted(ms, user), Recency)
  }

  /** No conversation is listed twice. */
  lemma ThreadIdsDistinct(ms: seq<Message>, user: UserId)
    ensures var ts := Threads(ms, user);
      forall i, j :: 0 <= i < j < |ts| ==> ts[i].id != ts[j].id
  {
    var unsorted := Unsorted(ms, user);
    var ids := Ids(Mine(ms, user));
    var id := (t: Thread) => t.id;
    forall i, j | 0 <= i < j < |unsorted| ensures id(unsorted[i]) != id(unsorted[j]) {
      assert unsorted[i].id == ids[i] && unsorted[j].id == ids[j];
    }
    SortKeepsDistinct(unsorted, Recency, id);
  }

  /** The id of each of the user's messages is among the ids that get a thread. */
  lemma IdOfMine(ms: seq<Message>, user: UserId, m: Message)
    requires m in ms && Touches(m, user)
    ensures m.conversationId in Ids(Mine(ms, user))
  {
    assert m in Mine(ms, user);
  }

  /** Every id that gets a thread before sorting is still listed after it. */
  lemma IdListed(ms: seq<Message>, user: UserId, i: int)
    requires 0 <= i < |Ids(Mine(ms, user))|
    ensures Unsorted(ms, user)[i] in Threads(ms, user)
    ensures Unsorted(ms, user)[i].id == Ids(Mine(ms, user))[i]
  {
    SortSameElements(Unsorted(ms, user), Recency);
  }

  /** Every conversation the user takes part in is listed. */
  lemma EveryConversationListed(ms: seq<Message>, user: UserId, m: Message)
    requires m in ms && Touches(m, user)
    ensures exists t :: t in Threads(ms, user) && t.id == m.conversationId
  {
    var ids := Ids(Mine(ms, user));
    IdOfMine(ms, user, m);
    var i :| 0 <= i < |ids| && ids[i] == m.conversationId;
    IdListed(ms, user, i);
  }

  /** Every listed thread summarises the user's messages with its id. */
  lemma ListedThreadsSummarise(ms: seq<Message>, user: UserId, t: Thread)
    requires t in Threads(ms, user)
    ensures t.id in Ids(Mine(ms, user)) && |Group(Mine(ms, user), t.id)| > 0 && t == ThreadOf(Mine(ms, user), user, t.id)
  {
    var unsorted := Unsorted(ms, user);
    SortSameElements(unsorted, Recency);
    assert t in unsorted;
    var i :| 0 <= i < |unsorted| && unsorted[i] == t;
  }

  /** A conversation in the result. */
  datatype Conversation<P> = Conversation(conversationId: Option<string>, participant: Option<P>, lastMessage: Message, unreadCount: nat)

  /** The `User.findById(otherUser)` of every thread: a missing user reads as null. */
  function Summaries<P>(ts: seq<Thread>, profiles: map<UserId, P>): (cs: seq<Conversation<P>>)
    ensures |cs| == |ts|
    ensures forall i :: 0 <= i < |ts| ==>
      && cs[i].conversationId == ts[i].id && cs[i].lastMessage == ts[i].lastMessage
      && cs[i].unreadCount == ts[i].unreadCount
      && cs[i].participant == (if ts[i].otherUser in profiles then Some(profiles[ts[i].otherUser]) else None)
  {
    if ts == [] then []
    else
      var t := ts[0];
      [Conversation(t.id, if t.otherUser in profiles then Some(profiles[t.otherUser]) else None, t.lastMessage, t.unreadCount)]
        + Summaries(ts[1..], profiles)
  }

  // ------------------------------------------------------------ message query

  /** A message as getChatMessages returns it. */
  datatype Annotated = Annotated(message: Message, direction: string, isCurrentUser: Option<bool>)

  /** `isSender = user && sender === user`: absent when no user filter is given. */
  function Annotate(m: Message, user: Option<UserId>): (a: Annotated)
    ensures a.message == m
    ensures a.direction == "outgoing" <==> Truthy(user) && m.sender == user.value
    ensures a.direction == "outgoing" || a.direction == "incoming"
    ensures a.isCurrentUser.Some? <==> Truthy(user)
    ensures a.isCurrentUser.Some? ==> (a.isCurrentUser.value <==> a.direction == "outgoing")
  {
    var isSender := Truthy(user) && m.sender == user.value;
    Annotated(m, if isSender then "outgoing" else "incoming", if Truthy(user) then Some(isSender) else None)
  }

  /** The query of getChatMessages: the `$or` only for a truthy user, the id equality
      only for a truthy conversation id. */
  predicate Selected(m: Message, user: Option<UserId>, conversationId: Option<string>) {
    && (Truthy(user) ==> Touches(m, user.value))
    && (Truthy(conversationId) ==> m.conversationId == conversationId)
  }

  function Select(ms: seq<Message>, user: Option<UserId>, conversationId: Option<string>): (r: seq<Message>)
    ensures multiset(r) <= multiset(ms)
    ensures forall m :: m in r <==> m in ms && Selected(m, user, conversationId)
    ensures forall m :: m in ms && Selected(m, user, conversationId) ==> multiset(r)[m] == multiset(ms)[m]
  {
    if ms == [] then []
    else
      assert ms == [ms[0]] + ms[1..];
      (if Selected(ms[0], user, conversationId) then [ms[0]] else []) + Select(ms[1..], user, conversationId)
  }

  function CreatedAt(m: Message): int {
    m.createdAt
  }

  /** What reading `_id` of a sender `populate` could not find throws. */
  const NullSenderError := "Cannot read properties of null (reading '_id')"

  /** The matching messages in time order (`.sort({ createdAt: 1 })`). */
  function Found(ms: seq<Message>, user: Option<UserId>, conversationId: Option<string>): (r: seq<Message>)
    ensures Ascending(r, CreatedAt)
    ensures multiset(r) == multiset(Select(ms, user, conversationId))
  {
    SortBy(Select(ms, user, conversationId), CreatedAt)
  }

  /** The messages found are exactly the stored messages the query selects, each as
      often as it is stored, in time order. */
  lemma FoundIsSelection(ms: seq<Message>, user: Option<UserId>, conversationId: Option<string>)
    ensures var r := Found(ms, user, conversationId);
      && (forall m :: m in r <==> m in ms && Selected(m, user, conversationId))
      && (forall m :: m in ms && Selected(m, user, conversationId) ==> multiset(r)[m] == multiset(ms)[m])
      && (forall i, j :: 0 <= i < j < |r| ==> r[i].createdAt <= r[j].createdAt)
  {
    var r := Found(ms, user, conversationId);
    var sel := Select(ms, user, conversationId);
    forall m ensures m in r <==> m in sel {
      assert m in r <==> m in multiset(r);
      assert m in sel <==> m in multiset(sel);
    }
  }

  /** Every message annotated for `user`. */
  function AnnotateAll(s: seq<Message>, user: Option<UserId>): (data: seq<Annotated>)
    ensures |data| == |s|
    ensures forall i :: 0 <= i < |s| ==> data[i] == Annotate(s[i], user)
  {
    if s == [] then [] else [Annotate(s[0], user)] + AnnotateAll(s[1..], user)
  }

  /** getChatMessages over the stored messages `ms`; `known` is the set of existing
      users, which `populate` resolves senders against. With a user filter, a message
      whose sender no longer exists makes the mapping throw. */
  function ChatMessages(ms: seq<Message>, user: Option<UserId>, conversationId: Option<string>, known: set<UserId>)
    : (r: Envelope<seq<Annotated>>)
    ensures r.success <==> !(Truthy(user) && exists m :: m in Found(ms, user, conversationId) && m.sender !in known)
    ensures !r.success ==> r == Envelope(false, NullSenderError, Absent)
    ensures r.success ==> r.data == Present(AnnotateAll(Found(ms, user, conversationId), user))
    ensures r.success ==> (r.message == "No messages found" <==> Found(ms, user, conversationId) == [])
    ensures r.success && Found(ms, user, conversationId) != [] ==> r.message == "Messages retrieved successfully"
  {
    var found := Found(ms, user, conversationId);
    if Truthy(user) && exists m :: m in found && m.sender !in known then
      Envelope(false, NullSenderError, Absent)
    else
      Envelope(true, if |found| > 0 then "Messages retrieved successfully" else "No messages found",
               Present(AnnotateAll(found, user)))
  }

  /** Without filters every stored message is returned, in time order. */
  lemma NoFilterReturnsEverything(ms: seq<Message>, known: set<UserId>)
    ensures ChatMessages(ms, None, None, known).success
    ensures multiset(Found(ms, None, None)) == multiset(ms)
  {
    var found := Select(ms, None, None);
    forall m ensures multiset(found)[m] == multiset(ms)[m] {
      if m !in ms {
        assert m !in found;
      }
    }
    assert multiset(found) == multiset(ms);
  }

  // ------------------------------------------------------------ the store

  /** The message collection, updated in place by the backfill. */
  class MessageStore {
    var messages: seq<Message>

    constructor (messages: seq<Message>)
      ensures this.messages == messages
    {
      this.messages := messages;
    }

    /** The backfill loop: every message of `user` without a conversation id gets the
        key made from the random prefix `draw(i)`; every other message is untouched. */
    method Backfill(user: UserId, draw: nat -> string)
      modifies this
      ensures |messages| == |old(messages)|
      ensures forall i :: 0 <= i < |messages| ==> messages[i] == Assigned(old(messages)[i], user, draw(i))
    {
      var i := 0;
      while i < |messages|
        invariant 0 <= i <= |messages| == |old(messages)|
        invariant forall j :: 0 <= j < i ==> messages[j] == Assigned(old(messages)[j], user, draw(j))
        invariant forall j :: i <= j < |messages| ==> messages[j] == old(messages)[j]
      {
        var m := messages[i];
        if Touches(m, user) && !Truthy(m.conversationId) {
          messages := messages[i := m.(conversationId := Some(ConversationKey(draw(i), m.sender, m.recipient)))];
        }
        i := i + 1;
      }
    }

    /** getUserConversations: backfills, then summarises the user's conversations with
        the profile of the other participant. */
    method GetUserConversations<P>(user: UserId, draw: nat -> string, profiles: map<UserId, P>)
      returns (r: Envelope<seq<Conversation<P>>>)
      modifies this
      ensures |messages| == |old(messages)|
      ensures forall i :: 0 <= i < |messages| ==> messages[i] == Assigned(old(messages)[i], user, draw(i))
      ensures r == Envelope(true, "Conversations retrieved successfully", Present(Summaries(Threads(messages, user), profiles)))
      // After the backfill no conversation of the user is left without an id.
      ensures forall m :: m in messages && Touches(m, user) ==> Truthy(m.conversationId)
    {
      Backfill(user, draw);
      var threads := Threads(messages, user);
      r := Envelope(true, "Conversations retrieved successfully", Present(Summaries(threads, profiles)));
    }
  }
}

/**
 * The chat page: the friend roster, the open thread's message list, the
 * compose box and its error line. Server payloads come in several shapes and
 * are normalised by first-truthy alias selection; pushed messages are
 * appended to the open thread when they involve the selected friend.
 */
module Chat {
  import opened Js

  /** A roster entry as the page stores it. */
  datatype Friend = Friend(id: Json, name: Json, email: Json, lastMessage: Json, unreadCount: Json)

  /** A thread entry as the page stores it. */
  datatype Message = Message(id: Json, text: Json, sender: Json, receiver: Json, createdAt: Json)

  /** A run of consecutive messages under one date label. */
  datatype Group = Group(date: string, messages: seq<Message>)

  // ----- The friend roster -----

  /** The server's candidate locations of the friend list, in the order tried. */
  function RosterCandidates(data: Json): seq<Json> {
    [data, Field(data, "friends"), Field(data, "data"), Field(data, "users")]
  }

  /** The list `fetchFriends` maps: the first of `data`, `data.friends`,
      `data.data`, `data.users` that is an array; empty when none is. */
  function RosterSource(data: Json): (r: seq<Json>)
    ensures var cs := RosterCandidates(data);
      (exists i :: 0 <= i < 4 && cs[i].Arr? && r == cs[i].items && forall j :: 0 <= j < i ==> !cs[j].Arr?)
      || (r == [] && forall i :: 0 <= i < 4 ==> !cs[i].Arr?)
  {
    var cs := RosterCandidates(data);
    if data.Arr? then assert cs[0] == data; data.items
    else if Field(data, "friends").Arr? then assert cs[1] == Field(data, "friends"); Field(data, "friends").items
    else if Field(data, "data").Arr? then assert cs[2] == Field(data, "data"); Field(data, "data").items
    else if Field(data, "users").Arr? then assert cs[3] == Field(data, "users"); Field(data, "users").items
    else []
  }

  /** The user record inside a roster entry: `friend.user || friend.friend || friend`. */
  function FriendUser(f: Json): Json {
    Or(Or(Field(f, "user"), Field(f, "friend")), f)
  }

  /** One roster entry: id, name and email from the inner user record, the
      last-message preview and unread count from the wrapper. */
  function NormalizeFriend(f: Json): (r: Friend)
    ensures var u := FirstTruthy([Field(f, "user"), Field(f, "friend"), f]);
      && r.id == Field(u, "_id")
      && r.email == Field(u, "email")
      && r.name == FirstTruthy([Field(u, "name"), Field(u, "username"), Str("Unknown User")])
    ensures Truthy(r.name)
    ensures r.lastMessage == FirstTruthy([Field(f, "lastMessage"), Field(f, "last_message")])
    ensures r.unreadCount == FirstTruthy([Field(f, "unreadCount"), Field(f, "unread_count"), Num(0)])
    ensures Truthy(r.unreadCount) || r.unreadCount == Num(0)
  {
    var u := FriendUser(f);
    Or3(Field(f, "user"), Field(f, "friend"), f);
    Or3(Field(u, "name"), Field(u, "username"), Str("Unknown User"));
    Or2(Field(f, "lastMessage"), Field(f, "last_message"));
    Or3(Field(f, "unreadCount"), Field(f, "unread_count"), Num(0));
    Friend(
      Field(u, "_id"),
      Or(Or(Field(u, "name"), Field(u, "username")), Str("Unknown User")),
      Field(u, "email"),
      Or(Field(f, "lastMessage"), Field(f, "last_message")),
      Or(Or(Field(f, "unreadCount"), Field(f, "unread_count")), Num(0)))
  }

  /** The roster after `fetchFriends`: the normalised source list, entry by
      entry in order; empty on a failed or thrown request, and when reading
      the body or an entry throws. */
  function Roster(reply: Reply): (r: seq<Friend>)
    ensures reply.Reply? && reply.ok && !Nullish(reply.body) && Readable(RosterSource(reply.body)) ==>
      var src := RosterSource(reply.body);
      |r| == |src| && forall i :: 0 <= i < |src| ==> r[i] == NormalizeFriend(src[i])
    ensures !(reply.Reply? && reply.ok && !Nullish(reply.body) && Readable(RosterSource(reply.body))) ==> r == []
  {
    match reply
    case Thrown(_) => []
    case Reply(ok, data) =>
      if !ok || Nullish(data) then []
      else
        var src := RosterSource(data);
        if !Readable(src) then []
        else seq(|src|, i requires 0 <= i < |src| => NormalizeFriend(src[i]))
  }

  /** The JSON a well-formed server roster entry would carry. */
  function FriendJson(fr: Friend): Json {
    Obj(map["_id" := fr.id, "name" := fr.name, "email" := fr.email,
            "lastMessage" := fr.lastMessage, "unreadCount" := fr.unreadCount])
  }

  /** A roster entry already in the page's own shape normalises to itself
      when its name is set, its preview is set or absent and its count is set
      or zero. */
  lemma NormalizeFriendJson(fr: Friend)
    requires Truthy(fr.name)
    requires Truthy(fr.lastMessage) || fr.lastMessage == Undefined
    requires Truthy(fr.unreadCount) || fr.unreadCount == Num(0)
    ensures NormalizeFriend(FriendJson(fr)) == fr
  {
    var j := FriendJson(fr);
    assert Field(j, "user") == Undefined && Field(j, "friend") == Undefined;
    assert FriendUser(j) == j;
  }

  // ----- Messages -----

  /** A pushed `newMessage` payload as the page stores it: aliases resolved,
      text never undefined, id and time taken from the clock when missing. */
  function NormalizePushed(msg: Json, nowId: string, nowIso: string): (m: Message)
    ensures m.id == FirstTruthy([Field(msg, "_id"), Str(nowId)])
    ensures m.text == FirstTruthy([Field(msg, "text"), Field(msg, "content"), Str("")])
    ensures m.text.Str? || Truthy(m.text)
    ensures m.sender == FirstTruthy([Field(msg, "sender"), Field(msg, "senderId"), Field(msg, "sender_id")])
    ensures m.receiver == FirstTruthy([Field(msg, "receiver"), Field(msg, "receiverId"), Field(msg, "receiver_id"), Field(msg, "to")])
    ensures m.createdAt == FirstTruthy([Field(msg, "createdAt"), Field(msg, "created_at"), Field(msg, "timestamp"), Str(nowIso)])
    ensures nowId != "" ==> Truthy(m.id)
    ensures nowIso != "" ==> Truthy(m.createdAt)
  {
    Or2(Field(msg, "_id"), Str(nowId));
    Or3(Field(msg, "text"), Field(msg, "content"), Str(""));
    Or3(Field(msg, "sender"), Field(msg, "senderId"), Field(msg, "sender_id"));
    Or4(Field(msg, "receiver"), Field(msg, "receiverId"), Field(msg, "receiver_id"), Field(msg, "to"));
    Or4(Field(msg, "createdAt"), Field(msg, "created_at"), Field(msg, "timestamp"), Str(nowIso));
    Message(
      Or(Field(msg, "_id"), Str(nowId)),
      Or(Or(Field(msg, "text"), Field(msg, "content")), Str("")),
      Or(Or(Field(msg, "sender"), Field(msg, "senderId")), Field(msg, "sender_id")),
      Or(Or(Or(Field(msg, "receiver"), Field(msg, "receiverId")), Field(msg, "receiver_id")), Field(msg, "to")),
      Or(Or(Or(Field(msg, "createdAt"), Field(msg, "created_at")), Field(msg, "timestamp")), Str(nowIso)))
  }

  /** A history entry as the page stores it: like a pushed message but with
      no defaults, so the text, parties and time may stay undefined. */
  function NormalizeHistory(msg: Json): (m: Message)
    ensures m.id == Field(msg, "_id")
    ensures m.text == FirstTruthy([Field(msg, "text"), Field(msg, "content")])
    ensures m.sender == FirstTruthy([Field(msg, "sender"), Field(msg, "senderId"), Field(msg, "sender_id")])
    ensures m.receiver == FirstTruthy([Field(msg, "receiver"), Field(msg, "receiverId"), Field(msg, "receiver_id"), Field(msg, "to")])
    ensures m.createdAt == FirstTruthy([Field(msg, "createdAt"), Field(msg, "created_at"), Field(msg, "timestamp")])
  {
    Or2(Field(msg, "text"), Field(msg, "content"));
    Or3(Field(msg, "sender"), Field(msg, "senderId"), Field(msg, "sender_id"));
    Or4(Field(msg, "receiver"), Field(msg, "receiverId"), Field(msg, "receiver_id"), Field(msg, "to"));
    Or3(Field(msg, "createdAt"), Field(msg, "created_at"), Field(msg, "timestamp"));
    Message(
      Field(msg, "_id"),
      Or(Field(msg, "text"), Field(msg, "content")),
      Or(Or(Field(msg, "sender"), Field(msg, "senderId")), Field(msg, "sender_id")),
      Or(Or(Or(Field(msg, "receiver"), Field(msg, "receiverId")), Field(msg, "receiver_id")), Field(msg, "to")),
      Or(Or(Field(msg, "createdAt"), Field(msg, "created_at")), Field(msg, "timestamp")))
  }

  /** The JSON a message already in the page's own shape would carry. */
  function MessageJson(m: Message): Json {
    Obj(map["_id" := m.id, "text" := m.text, "sender" := m.sender, "receiver" := m.receiver, "createdAt" := m.createdAt])
  }

  predicate SetOrUndefined(j: Json) {
    Truthy(j) || j == Undefined
  }

  /** A stored message fetched back from the history endpoint is unchanged
      when each of its text, parties and time is set or absent. */
  lemma NormalizeHistoryJson(m: Message)
    requires SetOrUndefined(m.text) && SetOrUndefined(m.sender) && SetOrUndefined(m.receiver) && SetOrUndefined(m.createdAt)
    ensures NormalizeHistory(MessageJson(m)) == m
  {
    var j := MessageJson(m);
    MessageJsonFields(m);
    var r := NormalizeHistory(j);
    assert r.text == Or(m.text, Undefined);
    assert r.sender == Or(Or(m.sender, Undefined), Undefined);
    assert r.receiver == Or(Or(Or(m.receiver, Undefined), Undefined), Undefined);
    assert r.createdAt == Or(Or(m.createdAt, Undefined), Undefined);
  }

  /** The fields `MessageJson` carries, and the aliases it leaves absent. */
  lemma MessageJsonFields(m: Message)
    ensures var j := MessageJson(m);
      && Field(j, "_id") == m.id && Field(j, "text") == m.text && Field(j, "sender") == m.sender
      && Field(j, "receiver") == m.receiver && Field(j, "createdAt") == m.createdAt
      && Field(j, "content") == Undefined && Field(j, "senderId") == Undefined && Field(j, "sender_id") == Undefined
      && Field(j, "receiverId") == Undefined && Field(j, "receiver_id") == Undefined && Field(j, "to") == Undefined
      && Field(j, "created_at") == Undefined && Field(j, "timestamp") == Undefined
  {
  }

  /** A stored message pushed back over the socket is unchanged when its id
      and time are set, its text is a string and its parties are set or absent. */
  lemma NormalizePushedJson(m: Message, nowId: string, nowIso: string)
    requires Truthy(m.id) && Truthy(m.createdAt) && m.text.Str?
    requires SetOrUndefined(m.sender) && SetOrUndefined(m.receiver)
    ensures NormalizePushed(MessageJson(m), nowId, nowIso) == m
  {
    var j := MessageJson(m);
    MessageJsonFields(m);
    var r := NormalizePushed(j, nowId, nowIso);
    assert r.id == Or(m.id, Str(nowId));
    assert r.text == Or(Or(m.text, Undefined), Str(""));
    assert r.sender == Or(Or(m.sender, Undefined), Undefined);
    assert r.receiver == Or(Or(Or(m.receiver, Undefined), Undefined), Undefined);
    assert r.createdAt == Or(Or(Or(m.createdAt, Undefined), Undefined), Str(nowIso));
  }

  /** The message involves the friend: `sender === friendId || receiver === friendId`. */
  predicate Involves(m: Message, friendId: Json) {
    StrictEquals(m.sender, friendId) || StrictEquals(m.receiver, friendId)
  }

  /** The `newMessage` handler's update of the open thread: append the
      normalised message exactly when the payload is truthy, a friend is
      selected and the message involves that friend. */
  function Pushed(messages: seq<Message>, selected: Option<Friend>, payload: Json, nowId: string, nowIso: string)
    : (r: seq<Message>)
    ensures var m := NormalizePushed(payload, nowId, nowIso);
      if Truthy(payload) && selected.Some? && Involves(m, selected.value.id)
      then r == messages + [m]
      else r == messages
  {
    if !Truthy(payload) then messages
    else if selected.None? then messages
    else
      var m := NormalizePushed(payload, nowId, nowIso);
      if Involves(m, selected.value.id) then messages + [m] else messages
  }

  /** Pushed messages are not deduplicated: the same relevant payload pushed
      twice is appended twice. */
  lemma PushedTwice(messages: seq<Message>, selected: Option<Friend>, payload: Json, nowId: string, nowIso: string)
    requires Truthy(payload) && selected.Some?
    requires Involves(NormalizePushed(payload, nowId, nowIso), selected.value.id)
    ensures var once := Pushed(messages, selected, payload, nowId, nowIso);
      && |Pushed(once, selected, payload, nowId, nowIso)| == |messages| + 2
      && Pushed(once, selected, payload, nowId, nowIso)[|messages|] == Pushed(once, selected, payload, nowId, nowIso)[|messages| + 1]
  {
  }

  /** A message whose sender and receiver are both objects never matches:
      strict equality compares object references. */
  lemma ObjectIdsNeverMatch(messages: seq<Message>, selected: Option<Friend>, payload: Json, nowId: string, nowIso: string)
    requires !NormalizePushed(payload, nowId, nowIso).sender.Str?
    requires !NormalizePushed(payload, nowId, nowIso).receiver.Str?
    requires selected.Some? && selected.value.id.Str?
    ensures Pushed(messages, selected, payload, nowId, nowIso) == messages
  {
  }

  /** The list `fetchMessages` maps: `data.messages || data.data || data || []`. */
  function HistorySource(data: Json): (r: Json)
    ensures r == FirstTruthy([Field(data, "messages"), Field(data, "data"), data, Arr([])])
    ensures Truthy(r)
  {
    Or4(Field(data, "messages"), Field(data, "data"), data, Arr([]));
    Or(Or(Or(Field(data, "messages"), Field(data, "data")), data), Arr([]))
  }

  /** The history request succeeded, its source is an array and every entry can be read. */
  predicate HistoryReadable(reply: Reply) {
    && reply.Reply? && reply.ok && !Nullish(reply.body)
    && HistorySource(reply.body).Arr? && Readable(HistorySource(reply.body).items)
  }

  /** The thread after a history fetch: the normalised source list, entry by
      entry in order; empty on a failed or thrown request, when the source is
      not an array, and when reading the body or an entry throws. */
  function History(reply: Reply): (r: seq<Message>)
    ensures HistoryReadable(reply) ==>
      var src := HistorySource(reply.body).items;
      |r| == |src| && forall i :: 0 <= i < |src| ==> r[i] == NormalizeHistory(src[i])
    ensures !HistoryReadable(reply) ==> r == []
  {
    match reply
    case Thrown(_) => []
    case Reply(ok, data) =>
      if !ok || Nullish(data) then []
      else
        var src := HistorySource(data);
        if !src.Arr? || !Readable(src.items) then []
        else seq(|src.items|, i requires 0 <= i < |src.items| => NormalizeHistory(src.items[i]))
  }

  // ----- Sending -----

  /** The entry a successful send appends: the untrimmed draft, from the
      current user to the selected friend, with the server's id when it gave
      one. */
  function SentMessage(draft: string, currentUserId: Json, friendId: Json, data: Json, nowId: string, nowIso: string)
    : (m: Message)
    ensures m.text == Str(draft) && m.sender == currentUserId && m.receiver == friendId && m.createdAt == Str(nowIso)
    ensures Truthy(OptField(Field(data, "data"), "_id")) ==> m.id == Field(Field(data, "data"), "_id")
    ensures !Truthy(OptField(Field(data, "data"), "_id")) ==> m.id == Str(nowId)
  {
    Message(Or(OptField(Field(data, "data"), "_id"), Str(nowId)), Str(draft), currentUserId, friendId, Str(nowIso))
  }

  /** The server accepted the send and its body could be read. */
  predicate SendSucceeded(reply: Reply) {
    reply.Reply? && reply.ok && !Nullish(reply.body)
  }

  /** The error line after a failed send: the server's message, else a fixed
      text; `Network error` when the request threw or the body could not be read. */
  function SendError(reply: Reply): (e: Json)
    requires !SendSucceeded(reply)
    ensures Truthy(e)
    ensures reply.Reply? && !reply.ok && !Nullish(reply.body) && Truthy(Field(reply.body, "message")) ==>
      e == Field(reply.body, "message")
    ensures reply.Reply? && !reply.ok && !Nullish(reply.body) && !Truthy(Field(reply.body, "message")) ==>
      e == Str("Failed to send message")
    ensures reply.Thrown? || Nullish(reply.body) ==> e == Str("Network error")
  {
    match reply
    case Thrown(_) => Str("Network error")
    case Reply(_, data) =>
      if Nullish(data) then Str("Network error")
      else Or(Field(data, "message"), Str("Failed to send message"))
  }

  // ----- Grouping by date -----

  /** All messages of the groups, in order. */
  function Flatten(groups: seq<Group>): seq<Message> {
    if groups == [] then [] else groups[0].messages + Flatten(groups[1..])
  }

  lemma {:induction false} FlattenConcat(a: seq<Group>, b: seq<Group>)
    ensures Flatten(a + b) == Flatten(a) + Flatten(b)
    decreases |a|
  {
    if a == [] {
      assert a + b == b;
    } else {
      FlattenConcat(a[1..], b);
      assert (a + b)[0] == a[0];
      assert (a + b)[1..] == a[1..] + b;
      calc {
        Flatten(a + b);
        a[0].messages + Flatten(a[1..] + b);
        a[0].messages + (Flatten(a[1..]) + Flatten(b));
        (a[0].messages + Flatten(a[1..])) + Flatten(b);
      }
    }
  }

  /** Every group is non-empty, its messages carry its label, and
      neighbouring groups have different labels. */
  predicate WellGrouped(groups: seq<Group>, dateOf: Json -> string) {
    && (forall i :: 0 <= i < |groups| ==> |groups[i].messages| > 0)
    && (forall i, m :: 0 <= i < |groups| && m in groups[i].messages ==> dateOf(m.createdAt) == groups[i].date)
    && (forall i :: 0 < i < |groups| ==> groups[i - 1].date != groups[i].date)
  }

  /** Opening a group with a label different from the last one's adds no
      messages and keeps every earlier group as it was. */
  lemma OpenGroup(groups: seq<Group>, date: string, dateOf: Json -> string)
    requires WellGrouped(groups, dateOf)
    requires groups != [] ==> groups[|groups| - 1].date != date
    ensures Flatten(groups + [Group(date, [])]) == Flatten(groups)
    ensures var gs := groups + [Group(date, [])];
      && (forall i :: 0 <= i < |gs| - 1 ==> |gs[i].messages| > 0)
      && (forall i, m :: 0 <= i < |gs| && m in gs[i].messages ==> dateOf(m.createdAt) == gs[i].date)
      && (forall i :: 0 < i < |gs| ==> gs[i - 1].date != gs[i].date)
  {
    FlattenConcat(groups, [Group(date, [])]);
    assert Flatten([Group(date, [])]) == [];
  }

  /** Pushing a message with the last group's label into the last group
      appends it to the flattened thread and keeps the grouping well formed. */
  lemma PushIntoLast(groups: seq<Group>, msg: Message, dateOf: Json -> string)
    requires groups != [] && dateOf(msg.createdAt) == groups[|groups| - 1].date
    requires forall i :: 0 <= i < |groups| - 1 ==> |groups[i].messages| > 0
    requires forall i, m :: 0 <= i < |groups| && m in groups[i].messages ==> dateOf(m.createdAt) == groups[i].date
    requires forall i :: 0 < i < |groups| ==> groups[i - 1].date != groups[i].date
    ensures var last := groups[|groups| - 1];
      var gs := groups[..|groups| - 1] + [Group(last.date, last.messages + [msg])];
      Flatten(gs) == Flatten(groups) + [msg] && WellGrouped(gs, dateOf)
  {
    var init, last := groups[..|groups| - 1], groups[|groups| - 1];
    var last' := Group(last.date, last.messages + [msg]);
    assert groups == init + [last];
    FlattenConcat(init, [last]);
    FlattenConcat(init, [last']);
    assert Flatten([last]) == last.messages;
    assert Flatten([last']) == last.messages + [msg];
    var gs := init + [last'];
    forall i, m | 0 <= i < |gs| && m in gs[i].messages ensures dateOf(m.createdAt) == gs[i].date {
      if i < |init| { assert gs[i] == groups[i]; }
    }
  }

  /** `groupMessagesByDate`: walk the thread in order, opening a new group
      whenever the date label differs from the previous message's. The `dateOf`
      function stands for `formatDate`. */
  method GroupByDate(messages: seq<Message>, dateOf: Json -> string) returns (groups: seq<Group>)
    ensures Flatten(groups) == messages
    ensures WellGrouped(groups, dateOf)
  {
    groups := [];
    var current: Option<string> := None;
    for i := 0 to |messages|
      invariant Flatten(groups) == messages[..i]
      invariant WellGrouped(groups, dateOf)
      invariant groups == [] <==> current == None
      invariant groups != [] ==> current == Some(groups[|groups| - 1].date)
    {
      var msg := messages[i];
      var date := dateOf(msg.createdAt);
      if current != Some(date) {
        OpenGroup(groups, date, dateOf);
        groups := groups + [Group(date, [])];
        current := Some(date);
      }
      ghost var before := groups;
      var last := groups[|groups| - 1];
      groups := groups[..|groups| - 1] + [Group(last.date, last.messages + [msg])];
      PushIntoLast(before, msg, dateOf);
      assert messages[..i + 1] == messages[..i] + [msg];
    }
    assert messages[..|messages|] == messages;
  }

  /** The length of the longest prefix of `ms` whose messages all have label `d`. */
  function RunLength(ms: seq<Message>, d: string, dateOf: Json -> string): (n: nat)
    ensures n <= |ms|
    ensures forall k :: 0 <= k < n ==> dateOf(ms[k].createdAt) == d
    ensures n < |ms| ==> dateOf(ms[n].createdAt) != d
  {
    if ms == [] || dateOf(ms[0].createdAt) != d then 0
    else 1 + RunLength(ms[1..], d, dateOf)
  }

  /** In a grouping, the first group is the longest run of the first label. */
  lemma FirstGroupIsRun(groups: seq<Group>, ms: seq<Message>, dateOf: Json -> string)
    requires Flatten(groups) == ms && WellGrouped(groups, dateOf) && groups != []
    ensures groups[0].messages == ms[..RunLength(ms, groups[0].date, dateOf)]
  {
    var g := groups[0].messages;
    var d := groups[0].date;
    assert ms == g + Flatten(groups[1..]);
    var n := RunLength(ms, d, dateOf);
    forall k | 0 <= k < |g| ensures dateOf(ms[k].createdAt) == d {
      assert ms[k] == g[k] && g[k] in groups[0].messages;
    }
    if n > |g| {
      assert dateOf(ms[|g|].createdAt) == d;
    }
    if |g| < |ms| {
      var rest := groups[1..];
      assert rest != [] && Flatten(rest) == rest[0].messages + Flatten(rest[1..]);
      assert ms[|g|] == rest[0].messages[0] && ms[|g|] in groups[1].messages;
      assert dateOf(ms[|g|].createdAt) == groups[1].date != d;
    }
  }

  lemma FlattenEmpty(groups: seq<Group>, dateOf: Json -> string)
    requires WellGrouped(groups, dateOf)
    ensures Flatten(groups) == [] <==> groups == []
  {
    if groups != [] {
      assert |groups[0].messages| > 0;
    }
  }

  /** The grouping is unique: any two groupings of the same thread under the
      same labels are equal, so the ensures of `GroupByDate` pin its result. */
  lemma {:induction false} GroupingUnique(g1: seq<Group>, g2: seq<Group>, ms: seq<Message>, dateOf: Json -> string)
    requires Flatten(g1) == ms && WellGrouped(g1, dateOf)
    requires Flatten(g2) == ms && WellGrouped(g2, dateOf)
    ensures g1 == g2
    decreases |ms|
  {
    FlattenEmpty(g1, dateOf);
    FlattenEmpty(g2, dateOf);
    if ms != [] {
      assert g1[0].messages[0] in g1[0].messages && g2[0].messages[0] in g2[0].messages;
      assert ms[0] == g1[0].messages[0] == g2[0].messages[0];
      assert g1[0].date == g2[0].date;
      FirstGroupIsRun(g1, ms, dateOf);
      FirstGroupIsRun(g2, ms, dateOf);
      assert g1[0] == g2[0];
      var n := |g1[0].messages|;
      assert ms[n..] == Flatten(g1[1..]) == Flatten(g2[1..]);
      assert WellGrouped(g1[1..], dateOf) by {
        forall i, m | 0 <= i < |g1[1..]| && m in g1[1..][i].messages ensures dateOf(m.createdAt) == g1[1..][i].date {
          assert g1[1..][i] == g1[i + 1];
        }
      }
      assert WellGrouped(g2[1..], dateOf) by {
        forall i, m | 0 <= i < |g2[1..]| && m in g2[1..][i].messages ensures dateOf(m.createdAt) == g2[1..][i].date {
          assert g2[1..][i] == g2[i + 1];
        }
      }
      GroupingUnique(g1[1..], g2[1..], ms[n..], dateOf);
      assert g1 == [g1[0]] + g1[1..] && g2 == [g2[0]] + g2[1..];
    }
  }

  // ----- The page's state cells and handlers -----

  class ChatPage {
    var friends: seq<Friend>
    var selected: Option<Friend>
    var messages: seq<Message>
    var draft: string
    var error: Json
    var loading: bool
    var friendsLoading: bool
    var messagesLoading: bool
    var currentUserId: Json

    constructor ()
      ensures friends == [] && selected == None && messages == [] && draft == ""
      ensures error == Null && !loading && !friendsLoading && !messagesLoading && currentUserId == Null
    {
      friends, selected, messages, draft := [], None, [], "";
      error, loading, friendsLoading, messagesLoading, currentUserId := Null, false, false, false, Null;
    }

    /** `fetchCurrentUser`: `data.user._id` on success; a failure, or a body
        whose `user` cannot be read, leaves the id as it was. */
    method FetchCurrentUser(reply: Reply)
      modifies this`currentUserId
      ensures reply.Reply? && reply.ok && !Nullish(reply.body) && !Nullish(Field(reply.body, "user")) ==>
        currentUserId == Field(Field(reply.body, "user"), "_id")
      ensures !(reply.Reply? && reply.ok && !Nullish(reply.body) && !Nullish(Field(reply.body, "user"))) ==>
        currentUserId == old(currentUserId)
    {
      if reply.Reply? && reply.ok && !Nullish(reply.body) && !Nullish(Field(reply.body, "user")) {
        currentUserId := Field(Field(reply.body, "user"), "_id");
      }
    }

    /** `fetchFriends`: the roster is replaced wholesale. */
    method FetchFriends(reply: Reply)
      modifies this`friends, this`friendsLoading
      ensures friends == Roster(reply) && !friendsLoading
    {
      friendsLoading := true;
      friends := Roster(reply);
      friendsLoading := false;
    }

    /** The `newMessage` socket handler. */
    method OnNewMessage(payload: Json, nowId: string, nowIso: string)
      modifies this`messages
      ensures messages == Pushed(old(messages), selected, payload, nowId, nowIso)
    {
      messages := Pushed(messages, selected, payload, nowId, nowIso);
    }

    /** `fetchMessages(friendId)`: no request for a falsy id, otherwise the
        thread is replaced wholesale by the fetched history. */
    method FetchMessages(friendId: Json, reply: Reply)
      modifies this`messages, this`messagesLoading
      ensures !Truthy(friendId) ==> messages == old(messages) && messagesLoading == old(messagesLoading)
      ensures Truthy(friendId) ==> messages == History(reply) && !messagesLoading
    {
      if !Truthy(friendId) {
        return;
      }
      messagesLoading := true;
      messages := History(reply);
      messagesLoading := false;
    }

    /** Clicking a roster entry: select it, then fetch its history. Clicking
        the entry already selected sets the same value, which React skips, so
        no fetch follows and the thread is kept. */
    method SelectFriend(f: Friend, reply: Reply)
      modifies this`selected, this`messages, this`messagesLoading
      ensures selected == Some(f)
      ensures old(selected) == Some(f) ==> messages == old(messages) && messagesLoading == old(messagesLoading)
      ensures old(selected) != Some(f) && !Truthy(f.id) ==>
        messages == old(messages) && messagesLoading == old(messagesLoading)
      ensures old(selected) != Some(f) && Truthy(f.id) ==> messages == History(reply) && !messagesLoading
    {
      if selected == Some(f) {
        return;
      }
      selected := Some(f);
      FetchMessages(f.id, reply);
    }

    /** Typing in the compose box. */
    method EditDraft(text: string)
      modifies this`draft
      ensures draft == text
    {
      draft := text;
    }

    /** `handleSendMessage`. A blank draft or no selected friend changes
        nothing. On success the sent entry is appended, the draft cleared and
        the error cleared; on failure the thread and draft are kept and the
        error is set. Returns the entry emitted on the socket, if any. */
    method SendMessage(reply: Reply, nowId: string, nowIso: string, hasSocket: bool) returns (emitted: Option<Message>)
      modifies this`messages, this`draft, this`error, this`loading
      ensures Blank(old(draft)) || selected.None? ==>
        messages == old(messages) && draft == old(draft) && error == old(error) && loading == old(loading)
        && emitted == None
      ensures !Blank(old(draft)) && selected.Some? && SendSucceeded(reply) ==>
        var m := SentMessage(old(draft), currentUserId, selected.value.id, reply.body, nowId, nowIso);
        && messages == old(messages) + [m] && draft == "" && error == Null && !loading
        && emitted == (if hasSocket then Some(m) else None)
      ensures !Blank(old(draft)) && selected.Some? && !SendSucceeded(reply) ==>
        messages == old(messages) && draft == old(draft) && error == SendError(reply) && !loading
        && emitted == None
    {
      emitted := None;
      if Blank(draft) || selected.None? {
        return;
      }
      loading := true;
      error := Null;
      if SendSucceeded(reply) {
        var m := SentMessage(draft, currentUserId, selected.value.id, reply.body, nowId, nowIso);
        messages := messages + [m];
        draft := "";
        if hasSocket {
          emitted := Some(m);
        }
      } else {
        error := SendError(reply);
      }
      loading := false;
    }
  }
}

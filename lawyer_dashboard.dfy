// The lawyer dashboard's message logic: grouping the lawyer's messages into
// one entry per client, the unread count, the recency order of the client
// list, opening a client's conversation (which marks it read) and the
// distinct-client statistic. Rendering is left out; timestamps are integers.
module LawyerDashboard {
  import opened Wrappers
  import opened Strings
  import opened Seqs

  /** An entry of `lawyer.messages`; absent string fields are `None`. */
  datatype Message = Message(
    userId: string,
    userName: Option<string>,
    message: Option<string>,
    reply: Option<string>,
    timestamp: int,
    isRead: bool)

  /** JavaScript truthiness of an optional string: present and non-empty. */
  predicate Truthy(s: Option<string>)
  {
    s.Some? && s.value != []
  }

  /** `!m.isRead && !m.reply`: a client message still waiting for the lawyer. */
  predicate IsUnread(m: Message)
  {
    !m.isRead && !Truthy(m.reply)
  }

  /** The badge count of `renderClientList`. */
  function UnreadCount(ms: seq<Message>): nat
  {
    |Filter(ms, IsUnread)|
  }

  /** The name shown for a client: the message's `userName`, else `Client` and the id's last four characters. */
  function DisplayName(m: Message): string
  {
    if Truthy(m.userName) then m.userName.value else "Client " + LastChars(m.userId, 4)
  }

  /** One entry of the `clients` dictionary. */
  datatype Client = Client(userId: string, userName: string, lastMsg: Message, unread: bool)

  /** The entry created for a client's first message. */
  function NewClient(m: Message): Client
  {
    Client(m.userId, DisplayName(m), m, IsUnread(m))
  }

  /** A later message of the same client: it replaces `lastMsg` only when strictly newer. */
  function Absorb(c: Client, m: Message): Client
  {
    c.(lastMsg := if m.timestamp > c.lastMsg.timestamp then m else c.lastMsg,
       unread := c.unread || IsUnread(m))
  }

  /** The distinct client ids of `ms` in the order of their first message (the dictionary's key order). */
  function ClientIds(ms: seq<Message>): (r: seq<string>)
    ensures forall i, j :: 0 <= i < j < |r| ==> r[i] != r[j]
    ensures forall id :: id in r <==> exists j :: 0 <= j < |ms| && ms[j].userId == id
  {
    if ms == [] then []
    else
      var init := ms[..|ms| - 1];
      var previous := ClientIds(init);
      assert forall j :: 0 <= j < |init| ==> init[j] == ms[j];
      if ms[|ms| - 1].userId in previous then previous else previous + [ms[|ms| - 1].userId]
  }

  /** The key order after one more message. */
  lemma ClientIdsSnoc(init: seq<Message>, m: Message)
    ensures ClientIds(init + [m]) ==
      if m.userId in ClientIds(init) then ClientIds(init) else ClientIds(init) + [m.userId]
  {
    assert (init + [m])[..|init|] == init;
  }

  /** The `clients` dictionary after the `forEach` over `ms`. */
  function Group(ms: seq<Message>): (r: map<string, Client>)
    ensures forall id :: id in r <==> id in ClientIds(ms)
    ensures forall id :: id in r ==> r[id].userId == id
  {
    if ms == [] then map[]
    else
      var g := Group(ms[..|ms| - 1]);
      var m := ms[|ms| - 1];
      if m.userId in g then g[m.userId := Absorb(g[m.userId], m)] else g[m.userId := NewClient(m)]
  }

  /** `Object.values(clients)`: the entries in key order. */
  function Grouped(ms: seq<Message>): (r: seq<Client>)
    ensures |r| == |ClientIds(ms)|
    ensures forall i :: 0 <= i < |r| ==> r[i] == Group(ms)[ClientIds(ms)[i]]
  {
    var ids := ClientIds(ms);
    seq(|ids|, i requires 0 <= i < |ids| => Group(ms)[ids[i]])
  }

  // ------------------------------------------------------- what an entry means

  /** `ms[k]` is a message of `id` with the latest timestamp, and the first such one. */
  predicate FirstLatest(ms: seq<Message>, id: string, k: int)
  {
    && 0 <= k < |ms| && ms[k].userId == id
    && (forall j :: 0 <= j < |ms| && ms[j].userId == id ==> ms[j].timestamp <= ms[k].timestamp)
    && (forall j :: 0 <= j < k && ms[j].userId == id ==> ms[j].timestamp < ms[k].timestamp)
  }

  /** `ms[f]` is the first message of `id`. */
  predicate FirstOf(ms: seq<Message>, id: string, f: int)
  {
    0 <= f < |ms| && ms[f].userId == id && forall j :: 0 <= j < f ==> ms[j].userId != id
  }

  /** Some message of `id` is unread. */
  predicate HasUnread(ms: seq<Message>, id: string)
  {
    exists j :: 0 <= j < |ms| && ms[j].userId == id && IsUnread(ms[j])
  }

  /** `c` summarises the messages of its client in `ms`. */
  ghost predicate Summarises(ms: seq<Message>, c: Client)
  {
    && (exists k :: FirstLatest(ms, c.userId, k) && c.lastMsg == ms[k])
    && (c.unread <==> HasUnread(ms, c.userId))
    && (exists f :: FirstOf(ms, c.userId, f) && c.userName == DisplayName(ms[f]))
  }

  /** Appending a message of another client, or an older one, keeps the first latest index. */
  lemma LatestKept(init: seq<Message>, m: Message, id: string, k: int)
    requires FirstLatest(init, id, k)
    requires m.userId != id || m.timestamp <= init[k].timestamp
    ensures FirstLatest(init + [m], id, k)
  {
    var ms := init + [m];
    forall j | 0 <= j < |ms| && ms[j].userId == id
      ensures ms[j].timestamp <= ms[k].timestamp
    {
      if j < |init| {
        assert ms[j] == init[j];
      }
    }
  }

  /** Appending a message strictly newer than every earlier one of its client makes it the latest. */
  lemma LatestReplaced(init: seq<Message>, m: Message)
    requires forall j :: 0 <= j < |init| && init[j].userId == m.userId ==> init[j].timestamp < m.timestamp
    ensures FirstLatest(init + [m], m.userId, |init|)
  {
    var ms := init + [m];
    assert forall j :: 0 <= j < |init| ==> ms[j] == init[j];
  }

  /** The dictionary after one more message. */
  lemma GroupSnoc(init: seq<Message>, m: Message)
    ensures Group(init + [m]) ==
      var g := Group(init);
      if m.userId in g then g[m.userId := Absorb(g[m.userId], m)] else g[m.userId := NewClient(m)]
  {
    assert (init + [m])[..|init|] == init;
  }

  /** The latest message kept for a client is its first message of maximal timestamp. */
  lemma {:induction false} GroupLatest(ms: seq<Message>, id: string)
    requires id in Group(ms)
    ensures exists k :: FirstLatest(ms, id, k) && Group(ms)[id].lastMsg == ms[k]
  {
    var init := ms[..|ms| - 1];
    var m := ms[|ms| - 1];
    assert ms == init + [m];
    GroupSnoc(init, m);
    var g := Group(init);
    if id in g {
      GroupLatest(init, id);
      var k :| FirstLatest(init, id, k) && g[id].lastMsg == init[k];
      if id == m.userId && m.timestamp > init[k].timestamp {
        LatestReplaced(init, m);
        assert Group(ms)[id].lastMsg == ms[|init|];
      } else {
        LatestKept(init, m, id, k);
        assert Group(ms)[id].lastMsg == ms[k];
      }
    } else {
      assert forall j :: 0 <= j < |init| ==> init[j].userId != id;
      LatestReplaced(init, m);
      assert Group(ms)[id].lastMsg == ms[|init|];
    }
  }

  /** Appending a message extends the unread condition by that message alone. */
  lemma HasUnreadSnoc(init: seq<Message>, m: Message, id: string)
    ensures HasUnread(init + [m], id) <==> HasUnread(init, id) || (m.userId == id && IsUnread(m))
  {
    var ms := init + [m];
    if HasUnread(init, id) {
      var j :| 0 <= j < |init| && init[j].userId == id && IsUnread(init[j]);
      assert ms[j] == init[j];
    }
    if HasUnread(ms, id) && !(m.userId == id && IsUnread(m)) {
      var j :| 0 <= j < |ms| && ms[j].userId == id && IsUnread(ms[j]);
      assert j < |init| && init[j] == ms[j];
    }
    if m.userId == id && IsUnread(m) {
      assert ms[|init|] == m;
    }
  }

  /** A client is flagged unread exactly when one of its messages is unread. */
  lemma {:induction false} GroupUnread(ms: seq<Message>, id: string)
    requires id in Group(ms)
    ensures Group(ms)[id].unread <==> HasUnread(ms, id)
  {
    var init := ms[..|ms| - 1];
    var m := ms[|ms| - 1];
    assert ms == init + [m];
    GroupSnoc(init, m);
    HasUnreadSnoc(init, m, id);
    var g := Group(init);
    if id in g {
      GroupUnread(init, id);
      assert Group(ms)[id].unread == (g[id].unread || (m.userId == id && IsUnread(m)));
    } else {
      assert forall j :: 0 <= j < |init| ==> init[j].userId != id;
      assert Group(ms)[id] == NewClient(m);
    }
  }

  /** Appending a message keeps the first message of a client that already had one. */
  lemma FirstOfKept(init: seq<Message>, m: Message, id: string, f: int)
    requires FirstOf(init, id, f)
    ensures FirstOf(init + [m], id, f)
  {
    var ms := init + [m];
    assert forall j :: 0 <= j <= f ==> ms[j] == init[j];
  }

  /** Appending the first message of a client makes it that client's first. */
  lemma FirstOfNew(init: seq<Message>, m: Message)
    requires forall j :: 0 <= j < |init| ==> init[j].userId != m.userId
    ensures FirstOf(init + [m], m.userId, |init|)
  {
    var ms := init + [m];
    assert forall j :: 0 <= j < |init| ==> ms[j] == init[j];
  }

  /** A client's name comes from its first message. */
  lemma {:induction false} GroupName(ms: seq<Message>, id: string)
    requires id in Group(ms)
    ensures exists f :: FirstOf(ms, id, f) && Group(ms)[id].userName == DisplayName(ms[f])
  {
    var init := ms[..|ms| - 1];
    var m := ms[|ms| - 1];
    assert ms == init + [m];
    GroupSnoc(init, m);
    var g := Group(init);
    if id in g {
      GroupName(init, id);
      var f :| FirstOf(init, id, f) && g[id].userName == DisplayName(init[f]);
      FirstOfKept(init, m, id, f);
      assert Group(ms)[id].userName == g[id].userName;
      assert ms[f] == init[f];
    } else {
      assert forall j :: 0 <= j < |init| ==> init[j].userId != id;
      FirstOfNew(init, m);
      assert Group(ms)[id] == NewClient(m);
      assert ms[|init|] == m;
    }
  }

  /** Every entry of the dictionary summarises its client's messages. */
  lemma GroupSummarises(ms: seq<Message>, id: string)
    requires id in Group(ms)
    ensures Summarises(ms, Group(ms)[id])
  {
    GroupLatest(ms, id);
    GroupUnread(ms, id);
    GroupName(ms, id);
  }

  // ------------------------------------------------------------ recency order

  /** Newest `lastMsg` first. */
  predicate SortedByRecency(cs: seq<Client>)
  {
    forall i, j :: 0 <= i < j < |cs| ==> cs[i].lastMsg.timestamp >= cs[j].lastMsg.timestamp
  }

  /** Places `c` before the first entry that is not strictly newer. */
  function InsertByRecency(c: Client, s: seq<Client>): (r: seq<Client>)
    ensures |r| == |s| + 1
    ensures multiset(r) == multiset(s) + multiset{c}
    ensures forall x :: x in r <==> x == c || x in s
  {
    if s == [] || c.lastMsg.timestamp >= s[0].lastMsg.timestamp then [c] + s
    else
      assert s == [s[0]] + s[1..];
      [s[0]] + InsertByRecency(c, s[1..])
  }

  /** Insertion keeps a newest-first list newest first. */
  lemma {:induction false} InsertKeepsSorted(c: Client, s: seq<Client>)
    requires SortedByRecency(s)
    ensures SortedByRecency(InsertByRecency(c, s))
  {
    if s != [] && c.lastMsg.timestamp < s[0].lastMsg.timestamp {
      var rest := InsertByRecency(c, s[1..]);
      InsertKeepsSorted(c, s[1..]);
      forall x | x in rest
        ensures x.lastMsg.timestamp <= s[0].lastMsg.timestamp
      {
        if x != c {
          var j :| 1 <= j < |s| && s[j] == x;
        }
      }
    }
  }

  /**
   * `sort((a, b) => b.lastMsg.timestamp - a.lastMsg.timestamp)`: a stable
   * sort, newest first.
   */
  function SortByRecency(cs: seq<Client>): (r: seq<Client>)
    ensures |r| == |cs|
    ensures multiset(r) == multiset(cs)
    ensures SortedByRecency(r)
  {
    if cs == [] then []
    else
      assert cs == [cs[0]] + cs[1..];
      InsertKeepsSorted(cs[0], SortByRecency(cs[1..]));
      InsertByRecency(cs[0], SortByRecency(cs[1..]))
  }

  /** The entries whose `lastMsg` has timestamp `t`. */
  function AtTime(t: int): Client -> bool
  {
    (c: Client) => c.lastMsg.timestamp == t
  }

  lemma {:induction false} InsertAtTime(c: Client, s: seq<Client>, t: int)
    ensures Filter(InsertByRecency(c, s), AtTime(t)) ==
      if c.lastMsg.timestamp == t then [c] + Filter(s, AtTime(t)) else Filter(s, AtTime(t))
  {
    if s == [] || c.lastMsg.timestamp >= s[0].lastMsg.timestamp {
      assert ([c] + s)[1..] == s;
    } else {
      InsertAtTime(c, s[1..], t);
      var r := InsertByRecency(c, s);
      assert r[1..] == InsertByRecency(c, s[1..]);
      if c.lastMsg.timestamp == t {
        assert !AtTime(t)(s[0]);
      }
    }
  }

  /** The sort is stable: entries with equal timestamps keep their relative order. */
  lemma {:induction false} SortIsStable(cs: seq<Client>, t: int)
    ensures Filter(SortByRecency(cs), AtTime(t)) == Filter(cs, AtTime(t))
  {
    if cs != [] {
      SortIsStable(cs[1..], t);
      InsertAtTime(cs[0], SortByRecency(cs[1..]), t);
    }
  }

  /** Some message of `ms` comes from `id`. */
  predicate HasMessagesOf(ms: seq<Message>, id: string)
  {
    exists j :: 0 <= j < |ms| && ms[j].userId == id
  }

  /** The list has an entry for `id`. */
  predicate Lists(cl: seq<Client>, id: string)
  {
    exists i :: 0 <= i < |cl| && cl[i].userId == id
  }

  /** No two entries belong to the same client. */
  predicate DistinctIds(cs: seq<Client>)
  {
    forall i, j :: 0 <= i < j < |cs| ==> cs[i].userId != cs[j].userId
  }

  lemma {:induction false} InsertKeepsDistinct(c: Client, s: seq<Client>)
    requires DistinctIds(s)
    requires forall x :: x in s ==> x.userId != c.userId
    ensures DistinctIds(InsertByRecency(c, s))
  {
    if !(s == [] || c.lastMsg.timestamp >= s[0].lastMsg.timestamp) {
      InsertKeepsDistinct(c, s[1..]);
      var r := InsertByRecency(c, s);
      assert r[1..] == InsertByRecency(c, s[1..]);
      forall j | 1 <= j < |r|
        ensures r[0].userId != r[j].userId
      {
        assert r[j] in InsertByRecency(c, s[1..]);
      }
    }
  }

  lemma {:induction false} SortKeepsDistinct(cs: seq<Client>)
    requires DistinctIds(cs)
    ensures DistinctIds(SortByRecency(cs))
  {
    if cs != [] {
      var sorted := SortByRecency(cs[1..]);
      SortKeepsDistinct(cs[1..]);
      forall x | x in sorted
        ensures x.userId != cs[0].userId
      {
        assert x in multiset(sorted);
        assert x in multiset(cs[1..]);
        var k :| 0 <= k < |cs[1..]| && cs[1..][k] == x;
        assert cs[k + 1] == x;
      }
      InsertKeepsDistinct(cs[0], sorted);
    }
  }

  // -------------------------------------------------------------- client list

  /** The list `renderClientList` renders. */
  function ClientList(ms: seq<Message>): seq<Client>
  {
    SortByRecency(Grouped(ms))
  }

  /** `new Set(messages.map(m => m.userId)).size`. */
  function DistinctClients(ms: seq<Message>): nat
  {
    |set m | m in ms :: m.userId|
  }

  /** The distinct-client statistic counts the dictionary's keys. */
  lemma DistinctClientsAreIds(ms: seq<Message>)
    ensures DistinctClients(ms) == |ClientIds(ms)|
  {
    var ids := ClientIds(ms);
    DistinctCardinality(ids);
    var fromMessages := set m | m in ms :: m.userId;
    var fromIds := set y | y in ids;
    forall x | x in fromMessages
      ensures x in fromIds
    {
      var m :| m in ms && m.userId == x;
      var j :| 0 <= j < |ms| && ms[j] == m;
    }
    forall x | x in fromIds
      ensures x in fromMessages
    {
      var j :| 0 <= j < |ms| && ms[j].userId == x;
      assert ms[j] in ms;
    }
    assert fromMessages == fromIds;
  }

  /** `Object.values(clients)` has one entry per key, so no client twice. */
  lemma GroupedDistinct(ms: seq<Message>)
    ensures DistinctIds(Grouped(ms))
  {
    var g := Grouped(ms);
    var ids := ClientIds(ms);
    forall i, j | 0 <= i < j < |g|
      ensures g[i].userId != g[j].userId
    {
      assert g[i].userId == ids[i] && g[j].userId == ids[j];
    }
  }

  /** Every rendered entry is the dictionary entry of a client with messages, and summarises them. */
  lemma ClientListEntries(ms: seq<Message>, i: int)
    requires 0 <= i < |ClientList(ms)|
    ensures Summarises(ms, ClientList(ms)[i])
    ensures HasMessagesOf(ms, ClientList(ms)[i].userId)
  {
    var g := Grouped(ms);
    var ids := ClientIds(ms);
    var c := ClientList(ms)[i];
    assert c in multiset(ClientList(ms));
    assert c in multiset(g);
    var k :| 0 <= k < |g| && g[k] == c;
    GroupSummarises(ms, ids[k]);
  }

  /** Every client with a message has an entry in the rendered list. */
  lemma ClientListCovers(ms: seq<Message>, id: string)
    requires HasMessagesOf(ms, id)
    ensures Lists(ClientList(ms), id)
  {
    var g := Grouped(ms);
    var ids := ClientIds(ms);
    var cl := ClientList(ms);
    assert id in ids;
    var k :| 0 <= k < |ids| && ids[k] == id;
    assert g[k] in multiset(g);
    assert g[k] in multiset(cl);
    var i :| 0 <= i < |cl| && cl[i] == g[k];
    assert cl[i].userId == id;
  }

  /**
   * The client list holds one entry per distinct client, as many as the
   * distinct-client statistic; every entry summarises its client's messages;
   * it is sorted newest first, and entries of equal recency keep the order of
   * their clients' first messages.
   */
  lemma ClientListSpec(ms: seq<Message>)
    ensures var cl := ClientList(ms);
      && |cl| == DistinctClients(ms)
      && DistinctIds(cl)
      && (forall id :: HasMessagesOf(ms, id) <==> Lists(cl, id))
      && (forall i :: 0 <= i < |cl| ==> Summarises(ms, cl[i]))
      && SortedByRecency(cl)
      && (forall t :: Filter(cl, AtTime(t)) == Filter(Grouped(ms), AtTime(t)))
  {
    var cl := ClientList(ms);
    DistinctClientsAreIds(ms);
    GroupedDistinct(ms);
    SortKeepsDistinct(Grouped(ms));
    forall i | 0 <= i < |cl|
      ensures Summarises(ms, cl[i]) && HasMessagesOf(ms, cl[i].userId)
    {
      ClientListEntries(ms, i);
    }
    forall id | HasMessagesOf(ms, id)
      ensures Lists(cl, id)
    {
      ClientListCovers(ms, id);
    }
    forall t
      ensures Filter(cl, AtTime(t)) == Filter(Grouped(ms), AtTime(t))
    {
      SortIsStable(Grouped(ms), t);
    }
  }

  /** The badge is non-zero exactly when some rendered client is flagged unread. */
  lemma UnreadBadgeMatchesFlags(ms: seq<Message>)
    ensures UnreadCount(ms) > 0 <==> exists i :: 0 <= i < |ClientList(ms)| && ClientList(ms)[i].unread
  {
    var cl := ClientList(ms);
    if UnreadCount(ms) > 0 {
      var r := Filter(ms, IsUnread);
      assert r[0] in ms;
      var j :| 0 <= j < |ms| && ms[j] == r[0];
      ClientListCovers(ms, ms[j].userId);
      var i :| 0 <= i < |cl| && cl[i].userId == ms[j].userId;
      ClientListEntries(ms, i);
      assert HasUnread(ms, cl[i].userId);
    }
    if exists i :: 0 <= i < |cl| && cl[i].unread {
      var i :| 0 <= i < |cl| && cl[i].unread;
      ClientListEntries(ms, i);
      var j :| 0 <= j < |ms| && ms[j].userId == cl[i].userId && IsUnread(ms[j]);
      assert ms[j] in Filter(ms, IsUnread);
    }
  }

  // ------------------------------------------------------------- mark as read

  /** The messages after `selectClient(u)` has set `isRead` on every message of `u`. */
  function MarkRead(ms: seq<Message>, u: string): (r: seq<Message>)
    ensures |r| == |ms|
    ensures forall i :: 0 <= i < |ms| ==>
      r[i] == if ms[i].userId == u then ms[i].(isRead := true) else ms[i]
  {
    if ms == [] then []
    else [if ms[0].userId == u then ms[0].(isRead := true) else ms[0]] + MarkRead(ms[1..], u)
  }

  /** The messages of `u`. */
  function Of(u: string): Message -> bool
  {
    (m: Message) => m.userId == u
  }

  /** The unread messages of `u`. */
  function UnreadOf(u: string): Message -> bool
  {
    (m: Message) => m.userId == u && IsUnread(m)
  }

  /** Opening a client removes exactly that client's unread messages from the badge count. */
  lemma {:induction false} MarkReadCount(ms: seq<Message>, u: string)
    ensures UnreadCount(MarkRead(ms, u)) == UnreadCount(ms) - |Filter(ms, UnreadOf(u))|
  {
    if ms != [] {
      MarkReadCount(ms[1..], u);
      var r := MarkRead(ms, u);
      assert r[1..] == MarkRead(ms[1..], u);
    }
  }

  /**
   * After opening `u`, no message of `u` is unread, the other clients' unread
   * state is as before, and the client ids, timestamps and texts are unchanged.
   */
  lemma MarkReadEffect(ms: seq<Message>, u: string)
    ensures !HasUnread(MarkRead(ms, u), u)
    ensures forall v :: v != u ==> (HasUnread(MarkRead(ms, u), v) <==> HasUnread(ms, v))
    ensures forall i :: 0 <= i < |ms| ==> MarkRead(ms, u)[i].(isRead := ms[i].isRead) == ms[i]
  {
    var r := MarkRead(ms, u);
    forall v | v != u
      ensures HasUnread(r, v) <==> HasUnread(ms, v)
    {
      if HasUnread(ms, v) {
        var j :| 0 <= j < |ms| && ms[j].userId == v && IsUnread(ms[j]);
        assert r[j] == ms[j];
      }
      if HasUnread(r, v) {
        var j :| 0 <= j < |r| && r[j].userId == v && IsUnread(r[j]);
        assert r[j] == ms[j];
      }
    }
  }

  /** The dashboard's module-level state: the loaded messages and the open client. */
  class Dashboard {
    var messages: seq<Message>
    var currentClientId: Option<string>

    /** `loadMessages`: the messages as fetched, no client open. */
    constructor(loaded: seq<Message>)
      ensures messages == loaded && currentClientId == None
    {
      messages := loaded;
      currentClientId := None;
    }

    /**
     * The `forEach` of `renderClientList`: the `clients` dictionary and its
     * key order (first appearance).
     */
    method GroupByClient() returns (clients: map<string, Client>, order: seq<string>)
      ensures clients == Group(messages) && order == ClientIds(messages)
    {
      var ms := messages;
      clients := map[];
      order := [];
      var i := 0;
      while i < |ms|
        invariant 0 <= i <= |ms|
        invariant clients == Group(ms[..i])
        invariant order == ClientIds(ms[..i])
      {
        var m := ms[i];
        ghost var prefix := ms[..i];
        assert ms[..i + 1] == prefix + [m];
        GroupSnoc(prefix, m);
        ClientIdsSnoc(prefix, m);
        if m.userId !in clients {
          clients := clients[m.userId := NewClient(m)];
          order := order + [m.userId];
        } else {
          var c := clients[m.userId];
          if m.timestamp > c.lastMsg.timestamp {
            c := c.(lastMsg := m);
          }
          if IsUnread(m) {
            c := c.(unread := true);
          }
          assert c == Absorb(clients[m.userId], m);
          clients := clients[m.userId := c];
        }
        i := i + 1;
      }
      assert ms[..i] == ms;
    }

    /**
     * `renderClientList` without the DOM writes: the unread badge count and
     * the client list, the grouped entries in key order, sorted.
     */
    method RenderClientList() returns (unreadCount: nat, clientList: seq<Client>)
      ensures unreadCount == UnreadCount(messages)
      ensures clientList == ClientList(messages)
    {
      unreadCount := |Filter(messages, IsUnread)|;
      var clients, order := GroupByClient();
      var values := seq(|order|, k requires 0 <= k < |order| => clients[order[k]]);
      assert values == Grouped(messages);
      clientList := SortByRecency(values);
    }

    /**
     * `selectClient(userId)` without the DOM writes: the client becomes the
     * open one, its messages are shown in their original order, and every
     * message of that client is marked read, in place.
     */
    method SelectClient(userId: string) returns (shown: seq<Message>)
      modifies this
      ensures currentClientId == Some(userId)
      ensures shown == Filter(old(messages), Of(userId))
      ensures messages == MarkRead(old(messages), userId)
    {
      currentClientId := Some(userId);
      shown := Filter(messages, Of(userId));
      if |shown| == 0 {
        assert forall j :: 0 <= j < |messages| ==> messages[j].userId != userId;
        assert messages == MarkRead(messages, userId);
        return;
      }
      ghost var before := messages;
      var i := 0;
      while i < |messages|
        invariant 0 <= i <= |messages| == |before|
        invariant currentClientId == Some(userId)
        invariant forall j :: 0 <= j < i ==> messages[j] == MarkRead(before, userId)[j]
        invariant forall j :: i <= j < |messages| ==> messages[j] == before[j]
      {
        if messages[i].userId == userId && !messages[i].isRead {
          messages := messages[i := messages[i].(isRead := true)];
        }
        i := i + 1;
      }
      assert messages == MarkRead(before, userId);
    }
  }
}

/**
 * The in-memory conversation store of the chat web server, as values: one
 * function per HTTP handler taking the store before the request to the store
 * after it and the response. The class in module Server runs the same handlers
 * in place and is proved to agree with these functions.
 */
module ServerModel {
  import opened Wrappers
  import opened Generator

  /** An entry of a transcript: `{ role, parts }`, with `createdAt` when the store wrote it. */
  datatype Message = Message(role: Role, parts: string, createdAt: Option<int>)

  /** A stored conversation record `{ $id, title, userId, createdAt, updatedAt, messages }`. */
  datatype Conversation = Conversation(
    id: string,
    title: Option<string>,
    userId: string,
    createdAt: int,
    updatedAt: int,
    messages: seq<Message>)

  /** The process-wide map from id to conversation; `order` is the map's insertion order. */
  datatype Db = Db(convs: map<string, Conversation>, order: seq<string>)

  /** An HTTP answer: a success body, or a status code with the `error` text. */
  datatype Response<+T> = Ok(value: T) | Fail(status: int, error: string)

  /** The body of a successful GET of one conversation. */
  datatype Found = Found(conversation: Conversation, messages: seq<Message>)

  /** The body of POST /api/chat; every field may be absent. */
  datatype ChatRequest = ChatRequest(
    message: Option<string>,
    conversationId: Option<string>,
    history: Option<seq<Message>>)

  /** The body of a successful chat turn. */
  datatype ChatReply = ChatReply(response: string, conversationHistory: seq<Message>)

  const Guest := "guest"
  const NewChat := "New Chat"
  const NotFound := "Conversation not found"
  const MessageRequired := "Message is required"
  const ChatFailed := "An error occurred while processing your request"
  const TitleLength := 50
  const Ellipsis := "..."

  /** The store when the process starts. */
  const Empty := Db(map[], [])

  /** JavaScript truthiness of an optional string: absent and "" are falsy. */
  predicate Truthy(s: Option<string>)
  {
    s.Some? && s.value != ""
  }

  ghost predicate Distinct(keys: seq<string>)
  {
    forall i, j :: 0 <= i < j < |keys| ==> keys[i] != keys[j]
  }

  /** The shape every reachable store has: each key once in the order, each record under its own id. */
  ghost predicate WellFormed(db: Db)
  {
    && Distinct(db.order)
    && (forall k :: k in db.convs <==> k in db.order)
    && (forall k :: k in db.convs ==> db.convs[k].id == k)
  }

  /** `createdAt <= updatedAt` for every conversation. */
  ghost predicate StampsOrdered(db: Db)
  {
    forall k :: k in db.convs ==> db.convs[k].createdAt <= db.convs[k].updatedAt
  }

  /** The clock reading `now` is not earlier than any stored timestamp. */
  ghost predicate NotBefore(db: Db, now: int)
  {
    forall k :: k in db.convs ==> db.convs[k].updatedAt <= now
  }

  // ---------------------------------------------------------------- listing

  /** The map's values as an array: the records in insertion order. */
  function Values(db: Db): (r: seq<Conversation>)
    ensures WellFormed(db) ==> |r| == |db.order| && forall i :: 0 <= i < |r| ==> r[i] == db.convs[db.order[i]]
  {
    LookupAll(db.order, db.convs);
    Lookup(db.order, db.convs)
  }

  /** The records stored under `keys`, in the order of `keys`. */
  function Lookup(keys: seq<string>, convs: map<string, Conversation>): seq<Conversation>
  {
    if keys == [] then []
    else (if keys[0] in convs then [convs[keys[0]]] else []) + Lookup(keys[1..], convs)
  }

  /** The entries of `s` whose user is `user`, in their order in `s`. */
  function OwnedBy(s: seq<Conversation>, user: string): (r: seq<Conversation>)
    ensures forall c :: c in r <==> c in s && c.userId == user
    ensures multiset(r) <= multiset(s)
  {
    if s == [] then []
    else
      assert s == [s[0]] + s[1..];
      (if s[0].userId == user then [s[0]] else []) + OwnedBy(s[1..], user)
  }

  /** Filtering a concatenation filters each part, so the kept entries stay in their order. */
  lemma {:induction false} OwnedByAppend(a: seq<Conversation>, b: seq<Conversation>, user: string)
    ensures OwnedBy(a + b, user) == OwnedBy(a, user) + OwnedBy(b, user)
  {
    if a == [] {
      assert a + b == b;
    } else {
      var ab := a + b;
      assert ab[1..] == a[1..] + b;
      OwnedByAppend(a[1..], b, user);
    }
  }

  ghost predicate NewestFirst(s: seq<Conversation>)
  {
    forall i, j :: 0 <= i < j < |s| ==> s[i].updatedAt >= s[j].updatedAt
  }

  /** The entries of `s` last updated at `t`, in their order in `s`. */
  function UpdatedAt(s: seq<Conversation>, t: int): seq<Conversation>
  {
    if s == [] then []
    else (if s[0].updatedAt == t then [s[0]] else []) + UpdatedAt(s[1..], t)
  }

  /** Places `c` before the first entry of `s` that is not newer than it. */
  function InsertNewestFirst(c: Conversation, s: seq<Conversation>): seq<Conversation>
  {
    if s == [] || c.updatedAt >= s[0].updatedAt then [c] + s
    else [s[0]] + InsertNewestFirst(c, s[1..])
  }

  lemma {:induction false} InsertKeepsEntries(c: Conversation, s: seq<Conversation>)
    ensures multiset(InsertNewestFirst(c, s)) == multiset(s) + multiset{c}
  {
    if s != [] && c.updatedAt < s[0].updatedAt {
      InsertKeepsEntries(c, s[1..]);
      assert s == [s[0]] + s[1..];
    }
  }

  lemma {:induction false} InsertKeepsBound(c: Conversation, s: seq<Conversation>, bound: int)
    requires c.updatedAt <= bound
    requires forall x :: x in s ==> x.updatedAt <= bound
    ensures forall x :: x in InsertNewestFirst(c, s) ==> x.updatedAt <= bound
  {
    if s != [] && c.updatedAt < s[0].updatedAt {
      InsertKeepsBound(c, s[1..], bound);
    }
  }

  lemma NewestFirstCons(x: Conversation, s: seq<Conversation>)
    requires NewestFirst(s)
    requires forall y :: y in s ==> y.updatedAt <= x.updatedAt
    ensures NewestFirst([x] + s)
  {
    var r := [x] + s;
    forall i, j | 0 <= i < j < |r| ensures r[i].updatedAt >= r[j].updatedAt {
      if i == 0 {
        assert r[j] == s[j - 1];
      } else {
        assert r[i] == s[i - 1] && r[j] == s[j - 1];
      }
    }
  }

  lemma {:induction false} InsertKeepsNewestFirst(c: Conversation, s: seq<Conversation>)
    requires NewestFirst(s)
    ensures NewestFirst(InsertNewestFirst(c, s))
  {
    if s == [] || c.updatedAt >= s[0].updatedAt {
      forall y | y in s ensures y.updatedAt <= c.updatedAt {
        var j :| 0 <= j < |s| && s[j] == y;
      }
      NewestFirstCons(c, s);
    } else {
      assert NewestFirst(s[1..]);
      InsertKeepsNewestFirst(c, s[1..]);
      InsertKeepsBound(c, s[1..], s[0].updatedAt);
      NewestFirstCons(s[0], InsertNewestFirst(c, s[1..]));
    }
  }

  lemma {:induction false} InsertKeepsTies(c: Conversation, s: seq<Conversation>, t: int)
    requires NewestFirst(s)
    ensures UpdatedAt(InsertNewestFirst(c, s), t) == if c.updatedAt == t then [c] + UpdatedAt(s, t) else UpdatedAt(s, t)
  {
    var r := InsertNewestFirst(c, s);
    if s == [] || c.updatedAt >= s[0].updatedAt {
      assert r[1..] == s;
    } else {
      assert r[1..] == InsertNewestFirst(c, s[1..]);
      InsertKeepsTies(c, s[1..], t);
    }
  }

  /**
   * The listing's sort by descending `updatedAt`: newest first, the same
   * entries, and entries with equal timestamps in their original order, as
   * JavaScript's stable array sort leaves them.
   */
  function SortNewestFirst(s: seq<Conversation>): (r: seq<Conversation>)
    ensures NewestFirst(r)
    ensures multiset(r) == multiset(s)
    ensures forall t :: UpdatedAt(r, t) == UpdatedAt(s, t)
  {
    if s == [] then []
    else
      var rest := SortNewestFirst(s[1..]);
      SortStep(s, rest);
      InsertNewestFirst(s[0], rest)
  }

  /** Inserting the head of `s` into a sorting of its tail sorts `s`. */
  lemma SortStep(s: seq<Conversation>, rest: seq<Conversation>)
    requires s != [] && NewestFirst(rest) && multiset(rest) == multiset(s[1..])
    requires forall t :: UpdatedAt(rest, t) == UpdatedAt(s[1..], t)
    ensures var r := InsertNewestFirst(s[0], rest);
            NewestFirst(r) && multiset(r) == multiset(s) && forall t :: UpdatedAt(r, t) == UpdatedAt(s, t)
  {
    var r := InsertNewestFirst(s[0], rest);
    assert NewestFirst(r) by {
      InsertKeepsNewestFirst(s[0], rest);
    }
    assert multiset(r) == multiset(s) by {
      InsertKeepsEntries(s[0], rest);
      assert s == [s[0]] + s[1..];
    }
    forall t ensures UpdatedAt(r, t) == UpdatedAt(s, t) {
      InsertKeepsTies(s[0], rest, t);
    }
  }

  /** The user a listing is for: the query's user id, or "guest" when it is absent or empty. */
  function ListedUser(userId: Option<string>): (u: string)
    ensures u != ""
    ensures Truthy(userId) ==> u == userId.value
    ensures !Truthy(userId) ==> u == Guest
  {
    if Truthy(userId) then userId.value else Guest
  }

  /** GET /api/conversations: the caller's conversations, newest first, with no limit. */
  function ListOp(db: Db, userId: Option<string>): (r: seq<Conversation>)
    ensures WellFormed(db) ==> forall c :: c in r <==> c in db.convs.Values && c.userId == ListedUser(userId)
    ensures NewestFirst(r)
    ensures multiset(r) == multiset(OwnedBy(Values(db), ListedUser(userId)))
    ensures forall t :: UpdatedAt(r, t) == UpdatedAt(OwnedBy(Values(db), ListedUser(userId)), t)
  {
    ValuesAreStored(db);
    var owned := OwnedBy(Values(db), ListedUser(userId));
    var r := SortNewestFirst(owned);
    assert forall c :: c in r <==> c in owned by {
      forall c ensures c in r <==> c in owned {
        assert c in r <==> c in multiset(r);
        assert c in owned <==> c in multiset(owned);
      }
    }
    r
  }

  lemma ValuesAreStored(db: Db)
    ensures WellFormed(db) ==> forall c :: c in Values(db) <==> c in db.convs.Values
  {
    LookupFinds(db.order, db.convs);
  }

  /** When every key is stored, the lookup has one record per key, in the order of the keys. */
  lemma {:induction false} LookupAll(keys: seq<string>, convs: map<string, Conversation>)
    ensures (forall k :: k in keys ==> k in convs) ==>
              |Lookup(keys, convs)| == |keys| && forall i :: 0 <= i < |keys| ==> Lookup(keys, convs)[i] == convs[keys[i]]
  {
    if keys != [] && forall k :: k in keys ==> k in convs {
      assert forall k :: k in keys[1..] ==> k in keys;
      LookupAll(keys[1..], convs);
      assert keys[0] in keys;
      var r := Lookup(keys, convs);
      assert r == [convs[keys[0]]] + Lookup(keys[1..], convs);
      forall i | 0 <= i < |keys| ensures r[i] == convs[keys[i]] {
        if i > 0 {
          assert r[i] == Lookup(keys[1..], convs)[i - 1] && keys[i] == keys[1..][i - 1];
        }
      }
    }
  }

  lemma {:induction false} LookupFinds(keys: seq<string>, convs: map<string, Conversation>)
    ensures forall c :: c in Lookup(keys, convs) <==> exists k :: k in keys && k in convs && convs[k] == c
  {
    if keys != [] {
      LookupFinds(keys[1..], convs);
      forall c | c in Lookup(keys, convs) ensures exists k :: k in keys && k in convs && convs[k] == c {
        if keys[0] in convs && c == convs[keys[0]] {
          assert keys[0] in keys;
        } else {
          assert c in Lookup(keys[1..], convs);
          var k :| k in keys[1..] && k in convs && convs[k] == c;
          assert k in keys;
        }
      }
      forall c | exists k :: k in keys && k in convs && convs[k] == c ensures c in Lookup(keys, convs) {
        var k :| k in keys && k in convs && convs[k] == c;
        if k != keys[0] {
          assert k in keys[1..];
        }
      }
    }
  }

  // ------------------------------------------------------- single records

  /** POST /api/conversations: `Map.set` under `id` of a record with no messages. */
  function CreateOp(db: Db, id: string, title: Option<string>, userId: Option<string>, now: int): (r: (Db, Conversation))
    ensures r.1.id == id && r.1.messages == [] && r.1.createdAt == now && r.1.updatedAt == now
    ensures Truthy(title) ==> r.1.title == title
    ensures !Truthy(title) ==> r.1.title == Some(NewChat)
    ensures userId.Some? ==> r.1.userId == userId.value
    ensures userId.None? ==> r.1.userId == Guest
    ensures id in r.0.convs && r.0.convs[id] == r.1
    ensures forall k :: k in db.convs && k != id ==> k in r.0.convs && r.0.convs[k] == db.convs[k]
    ensures r.0.convs.Keys == db.convs.Keys + {id}
  {
    var c := Conversation(id, if Truthy(title) then title else Some(NewChat), userId.GetOr(Guest), now, now, []);
    (Db(db.convs[id := c], if id in db.convs then db.order else db.order + [id]), c)
  }

  /** GET /api/conversations/:id. */
  function GetOp(db: Db, id: string): (r: Response<Found>)
    ensures r.Ok? <==> id in db.convs
    ensures r.Ok? ==> r.value.conversation == db.convs[id] && r.value.messages == db.convs[id].messages
    ensures r.Fail? ==> r.status == 404 && r.error == NotFound
  {
    if id in db.convs then Ok(Found(db.convs[id], db.convs[id].messages)) else Fail(404, NotFound)
  }

  /** PATCH /api/conversations/:id: the title is taken as sent, even when absent. */
  function PatchOp(db: Db, id: string, title: Option<string>, now: int): (r: (Db, Response<Conversation>))
    ensures r.1.Ok? <==> id in db.convs
    ensures r.1.Fail? ==> r.0 == db && r.1.status == 404 && r.1.error == NotFound
    ensures r.1.Ok? ==> r.0.convs == db.convs[id := r.1.value] && r.0.order == db.order
    ensures r.1.Ok? ==> r.1.value == db.convs[id].(title := title, updatedAt := now)
  {
    if id !in db.convs then (db, Fail(404, NotFound))
    else
      var c := db.convs[id].(title := title, updatedAt := now);
      (db.(convs := db.convs[id := c]), Ok(c))
  }

  /** `keys` without `id`. */
  function Without(keys: seq<string>, id: string): (r: seq<string>)
    ensures forall k :: k in r <==> k in keys && k != id
  {
    if keys == [] then []
    else (if keys[0] == id then [] else [keys[0]]) + Without(keys[1..], id)
  }

  /** DELETE /api/conversations/:id: `Map.delete`, 404 when nothing was deleted. */
  function DeleteOp(db: Db, id: string): (r: (Db, Response<()>))
    ensures r.1.Ok? <==> id in db.convs
    ensures r.1.Fail? ==> r.0 == db && r.1.status == 404 && r.1.error == NotFound
    ensures r.0.convs == db.convs - {id}
  {
    if id !in db.convs then (db, Fail(404, NotFound))
    else (Db(db.convs - {id}, Without(db.order, id)), Ok(()))
  }

  // ------------------------------------------------------------- chat turns

  /**
   * The title a conversation gets from its first exchange: the message cut
   * to 50 characters, with an ellipsis when something was cut.
   */
  function DeriveTitle(message: string): (title: string)
    ensures |title| <= TitleLength + |Ellipsis|
    ensures |message| <= TitleLength ==> title == message
    ensures |message| > TitleLength ==> |title| == TitleLength + |Ellipsis| && title[..TitleLength] == message[..TitleLength] && title[TitleLength..] == Ellipsis
  {
    var cut := if |message| <= TitleLength then message else message[..TitleLength];
    cut + (if |message| > TitleLength then Ellipsis else "")
  }

  /** What the generator is sent: each entry's role, and its text as the one part, without the timestamp. */
  function ToContents(history: seq<Message>): (r: seq<Content>)
    ensures |r| == |history|
    ensures forall i :: 0 <= i < |r| ==> r[i] == Content(history[i].role, history[i].parts)
  {
    if history == [] then [] else [Content(history[0].role, history[0].parts)] + ToContents(history[1..])
  }

  /**
   * True when the turn works on the stored list itself: no inline history
   * was sent and the id names a stored conversation, so the working history
   * is the very array held in the store and every push to it is a write to
   * the store.
   */
  predicate SharesStoredList(db: Db, req: ChatRequest)
  {
    req.history.None? && Truthy(req.conversationId) && req.conversationId.value in db.convs
  }

  /**
   * The working history before the user entry: the sent history when there
   * is one, else the stored list of the named conversation, else empty.
   */
  function BaseHistory(db: Db, req: ChatRequest): (r: seq<Message>)
    ensures req.history.Some? ==> r == req.history.value
    ensures req.history.None? && Truthy(req.conversationId) && req.conversationId.value in db.convs ==>
              r == db.convs[req.conversationId.value].messages
    ensures req.history.None? && !(Truthy(req.conversationId) && req.conversationId.value in db.convs) ==> r == []
  {
    if SharesStoredList(db, req) then db.convs[req.conversationId.value].messages
    else if req.history.Some? then req.history.value
    else []
  }

  /** The store with the messages of `id` replaced. */
  function WithMessages(db: Db, id: string, messages: seq<Message>): Db
    requires id in db.convs
  {
    db.(convs := db.convs[id := db.convs[id].(messages := messages)])
  }

  /** The store with the title and `updatedAt` of `id` replaced. */
  function Retitled(db: Db, id: string, title: Option<string>, now: int): Db
    requires id in db.convs
  {
    db.(convs := db.convs[id := db.convs[id].(title := title, updatedAt := now)])
  }

  /**
   * Saving one exchange to the stored conversation `id`, if there is one:
   * both entries appended with the time, `updatedAt` refreshed, and the
   * title derived when the list then holds exactly two entries.
   */
  function Persist(db: Db, id: string, message: string, reply: string, now: int): (r: Db)
    ensures r.order == db.order && r.convs.Keys == db.convs.Keys
    ensures id !in db.convs ==> r == db
    ensures id in db.convs ==>
              var c := db.convs[id];
              && r.convs[id].messages == c.messages + [Message(User, message, Some(now)), Message(Model, reply, Some(now))]
              && r.convs[id].updatedAt == now
              && r.convs[id].title == (if c.messages == [] then Some(DeriveTitle(message)) else c.title)
              && r.convs[id].(messages := c.messages, updatedAt := c.updatedAt, title := c.title) == c
    ensures forall k :: k in db.convs && k != id ==> r.convs[k] == db.convs[k]
  {
    if id !in db.convs then db
    else
      var c := db.convs[id];
      var messages := c.messages + [Message(User, message, Some(now)), Message(Model, reply, Some(now))];
      var title := if |messages| == 2 then Some(DeriveTitle(message)) else c.title;
      db.(convs := db.convs[id := c.(messages := messages, updatedAt := now, title := title)])
  }

  /** POST /api/chat, with `gen` standing for what the generator answers to the contents it is sent. */
  function ChatOp(db: Db, req: ChatRequest, gen: seq<Content> -> Outcome, now: int): (r: (Db, Response<ChatReply>))
    ensures !Truthy(req.message) ==> r == (db, Fail(400, MessageRequired))
    ensures r.0.order == db.order && r.0.convs.Keys == db.convs.Keys
    ensures Truthy(req.message) ==>
              var sent := ToContents(BaseHistory(db, req) + [Message(User, req.message.value, None)]);
              && (gen(sent).Throws? ==> r.1 == Fail(500, ChatFailed))
              && (gen(sent).Text? ==> r.1.Ok? && r.1.value.response == ReplyText(gen(sent).text))
  {
    if !Truthy(req.message) then (db, Fail(400, MessageRequired))
    else
      var message := req.message.value;
      var shared := SharesStoredList(db, req);
      var id := if shared then req.conversationId.value else "";
      var sent := BaseHistory(db, req) + [Message(User, message, None)];
      var db1 := if shared then WithMessages(db, id, sent) else db;
      match gen(ToContents(sent))
      case Throws => (db1, Fail(500, ChatFailed))
      case Text(t) => AnswerOp(db1, req, message, sent, ReplyText(t), now)
  }

  /**
   * The rest of a turn once the generator has answered `reply` to the
   * working history `sent`: the model entry pushed, the exchange saved, and
   * the reply sent with the working history.
   */
  function AnswerOp(db: Db, req: ChatRequest, message: string, sent: seq<Message>, reply: string, now: int): (r: (Db, Response<ChatReply>))
    ensures r.0.order == db.order && r.0.convs.Keys == db.convs.Keys
    ensures r.1.Ok? && r.1.value.response == reply
    ensures !SharesStoredList(db, req) ==> r.1.value.conversationHistory == sent + [Message(Model, reply, None)]
    ensures SharesStoredList(db, req) ==> r.1.value.conversationHistory == r.0.convs[req.conversationId.value].messages
  {
    var shared := SharesStoredList(db, req);
    var id := if shared then req.conversationId.value else "";
    var history := sent + [Message(Model, reply, None)];
    var db2 := if shared then WithMessages(db, id, history) else db;
    var db3 := if Truthy(req.conversationId) then Persist(db2, req.conversationId.value, message, reply, now) else db2;
    (db3, Ok(ChatReply(reply, if shared then db3.convs[id].messages else history)))
  }
}

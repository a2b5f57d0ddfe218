/**
 * What the in-memory handlers of the chat web server promise, stated over the
 * value-level model: outcomes of single requests and relations between
 * several.
 */
module ServerProperties {
  import opened Wrappers
  import opened Generator
  import opened ServerModel

  // ------------------------------------------------------------ the shape

  lemma {:induction false} WithoutKeepsDistinct(keys: seq<string>, id: string)
    requires Distinct(keys)
    ensures Distinct(Without(keys, id))
  {
    if keys != [] {
      WithoutKeepsDistinct(keys[1..], id);
      var rest := Without(keys[1..], id);
      var r := Without(keys, id);
      if keys[0] != id {
        assert keys[0] !in rest by {
          assert keys[0] !in keys[1..];
        }
        forall i, j | 0 <= i < j < |r| ensures r[i] != r[j] {
          if i == 0 {
            assert r[j] == rest[j - 1];
          } else {
            assert r[i] == rest[i - 1] && r[j] == rest[j - 1];
          }
        }
      }
    }
  }

  /** Adding a record under a fresh id, at the end of the order, keeps the shape. */
  lemma AddKeepsShape(convs: map<string, Conversation>, order: seq<string>, id: string, c: Conversation)
    requires WellFormed(Db(convs, order)) && id !in convs && c.id == id
    ensures WellFormed(Db(convs[id := c], order + [id]))
  {
    var order' := order + [id];
    forall i, j | 0 <= i < j < |order'| ensures order'[i] != order'[j] {
      if j == |order| {
        assert order[i] in convs;
      }
    }
  }

  /** Removing a record and its key keeps the shape. */
  lemma RemoveKeepsShape(convs: map<string, Conversation>, order: seq<string>, id: string)
    requires WellFormed(Db(convs, order))
    ensures WellFormed(Db(convs - {id}, Without(order, id)))
  {
    WithoutKeepsDistinct(order, id);
  }

  /** Creating under a fresh id keeps the store well formed and appends the id to the listing order. */
  lemma CreateKeepsShape(db: Db, id: string, title: Option<string>, userId: Option<string>, now: int)
    requires WellFormed(db) && id !in db.convs
    ensures var (db', c) := CreateOp(db, id, title, userId, now);
      WellFormed(db') && db'.order == db.order + [id]
  {
    AddKeepsShape(db.convs, db.order, id, CreateOp(db, id, title, userId, now).1);
  }

  lemma PatchKeepsShape(db: Db, id: string, title: Option<string>, now: int)
    requires WellFormed(db)
    ensures WellFormed(PatchOp(db, id, title, now).0)
  {
  }

  /** Saving an exchange is appending both entries, then setting the title and `updatedAt`. */
  lemma PersistSteps(db: Db, id: string, message: string, reply: string, now: int)
    requires id in db.convs
    ensures var messages := db.convs[id].messages + [Message(User, message, Some(now)), Message(Model, reply, Some(now))];
            var title := if |messages| == 2 then Some(DeriveTitle(message)) else db.convs[id].title;
            Persist(db, id, message, reply, now) == Retitled(WithMessages(db, id, messages), id, title, now)
  {
  }

  lemma DeleteKeepsShape(db: Db, id: string)
    requires WellFormed(db)
    ensures WellFormed(DeleteOp(db, id).0)
  {
    if id in db.convs {
      RemoveKeepsShape(db.convs, db.order, id);
    }
  }

  lemma ChatKeepsShape(db: Db, req: ChatRequest, gen: seq<Content> -> Outcome, now: int)
    requires WellFormed(db)
    ensures WellFormed(ChatOp(db, req, gen, now).0)
    ensures ChatOp(db, req, gen, now).0.convs.Keys == db.convs.Keys
  {
  }

  // ------------------------------------------------------ single requests

  /**
   * A created conversation can be fetched at once, with no messages; it is
   * listed for exactly the user it was created for; nothing else changes.
   */
  lemma CreateThenGetAndList(db: Db, id: string, title: Option<string>, userId: Option<string>, now: int, query: Option<string>)
    requires WellFormed(db) && id !in db.convs
    ensures var (db', c) := CreateOp(db, id, title, userId, now);
      && GetOp(db', id) == Ok(Found(c, []))
      && (c in ListOp(db', query) <==> c.userId == ListedUser(query))
      && (forall k :: k in db.convs ==> GetOp(db', k) == GetOp(db, k))
  {
    CreateKeepsShape(db, id, title, userId, now);
  }

  /** Get, patch and delete of an id that is not stored answer 404 and change nothing. */
  lemma MissingIdIsNotFound(db: Db, id: string, title: Option<string>, now: int)
    requires id !in db.convs
    ensures GetOp(db, id) == Fail(404, NotFound)
    ensures PatchOp(db, id, title, now) == (db, Fail(404, NotFound))
    ensures DeleteOp(db, id) == (db, Fail(404, NotFound))
  {
  }

  /** A patch changes the title, verbatim, and `updatedAt` of one conversation, and nothing else. */
  lemma PatchChangesOnlyTitle(db: Db, id: string, title: Option<string>, now: int)
    requires id in db.convs
    ensures var (db', r) := PatchOp(db, id, title, now);
      && r.Ok?
      && db'.order == db.order && db'.convs.Keys == db.convs.Keys
      && db'.convs[id].title == title && db'.convs[id].updatedAt == now
      && db'.convs[id].(title := db.convs[id].title, updatedAt := db.convs[id].updatedAt) == db.convs[id]
      && (forall k :: k in db.convs && k != id ==> db'.convs[k] == db.convs[k])
  {
  }

  /** After a delete the id is gone, so a later get is a 404; every other entry is as it was. */
  lemma DeleteThenGet(db: Db, id: string)
    requires WellFormed(db)
    ensures var db' := DeleteOp(db, id).0;
      && WellFormed(db')
      && GetOp(db', id) == Fail(404, NotFound)
      && (forall k :: k != id ==> GetOp(db', k) == GetOp(db, k))
      && Values(db') == OtherRecords(Values(db), id)
  {
    DeleteKeepsShape(db, id);
    if id in db.convs {
      WithoutValues(db.order, db.convs, id);
    } else {
      ValuesAreStored(db);
      OtherIsAll(Values(db), id);
    }
  }

  /** The entries of `s` that are not the record `id`. */
  function OtherRecords(s: seq<Conversation>, id: string): (r: seq<Conversation>)
    ensures forall c :: c in r <==> c in s && c.id != id
  {
    if s == [] then [] else (if s[0].id == id then [] else [s[0]]) + OtherRecords(s[1..], id)
  }

  lemma {:induction false} OtherIsAll(s: seq<Conversation>, id: string)
    requires forall c :: c in s ==> c.id != id
    ensures OtherRecords(s, id) == s
  {
    if s != [] {
      assert s[0] in s;
      assert forall c :: c in s[1..] ==> c in s;
      OtherIsAll(s[1..], id);
    }
  }

  lemma {:induction false} WithoutValues(keys: seq<string>, convs: map<string, Conversation>, id: string)
    requires forall k :: k in keys ==> k in convs && convs[k].id == k
    ensures Lookup(Without(keys, id), convs - {id}) == OtherRecords(Lookup(keys, convs), id)
  {
    if keys != [] {
      var k0, tail := keys[0], keys[1..];
      assert k0 in keys;
      assert forall k :: k in tail ==> k in keys;
      WithoutValues(tail, convs, id);
      var whole := Lookup(keys, convs);
      assert whole == [convs[k0]] + Lookup(tail, convs);
      assert whole[1..] == Lookup(tail, convs);
      assert OtherRecords(whole, id) == (if k0 == id then [] else [convs[k0]]) + OtherRecords(Lookup(tail, convs), id);
      if k0 != id {
        var w := Without(keys, id);
        assert w == [k0] + Without(tail, id);
        assert w[1..] == Without(tail, id);
        assert Lookup(w, convs - {id}) == [convs[k0]] + Lookup(Without(tail, id), convs - {id});
      } else {
        assert Without(keys, id) == Without(tail, id);
        assert convs[k0].id == id;
      }
    }
  }

  // ---------------------------------------------------------- chat turns

  /** A missing or empty message is refused with 400 and the store is untouched. */
  lemma ChatNeedsMessage(db: Db, req: ChatRequest, gen: seq<Content> -> Outcome, now: int)
    requires req.message.None? || req.message == Some("")
    ensures ChatOp(db, req, gen, now) == (db, Fail(400, MessageRequired))
  {
  }

  /**
   * With an inline history and a stored conversation, a successful turn
   * appends the user entry and then the model entry to the stored messages,
   * refreshes `updatedAt`, derives the title on the first exchange, and
   * answers with the inline history plus the two new entries.
   */
  lemma ChatWithHistory(db: Db, req: ChatRequest, gen: seq<Content> -> Outcome, now: int, t: string)
    requires Truthy(req.message) && req.history.Some? && Truthy(req.conversationId)
    requires req.conversationId.value in db.convs
    requires gen(ToContents(req.history.value + [Message(User, req.message.value, None)])) == Text(t)
    ensures var id, message, reply := req.conversationId.value, req.message.value, ReplyText(t);
      var old_ := db.convs[id];
      var (db', r) := ChatOp(db, req, gen, now);
      && r == Ok(ChatReply(reply, req.history.value + [Message(User, message, None), Message(Model, reply, None)]))
      && db'.order == db.order && db'.convs.Keys == db.convs.Keys
      && db'.convs[id].messages == old_.messages + [Message(User, message, Some(now)), Message(Model, reply, Some(now))]
      && db'.convs[id].updatedAt == now
      && db'.convs[id].title == (if old_.messages == [] then Some(DeriveTitle(message)) else old_.title)
      && db'.convs[id].id == old_.id && db'.convs[id].userId == old_.userId && db'.convs[id].createdAt == old_.createdAt
      && (forall k :: k in db.convs && k != id ==> db'.convs[k] == db.convs[k])
  {
    var id, message, reply := req.conversationId.value, req.message.value, ReplyText(t);
    assert !SharesStoredList(db, req);
    assert BaseHistory(db, req) == req.history.value;
    var history := req.history.value + [Message(User, message, None), Message(Model, reply, None)];
    assert req.history.value + [Message(User, message, None)] + [Message(Model, reply, None)] == history;
    assert ChatOp(db, req, gen, now) == (Persist(db, id, message, reply, now), Ok(ChatReply(reply, history)));
  }

  /** With no stored conversation to write to, nothing is stored but the reply is still given. */
  lemma ChatWithoutStoredConversation(db: Db, req: ChatRequest, gen: seq<Content> -> Outcome, now: int, t: string)
    requires Truthy(req.message)
    requires !(Truthy(req.conversationId) && req.conversationId.value in db.convs)
    requires gen(ToContents(req.history.GetOr([]) + [Message(User, req.message.value, None)])) == Text(t)
    ensures ChatOp(db, req, gen, now)
         == (db, Ok(ChatReply(ReplyText(t), req.history.GetOr([]) + [Message(User, req.message.value, None), Message(Model, ReplyText(t), None)])))
  {
    var message, reply := req.message.value, ReplyText(t);
    var base := req.history.GetOr([]);
    assert BaseHistory(db, req) == base;
    assert base + [Message(User, message, None)] + [Message(Model, reply, None)]
        == base + [Message(User, message, None), Message(Model, reply, None)];
  }

  /**
   * With no inline history and a stored conversation, the working history is
   * the stored list itself: the model entry and the user entry land in it
   * twice, once from the working history and once from the save, so it grows
   * by four entries, the title is never derived on this path, and the reply
   * carries the whole stored list.
   */
  lemma ChatOnStoredList(db: Db, req: ChatRequest, gen: seq<Content> -> Outcome, now: int, t: string)
    requires Truthy(req.message) && req.history.None? && Truthy(req.conversationId)
    requires req.conversationId.value in db.convs
    requires gen(ToContents(db.convs[req.conversationId.value].messages + [Message(User, req.message.value, None)])) == Text(t)
    ensures var id, message, reply := req.conversationId.value, req.message.value, ReplyText(t);
      var old_ := db.convs[id];
      var (db', r) := ChatOp(db, req, gen, now);
      var stored := old_.messages + [Message(User, message, None), Message(Model, reply, None),
                                     Message(User, message, Some(now)), Message(Model, reply, Some(now))];
      && db'.convs[id] == old_.(messages := stored, updatedAt := now)
      && |db'.convs[id].messages| == |old_.messages| + 4
      && db'.convs[id].title == old_.title
      && r == Ok(ChatReply(reply, stored))
      && db'.order == db.order
      && (forall k :: k in db.convs && k != id ==> db'.convs[k] == db.convs[k])
  {
  }

  /** A generator failure on a stored list leaves the user entry in storage and answers 500. */
  lemma ChatFailsOnStoredList(db: Db, req: ChatRequest, gen: seq<Content> -> Outcome, now: int)
    requires Truthy(req.message) && req.history.None? && Truthy(req.conversationId)
    requires req.conversationId.value in db.convs
    requires gen(ToContents(db.convs[req.conversationId.value].messages + [Message(User, req.message.value, None)])) == Throws
    ensures var id := req.conversationId.value;
      var (db', r) := ChatOp(db, req, gen, now);
      && r == Fail(500, ChatFailed)
      && db'.convs == db.convs[id := db.convs[id].(messages := db.convs[id].messages + [Message(User, req.message.value, None)])]
      && db'.order == db.order
  {
  }

  /** A generator failure on any other path answers 500 and changes nothing. */
  lemma ChatFailsElsewhere(db: Db, req: ChatRequest, gen: seq<Content> -> Outcome, now: int)
    requires Truthy(req.message) && !SharesStoredList(db, req)
    requires gen(ToContents(req.history.GetOr([]) + [Message(User, req.message.value, None)])) == Throws
    ensures ChatOp(db, req, gen, now) == (db, Fail(500, ChatFailed))
  {
  }

  /**
   * The generator is sent the working history followed by the new user
   * entry, without timestamps, and nothing else: two generators that answer
   * those contents alike give the same turn.
   */
  lemma ChatSendsHistory(db: Db, req: ChatRequest, gen1: seq<Content> -> Outcome, gen2: seq<Content> -> Outcome, now: int)
    requires Truthy(req.message) ==>
               (gen1(ToContents(BaseHistory(db, req) + [Message(User, req.message.value, None)]))
                == gen2(ToContents(BaseHistory(db, req) + [Message(User, req.message.value, None)])))
    ensures ChatOp(db, req, gen1, now) == ChatOp(db, req, gen2, now)
    ensures Truthy(req.message) ==>
      var sent := ToContents(BaseHistory(db, req) + [Message(User, req.message.value, None)]);
      && |sent| == |BaseHistory(db, req)| + 1
      && sent[|sent| - 1] == Content(User, req.message.value)
      && (forall i :: 0 <= i < |BaseHistory(db, req)| ==> sent[i] == Content(BaseHistory(db, req)[i].role, BaseHistory(db, req)[i].parts))
  {
  }

  // ----------------------------------------------------------- timestamps

  /** Every handler keeps `createdAt <= updatedAt` when the clock has not gone back. */
  lemma HandlersKeepStampsOrdered(db: Db, now: int, id: string, title: Option<string>, userId: Option<string>,
                                  req: ChatRequest, gen: seq<Content> -> Outcome)
    requires StampsOrdered(db) && NotBefore(db, now)
    ensures StampsOrdered(CreateOp(db, id, title, userId, now).0)
    ensures StampsOrdered(PatchOp(db, id, title, now).0)
    ensures StampsOrdered(DeleteOp(db, id).0)
    ensures StampsOrdered(ChatOp(db, req, gen, now).0)
  {
    ChatKeepsStampsOrdered(db, req, gen, now);
  }

  lemma ChatKeepsStampsOrdered(db: Db, req: ChatRequest, gen: seq<Content> -> Outcome, now: int)
    requires StampsOrdered(db) && NotBefore(db, now)
    ensures StampsOrdered(ChatOp(db, req, gen, now).0)
  {
    if Truthy(req.message) {
      var message := req.message.value;
      var shared := SharesStoredList(db, req);
      var id := if shared then req.conversationId.value else "";
      var sent := BaseHistory(db, req) + [Message(User, message, None)];
      var db1 := if shared then WithMessages(db, id, sent) else db;
      assert StampsOrdered(db1) && NotBefore(db1, now);
      match gen(ToContents(sent))
      case Throws =>
      case Text(t) =>
        AnswerKeepsStampsOrdered(db1, req, message, sent, ReplyText(t), now);
    }
  }

  lemma AnswerKeepsStampsOrdered(db: Db, req: ChatRequest, message: string, sent: seq<Message>, reply: string, now: int)
    requires StampsOrdered(db) && NotBefore(db, now)
    ensures StampsOrdered(AnswerOp(db, req, message, sent, reply, now).0)
  {
    var shared := SharesStoredList(db, req);
    var id := if shared then req.conversationId.value else "";
    var db2 := if shared then WithMessages(db, id, sent + [Message(Model, reply, None)]) else db;
    assert StampsOrdered(db2) && NotBefore(db2, now);
    if Truthy(req.conversationId) {
      assert StampsOrdered(Persist(db2, req.conversationId.value, message, reply, now));
    }
  }

  // ------------------------------------------------------------- listing

  /** Only the requested user's conversations are listed, the default user being "guest". */
  lemma ListShowsOwner(db: Db, c: Conversation)
    requires WellFormed(db) && c in db.convs.Values
    ensures c in ListOp(db, None) <==> c.userId == Guest
    ensures c in ListOp(db, Some("")) <==> c.userId == Guest
    ensures c.userId != "" ==> c in ListOp(db, Some(c.userId))
  {
    assert ListedUser(None) == Guest && ListedUser(Some("")) == Guest;
    assert c.userId != "" ==> ListedUser(Some(c.userId)) == c.userId;
  }

  /**
   * A conversation created with the user id "" is stored but no listing
   * shows it: an empty query falls back to "guest".
   */
  lemma EmptyUserNeverListed(db: Db, c: Conversation, query: Option<string>)
    requires WellFormed(db) && c.userId == ""
    ensures c !in ListOp(db, query)
  {
  }

  // ------------------------------------------ a scenario, step by step

  /**
   * Create "Trip" for "u1", then send "Hi" with the conversation id and no
   * history while the generator answers "Hello!": the reply is "Hello!", the
   * stored list holds four entries and the title stays "Trip".
   */
  lemma TripScenario(gen: seq<Content> -> Outcome)
    requires forall contents :: gen(contents) == Text("Hello!")
    ensures var (db1, c) := CreateOp(Empty, "c1", Some("Trip"), Some("u1"), 1);
      var (db2, r) := ChatOp(db1, ChatRequest(Some("Hi"), Some("c1"), None), gen, 2);
      && c.title == Some("Trip") && c.userId == "u1"
      && r.Ok? && r.value.response == "Hello!"
      && |db2.convs["c1"].messages| == 4
      && db2.convs["c1"].title == Some("Trip")
  {
  }

  /** The same turn sent with the inline history `[]` stores two entries and takes "Hi" as the title. */
  lemma TripScenarioWithHistory(gen: seq<Content> -> Outcome)
    requires forall contents :: gen(contents) == Text("Hello!")
    ensures var (db1, c) := CreateOp(Empty, "c1", Some("Trip"), Some("u1"), 1);
      var (db2, r) := ChatOp(db1, ChatRequest(Some("Hi"), Some("c1"), Some([])), gen, 2);
      && r == Ok(ChatReply("Hello!", [Message(User, "Hi", None), Message(Model, "Hello!", None)]))
      && db2.convs["c1"].messages == [Message(User, "Hi", Some(2)), Message(Model, "Hello!", Some(2))]
      && db2.convs["c1"].title == Some("Hi")
  {
    var (db1, c) := CreateOp(Empty, "c1", Some("Trip"), Some("u1"), 1);
    var req := ChatRequest(Some("Hi"), Some("c1"), Some([]));
    assert Truthy(req.message) && Truthy(req.conversationId);
    var sent := [Message(User, "Hi", None)];
    assert BaseHistory(db1, req) + [Message(User, "Hi", None)] == sent;
    assert ReplyText("Hello!") == "Hello!";
    assert DeriveTitle("Hi") == "Hi";
    assert sent + [Message(Model, "Hello!", None)] == [Message(User, "Hi", None), Message(Model, "Hello!", None)];
  }

  /**
   * The first turn as the web client sends it: the client creates a "New
   * Chat" conversation, then pushes the user entry onto its own empty
   * history before posting, so the history holds "Hi" already. The
   * generator is sent "Hi" twice and the reply repeats it; the store gets
   * two entries and takes "Hi" as the title.
   */
  lemma TripScenarioFromClient(gen: seq<Content> -> Outcome)
    requires forall contents :: gen(contents) == Text("Hello!")
    ensures var (db1, c) := CreateOp(Empty, "c1", Some(NewChat), Some("u1"), 1);
      var req := ChatRequest(Some("Hi"), Some("c1"), Some([Message(User, "Hi", None)]));
      var (db2, r) := ChatOp(db1, req, gen, 2);
      && ToContents(BaseHistory(db1, req) + [Message(User, "Hi", None)]) == [Content(User, "Hi"), Content(User, "Hi")]
      && r == Ok(ChatReply("Hello!", [Message(User, "Hi", None), Message(User, "Hi", None), Message(Model, "Hello!", None)]))
      && db2.convs["c1"].messages == [Message(User, "Hi", Some(2)), Message(Model, "Hello!", Some(2))]
      && db2.convs["c1"].title == Some("Hi")
  {
    var (db1, c) := CreateOp(Empty, "c1", Some(NewChat), Some("u1"), 1);
    var req := ChatRequest(Some("Hi"), Some("c1"), Some([Message(User, "Hi", None)]));
    assert Truthy(req.message) && Truthy(req.conversationId);
    var sent := [Message(User, "Hi", None), Message(User, "Hi", None)];
    assert BaseHistory(db1, req) + [Message(User, "Hi", None)] == sent;
    assert ReplyText("Hello!") == "Hello!";
    assert DeriveTitle("Hi") == "Hi";
    assert sent + [Message(Model, "Hello!", None)] == [Message(User, "Hi", None), Message(User, "Hi", None), Message(Model, "Hello!", None)];
  }
}

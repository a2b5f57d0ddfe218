/**
 * The in-memory branches of the chat web server's handlers, run in place on
 * the process-wide map as the server runs them. The message list of a stored
 * conversation is a mutable array object, so a working history can be the
 * very list the store holds; each handler is proved to agree with its
 * value-level counterpart in module ServerModel.
 */
module Server {
  import opened Wrappers
  import opened Generator
  import opened ServerModel
  import ServerProperties

  /** A JavaScript array of messages; several names may refer to one. */
  class MessageList {
    var items: seq<Message>

    constructor (items: seq<Message>)
      ensures this.items == items
    {
      this.items := items;
    }

    /** Appends the entries to the array, in order. */
    method Push(ms: seq<Message>)
      modifies this
      ensures items == old(items) + ms
    {
      items := items + ms;
    }
  }

  /** A stored record: its scalar fields, and its message array by reference. */
  datatype Record = Record(
    id: string,
    title: Option<string>,
    userId: string,
    createdAt: int,
    updatedAt: int,
    messages: MessageList)

  /** The record as the JSON the server sends for it. */
  function Snapshot(r: Record): Conversation
    reads r.messages
  {
    Conversation(r.id, r.title, r.userId, r.createdAt, r.updatedAt, r.messages.items)
  }

  /** The message arrays a map of records holds. */
  ghost function ListsOf(records: map<string, Record>): set<MessageList>
  {
    set k | k in records :: records[k].messages
  }

  /** No two records share a message array. */
  ghost predicate Separate(records: map<string, Record>)
  {
    forall k1, k2 :: k1 in records && k2 in records && k1 != k2 ==> records[k1].messages != records[k2].messages
  }

  /** `convs` is what the records show, key by key. */
  ghost predicate Mirrors(records: map<string, Record>, convs: map<string, Conversation>)
    reads ListsOf(records)
  {
    && (forall k :: k in records <==> k in convs)
    && (forall k :: k in records ==> convs[k] == Snapshot(records[k]))
  }

  /** Replacing a record's scalar fields keeps the records separate and mirrored. */
  lemma UpdateMirrors(records: map<string, Record>, convs: map<string, Conversation>, id: string, rec: Record)
    requires Separate(records) && Mirrors(records, convs)
    requires id in records && rec.messages == records[id].messages
    ensures ListsOf(records[id := rec]) == ListsOf(records)
    ensures Separate(records[id := rec]) && Mirrors(records[id := rec], convs[id := Snapshot(rec)])
  {
    assert ListsOf(records[id := rec]) == ListsOf(records) by {
      forall l | l in ListsOf(records) ensures l in ListsOf(records[id := rec]) {
        var k :| k in records && records[k].messages == l;
        assert records[id := rec][k].messages == l;
      }
    }
  }

  /** Adding a record with an array no other record holds keeps the records separate and mirrored. */
  lemma AddMirrors(records: map<string, Record>, convs: map<string, Conversation>, id: string, rec: Record)
    requires Separate(records) && Mirrors(records, convs)
    requires id !in records && rec.messages !in ListsOf(records)
    ensures Separate(records[id := rec]) && Mirrors(records[id := rec], convs[id := Snapshot(rec)])
  {
  }

  /** Removing a record keeps the rest separate and mirrored. */
  lemma RemoveMirrors(records: map<string, Record>, convs: map<string, Conversation>, id: string)
    requires Separate(records) && Mirrors(records, convs)
    ensures Separate(records - {id}) && Mirrors(records - {id}, convs - {id})
  {
  }

  /** `localConversations`: the process-wide `Map` from id to record, with its insertion order. */
  class LocalConversations {
    var records: map<string, Record>
    var order: seq<string>
    /** The conversations as values, kept equal to what the records show. */
    ghost var convs: map<string, Conversation>

    /** The store as a value. */
    ghost function Store(): Db
      reads this
    {
      Db(convs, order)
    }

    /** The message arrays the store holds. */
    ghost function Lists(): set<MessageList>
      reads this
    {
      ListsOf(records)
    }

    /** No two records share a message array, and `convs` is what the records show. */
    ghost predicate Valid()
      reads this, Lists()
    {
      Separate(records) && Mirrors(records, convs)
    }

    /** The store as a value, computed from the records. */
    function View(): (v: Db)
      reads this, Lists()
      requires Valid()
      ensures v == Store()
    {
      var v := Db(map k | k in records :: Snapshot(records[k]), order);
      assert v.convs == convs;
      v
    }

    constructor ()
      ensures Valid() && Store() == Empty && records == map[]
    {
      records := map[];
      order := [];
      convs := map[];
    }

    /** POST /api/conversations; `id` is the fresh identifier `uuidv4()` draws. */
    method Create(id: string, title: Option<string>, userId: Option<string>, now: int) returns (c: Conversation)
      requires Valid() && id !in records
      modifies this
      ensures Valid()
      ensures (Store(), c) == CreateOp(old(Store()), id, title, userId, now)
    {
      var list := new MessageList([]);
      var rec := Record(id, if Truthy(title) then title else Some(NewChat), userId.GetOr(Guest), now, now, list);
      c := Snapshot(rec);
      AddMirrors(records, convs, id, rec);
      records := records[id := rec];
      order := order + [id];
      convs := convs[id := c];
    }

    /** GET /api/conversations. */
    method List(userId: Option<string>) returns (r: seq<Conversation>)
      requires Valid()
      ensures r == ListOp(Store(), userId)
    {
      r := ListOp(View(), userId);
    }

    /** GET /api/conversations/:id. */
    method Get(id: string) returns (r: Response<Found>)
      requires Valid()
      ensures r == GetOp(Store(), id)
    {
      if id !in records {
        return Fail(404, NotFound);
      }
      var rec := records[id];
      r := Ok(Found(Snapshot(rec), rec.messages.items));
    }

    /** PATCH /api/conversations/:id. */
    method Patch(id: string, title: Option<string>, now: int) returns (r: Response<Conversation>)
      requires Valid()
      modifies this
      ensures Valid()
      ensures (Store(), r) == PatchOp(old(Store()), id, title, now)
    {
      if id !in records {
        return Fail(404, NotFound);
      }
      Retitle(id, title, now);
      r := Ok(Snapshot(records[id]));
    }

    /** Setting the title and `updatedAt` of the stored record `id`. */
    method Retitle(id: string, title: Option<string>, now: int)
      requires Valid() && id in records
      modifies this
      ensures Valid() && records == old(records)[id := old(records[id]).(title := title, updatedAt := now)]
      ensures Store() == Retitled(old(Store()), id, title, now)
    {
      var rec := records[id].(title := title, updatedAt := now);
      ghost var c := Snapshot(rec);
      UpdateMirrors(records, convs, id, rec);
      records, convs := records[id := rec], convs[id := c];
    }

    /** DELETE /api/conversations/:id. */
    method Delete(id: string) returns (r: Response<()>)
      requires Valid()
      modifies this
      ensures Valid()
      ensures (Store(), r) == DeleteOp(old(Store()), id)
    {
      if id !in records {
        return Fail(404, NotFound);
      }
      RemoveMirrors(records, convs, id);
      records := records - {id};
      order := Without(order, id);
      convs := convs - {id};
      r := Ok(());
    }

    /** The working history of a chat turn: the sent history or a new empty array, or else the stored array itself. */
    method ResolveHistory(req: ChatRequest) returns (history: MessageList)
      requires Valid()
      ensures history.items == BaseHistory(Store(), req)
      ensures SharesStoredList(Store(), req) ==> history == records[req.conversationId.value].messages
      ensures !SharesStoredList(Store(), req) ==> fresh(history)
    {
      history := new MessageList(req.history.GetOr([]));
      if Truthy(req.conversationId) && req.history.None? {
        var conversation := req.conversationId.value;
        if conversation in records {
          history := records[conversation].messages;
        }
      }
    }

    /**
     * A push onto the working history: when the working history is the stored
     * array of `id` the push is a write to the store, otherwise the store
     * does not see it.
     */
    method PushHistory(history: MessageList, ms: seq<Message>, ghost shared: bool, ghost id: string)
      requires Valid()
      requires shared ==> id in records && records[id].messages == history
      requires !shared ==> history !in Lists()
      modifies this, history
      ensures Valid() && records == old(records)
      ensures history.items == old(history.items) + ms
      ensures Store() == if shared then WithMessages(old(Store()), id, history.items) else old(Store())
    {
      history.Push(ms);
      if shared {
        convs := convs[id := convs[id].(messages := history.items)];
      }
    }

    /** Saving one exchange to the stored conversation `id`, when there is one. */
    method Save(id: string, message: string, reply: string, now: int)
      requires Valid()
      modifies this, Lists()
      ensures Valid()
      ensures id in old(records) ==> id in records && records[id].messages == old(records[id].messages)
      ensures Store() == Persist(old(Store()), id, message, reply, now)
    {
      if id in records {
        ghost var before := Store();
        var rec := records[id];
        var entries := [Message(User, message, Some(now)), Message(Model, reply, Some(now))];
        PushHistory(rec.messages, entries, true, id);
        var title := if |rec.messages.items| == 2 then Some(DeriveTitle(message)) else rec.title;
        ServerProperties.PersistSteps(before, id, message, reply, now);
        Retitle(id, title, now);
      }
    }

    /** POST /api/chat, with `gen` answering for the generator. */
    method Chat(req: ChatRequest, gen: seq<Content> -> Outcome, now: int) returns (r: Response<ChatReply>)
      requires Valid()
      modifies this, Lists()
      ensures Valid()
      ensures (Store(), r) == ChatOp(old(Store()), req, gen, now)
    {
      if !Truthy(req.message) {
        return Fail(400, MessageRequired);
      }
      var message := req.message.value;
      ghost var shared := SharesStoredList(Store(), req);
      ghost var id := if shared then req.conversationId.value else "";

      var history := ResolveHistory(req);
      PushHistory(history, [Message(User, message, None)], shared, id);

      var outcome := gen(ToContents(history.items));
      if outcome.Throws? {
        return Fail(500, ChatFailed);
      }
      var reply := ReplyText(outcome.text);
      r := Answer(req, history, message, reply, now);
    }

    /** The rest of POST /api/chat once the generator has answered `reply`. */
    method Answer(req: ChatRequest, history: MessageList, message: string, reply: string, now: int) returns (r: Response<ChatReply>)
      requires Valid()
      requires SharesStoredList(Store(), req) ==> history == records[req.conversationId.value].messages
      requires !SharesStoredList(Store(), req) ==> history !in Lists()
      modifies this, Lists(), history
      ensures Valid()
      ensures (Store(), r) == AnswerOp(old(Store()), req, message, old(history.items), reply, now)
    {
      ghost var shared := SharesStoredList(Store(), req);
      ghost var id := if shared then req.conversationId.value else "";
      PushHistory(history, [Message(Model, reply, None)], shared, id);
      if Truthy(req.conversationId) {
        Save(req.conversationId.value, message, reply, now);
      }
      assert shared ==> history.items == convs[id].messages;
      r := Ok(ChatReply(reply, history.items));
    }
  }
}

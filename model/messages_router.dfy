/** `routers/messages.py`: conversations between two users — listed per
    user, looked up in either order so each pair has at most one — and the
    messages in them. `now` is the time `datetime.utcnow()` reads. These
    endpoints take no authenticated caller. */
module MessagesRouter {
  import opened Wrappers
  import opened Seqs
  import opened Tables

  const CONVERSATION_NOT_FOUND := "Conversation not found"
  const MESSAGE_NOT_FOUND := "Message not found"

  /** The defaults of `limit` for conversations and for messages. */
  const CONVERSATIONS_LIMIT := 10
  const MESSAGES_LIMIT := 50

  predicate Involves(c: ConversationRow, userId: int) {
    c.user1Id == userId || c.user2Id == userId
  }

  function InvolvesUser(userId: int): ConversationRow -> bool {
    (c: ConversationRow) => Involves(c, userId)
  }

  /** `list_conversations`: the conversations the user takes part in, on
      either side, from the `skip`-th on, at most `limit`, in the model's row order. */
  function ListConversations(conversations: seq<ConversationRow>, userId: int, skip: nat, limit: nat)
    : (r: seq<ConversationRow>)
    ensures IsWindow(r, Filter(conversations, InvolvesUser(userId)), skip, limit)
    ensures forall i :: 0 <= i < |r| ==> Involves(r[i], userId) && r[i] in conversations
  {
    Paginate(Filter(conversations, InvolvesUser(userId)), skip, limit)
  }

  /** A first page wide enough lists every conversation of the user. */
  lemma ListConversationsComplete(conversations: seq<ConversationRow>, userId: int, limit: nat)
    requires limit >= |conversations|
    ensures forall i :: 0 <= i < |conversations| && Involves(conversations[i], userId) ==>
              conversations[i] in ListConversations(conversations, userId, 0, limit)
  {
    var all := Filter(conversations, InvolvesUser(userId));
    assert Paginate(all, 0, limit) == all;
  }

  function IsConversation(id: int): ConversationRow -> bool {
    (c: ConversationRow) => c.id == id
  }

  function InConversation(id: int): MessageRow -> bool {
    (m: MessageRow) => m.conversationId == id
  }

  /** The conversation, or 404. */
  function FindConversation(conversations: seq<ConversationRow>, conversationId: int)
    : (r: Result<ConversationRow, HttpError>)
    ensures r.Ok? <==> exists i :: 0 <= i < |conversations| && conversations[i].id == conversationId
    ensures r.Ok? ==> r.value.id == conversationId && r.value in conversations
    ensures r.Err? ==> r.error == HttpError(NOT_FOUND, CONVERSATION_NOT_FOUND)
  {
    match Find(conversations, IsConversation(conversationId))
    case None =>
      assert forall i :: 0 <= i < |conversations| ==> !IsConversation(conversationId)(conversations[i]);
      Err(HttpError(NOT_FOUND, CONVERSATION_NOT_FOUND))
    case Some(c) => Ok(c)
  }

  /** A conversation with its messages (`ConversationDetail`). */
  datatype ConversationDetail = ConversationDetail(conversation: ConversationRow, messages: seq<MessageRow>)

  /** `get_conversation`: 404, or the conversation with every message whose
      `conversation_id` is its id, in the model's row order. */
  function GetConversation(t: Tables, conversationId: int): (r: Result<ConversationDetail, HttpError>)
    ensures r.Ok? <==> FindConversation(t.conversations, conversationId).Ok?
    ensures r.Err? ==> r.error == HttpError(NOT_FOUND, CONVERSATION_NOT_FOUND)
    ensures r.Ok? ==> r.value.conversation.id == conversationId
                      && (forall i :: 0 <= i < |r.value.messages| ==> r.value.messages[i].conversationId == conversationId)
                      && (forall i :: 0 <= i < |t.messages| && t.messages[i].conversationId == conversationId ==>
                            t.messages[i] in r.value.messages)
  {
    var c :- FindConversation(t.conversations, conversationId);
    Ok(ConversationDetail(c, Filter(t.messages, InConversation(conversationId))))
  }

  /** `get_conversation_messages`: 404, or that conversation's messages
      from the `skip`-th on, at most `limit`, in the model's row order. */
  function ConversationMessages(t: Tables, conversationId: int, skip: nat, limit: nat)
    : (r: Result<seq<MessageRow>, HttpError>)
    ensures r.Ok? <==> FindConversation(t.conversations, conversationId).Ok?
    ensures r.Err? ==> r.error == HttpError(NOT_FOUND, CONVERSATION_NOT_FOUND)
    ensures r.Ok? ==> IsWindow(r.value, Filter(t.messages, InConversation(conversationId)), skip, limit)
    ensures r.Ok? ==> forall i :: 0 <= i < |r.value| ==>
                        r.value[i].conversationId == conversationId && r.value[i] in t.messages
  {
    var _ :- FindConversation(t.conversations, conversationId);
    Ok(Paginate(Filter(t.messages, InConversation(conversationId)), skip, limit))
  }

  /** A conversation between `a` and `b`, in either order. */
  function Between(a: int, b: int): ConversationRow -> bool {
    (c: ConversationRow) => (c.user1Id == a && c.user2Id == b) || (c.user1Id == b && c.user2Id == a)
  }

  /** The lookup `create_conversation` makes first. */
  function ExistingConversation(conversations: seq<ConversationRow>, a: int, b: int): (r: Option<ConversationRow>)
    ensures r.Some? <==> exists i :: 0 <= i < |conversations| && Between(a, b)(conversations[i])
    ensures r.Some? ==> Between(a, b)(r.value) && r.value in conversations
  {
    var r := Find(conversations, Between(a, b));
    if r.None? then
      assert forall i :: 0 <= i < |conversations| ==> !Between(a, b)(conversations[i]);
      r
    else r
  }

  /** The lookup does not depend on which user is named first. */
  lemma ExistingConversationSymmetric(conversations: seq<ConversationRow>, a: int, b: int)
    ensures ExistingConversation(conversations, a, b) == ExistingConversation(conversations, b, a)
  {
    FindCongruent(conversations, Between(a, b), Between(b, a));
  }

  /** `create_conversation`: the existing conversation of the pair, in
      either order, with no change; otherwise one new conversation with the
      ids as given. */
  method CreateConversation(db: Database, user1Id: int, user2Id: int) returns (c: ConversationRow)
    modifies db
    ensures ExistingConversation(old(db.tables.conversations), user1Id, user2Id).Some? ==>
              c == ExistingConversation(old(db.tables.conversations), user1Id, user2Id).value && db.tables == old(db.tables)
    ensures ExistingConversation(old(db.tables.conversations), user1Id, user2Id).None? ==>
              c == ConversationRow(NextId(old(db.tables.conversations), ConversationId), user1Id, user2Id)
              && db.tables == old(db.tables).(conversations := old(db.tables.conversations) + [c])
  {
    var existing := ExistingConversation(db.tables.conversations, user1Id, user2Id);
    if existing.Some? {
      return existing.value;
    }
    c := ConversationRow(NextId(db.tables.conversations, ConversationId), user1Id, user2Id);
    db.tables := db.tables.(conversations := db.tables.conversations + [c]);
  }

  /** Creating is idempotent and symmetric: once a conversation for the pair
      is stored, asking again in either order finds that same one. */
  lemma CreateConversationIdempotent(conversations: seq<ConversationRow>, a: int, b: int)
    requires ExistingConversation(conversations, a, b).None?
    ensures var c := ConversationRow(NextId(conversations, ConversationId), a, b);
            ExistingConversation(conversations + [c], a, b) == Some(c)
            && ExistingConversation(conversations + [c], b, a) == Some(c)
  {
    var c := ConversationRow(NextId(conversations, ConversationId), a, b);
    FindAppend(conversations, c, Between(a, b));
    ExistingConversationSymmetric(conversations + [c], a, b);
  }

  /** The body of `POST /messages/`. */
  datatype MessageBody = MessageBody(conversationId: int, senderId: int, content: string)

  /** `send_message`: 404 and no change for an unknown conversation;
      otherwise a message with exactly the given conversation, sender and
      content, stamped `now`. */
  method SendMessage(db: Database, body: MessageBody, now: int) returns (r: Result<MessageRow, HttpError>)
    modifies db
    ensures FindConversation(old(db.tables.conversations), body.conversationId).Err? ==>
              r == Err(HttpError(NOT_FOUND, CONVERSATION_NOT_FOUND)) && db.tables == old(db.tables)
    ensures FindConversation(old(db.tables.conversations), body.conversationId).Ok? ==>
              r == Ok(MessageRow(NextId(old(db.tables.messages), MessageId), body.conversationId, body.senderId,
                                 body.content, now))
              && db.tables == old(db.tables).(messages := old(db.tables.messages) + [r.value])
  {
    var found := FindConversation(db.tables.conversations, body.conversationId);
    if found.Err? {
      return Err(found.error);
    }
    var m := MessageRow(NextId(db.tables.messages, MessageId), body.conversationId, body.senderId, body.content, now);
    db.tables := db.tables.(messages := db.tables.messages + [m]);
    r := Ok(m);
  }

  /** A sent message is among its conversation's messages afterwards. */
  lemma SentMessageListed(t: Tables, body: MessageBody, now: int)
    requires FindConversation(t.conversations, body.conversationId).Ok?
    ensures var m := MessageRow(NextId(t.messages, MessageId), body.conversationId, body.senderId, body.content, now);
            var after := t.(messages := t.messages + [m]);
            GetConversation(after, body.conversationId).Ok?
            && m in GetConversation(after, body.conversationId).value.messages
  {
    var m := MessageRow(NextId(t.messages, MessageId), body.conversationId, body.senderId, body.content, now);
    assert (t.messages + [m])[|t.messages|] == m;
  }

  function IsMessage(id: int): MessageRow -> bool {
    (m: MessageRow) => m.id == id
  }

  /** `get_message`: the message, or 404. */
  function GetMessage(messages: seq<MessageRow>, messageId: int): (r: Result<MessageRow, HttpError>)
    ensures r.Ok? <==> exists i :: 0 <= i < |messages| && messages[i].id == messageId
    ensures r.Ok? ==> r.value.id == messageId && r.value in messages
    ensures r.Err? ==> r.error == HttpError(NOT_FOUND, MESSAGE_NOT_FOUND)
  {
    match Find(messages, IsMessage(messageId))
    case None =>
      assert forall i :: 0 <= i < |messages| ==> !IsMessage(messageId)(messages[i]);
      Err(HttpError(NOT_FOUND, MESSAGE_NOT_FOUND))
    case Some(m) => Ok(m)
  }

  /** `delete_message`: 404 and no change for an unknown id; otherwise the
      message found is deleted. */
  method DeleteMessage(db: Database, messageId: int) returns (r: Result<(), HttpError>)
    modifies db
    ensures GetMessage(old(db.tables.messages), messageId).Err? ==>
              r == Err(HttpError(NOT_FOUND, MESSAGE_NOT_FOUND)) && db.tables == old(db.tables)
    ensures GetMessage(old(db.tables.messages), messageId).Ok? ==>
              r.Ok? && db.tables == old(db.tables).(messages := RemoveFirst(old(db.tables.messages), IsMessage(messageId)))
  {
    var found := GetMessage(db.tables.messages, messageId);
    if found.Err? {
      return Err(found.error);
    }
    db.tables := db.tables.(messages := RemoveFirst(db.tables.messages, IsMessage(messageId)));
    r := Ok(());
  }

  /** Under distinct ids, a deleted message reads as 404 afterwards. */
  lemma DeletedMessageNotFound(messages: seq<MessageRow>, messageId: int)
    requires UniqueIds(messages, MessageId)
    ensures GetMessage(RemoveFirst(messages, IsMessage(messageId)), messageId) == Err(HttpError(NOT_FOUND, MESSAGE_NOT_FOUND))
  {
    forall i, j | 0 <= i < j < |messages| && IsMessage(messageId)(messages[i]) ensures !IsMessage(messageId)(messages[j]) {
      assert MessageId(messages[i]) != MessageId(messages[j]);
    }
    RemoveFirstLeavesNone(messages, IsMessage(messageId));
  }
}

/**
 * The conversation and message store of src/db.rs, over in-memory tables.
 * The SQLite pool becomes a `Store` object whose two tables are sequences
 * in insertion order; each query is a method on it. Whether the database
 * reports an error is an input to each call (`fault`): a failing call
 * returns `DatabaseError` and leaves the tables as they were.
 */
module Db {
  import opened Wrappers
  import opened Models
  import opened Errors

  /** `WHERE conversation_id = ?` over the message table, in table order. */
  function MessagesOf(messages: seq<Message>, conversationId: Uuid): seq<Message>
    decreases |messages|
  {
    if messages == [] then []
    else (if messages[0].conversationId == conversationId then [messages[0]] else []) + MessagesOf(messages[1..], conversationId)
  }

  /** The lookup selects exactly the stored messages of that conversation,
      and never returns more rows than are stored. */
  lemma {:induction false} MessagesOfSelects(messages: seq<Message>, conversationId: Uuid)
    ensures |MessagesOf(messages, conversationId)| <= |messages|
    ensures forall m :: m in MessagesOf(messages, conversationId) <==> m in messages && m.conversationId == conversationId
    decreases |messages|
  {
    if messages != [] {
      MessagesOfSelects(messages[1..], conversationId);
      assert forall m :: m in messages <==> m == messages[0] || m in messages[1..];
    }
  }

  /** `WHERE id = ?` over the conversation table with `fetch_optional`: the
      first row with that id, if there is one. */
  function FindConversation(conversations: seq<Conversation>, id: Uuid): Option<Conversation>
    decreases |conversations|
  {
    if conversations == [] then None
    else if conversations[0].id == id then Some(conversations[0])
    else FindConversation(conversations[1..], id)
  }

  /** The lookup finds a row exactly when one with that id is stored, and
      what it finds is such a row. */
  lemma {:induction false} FindConversationFinds(conversations: seq<Conversation>, id: Uuid)
    ensures FindConversation(conversations, id).Some? <==> exists c :: c in conversations && c.id == id
    ensures FindConversation(conversations, id).Some? ==>
              FindConversation(conversations, id).value in conversations && FindConversation(conversations, id).value.id == id
    decreases |conversations|
  {
    if conversations != [] && conversations[0].id != id {
      FindConversationFinds(conversations[1..], id);
      assert forall c :: c in conversations <==> c == conversations[0] || c in conversations[1..];
    }
  }

  /** Appending a message whose conversation is another one does not change
      what a lookup by id returns; appending one of this conversation adds it
      at the end. */
  lemma {:induction false} MessagesOfAppend(messages: seq<Message>, m: Message, conversationId: Uuid)
    ensures MessagesOf(messages + [m], conversationId)
         == MessagesOf(messages, conversationId) + (if m.conversationId == conversationId then [m] else [])
    decreases |messages|
  {
    if messages == [] {
      assert messages + [m] == [m];
      assert [m][1..] == [];
    } else {
      assert (messages + [m])[1..] == messages[1..] + [m];
      MessagesOfAppend(messages[1..], m, conversationId);
    }
  }

  class Store {
    var conversations: seq<Conversation>
    var messages: seq<Message>

    /** A freshly migrated, empty database. */
    constructor ()
      ensures conversations == [] && messages == []
    {
      conversations := [];
      messages := [];
    }

    /** `get_conversation_messages`. */
    method GetConversationMessages(conversationId: Uuid, fault: Option<SqlxError>) returns (r: Result<seq<Message>, Error>)
      ensures fault.Some? ==> r == Err(DatabaseError(fault.value))
      ensures fault.None? ==> r == Ok(MessagesOf(messages, conversationId))
    {
      if fault.Some? {
        return Err(DatabaseError(fault.value));
      }
      r := Ok(MessagesOf(messages, conversationId));
    }

    /** `create_message`: one row inserted, and `RETURNING *` hands back the
        row as stored. */
    method CreateMessage(message: Message, fault: Option<SqlxError>) returns (r: Result<Message, Error>)
      modifies this
      ensures fault.Some? ==> r == Err(DatabaseError(fault.value)) && messages == old(messages)
      ensures fault.None? ==> r == Ok(message) && messages == old(messages) + [message]
      ensures conversations == old(conversations)
    {
      if fault.Some? {
        return Err(DatabaseError(fault.value));
      }
      messages := messages + [message];
      r := Ok(message);
    }

    /** `get_conversation`. */
    method GetConversation(id: Uuid, fault: Option<SqlxError>) returns (r: Result<Option<Conversation>, Error>)
      ensures fault.Some? ==> r == Err(DatabaseError(fault.value))
      ensures fault.None? ==> r == Ok(FindConversation(conversations, id))
    {
      if fault.Some? {
        return Err(DatabaseError(fault.value));
      }
      r := Ok(FindConversation(conversations, id));
    }

    /** `get_conversations`: every row, in table order. */
    method GetConversations(fault: Option<SqlxError>) returns (r: Result<seq<Conversation>, Error>)
      ensures fault.Some? ==> r == Err(DatabaseError(fault.value))
      ensures fault.None? ==> r == Ok(conversations)
    {
      if fault.Some? {
        return Err(DatabaseError(fault.value));
      }
      r := Ok(conversations);
    }

    /** `create_conversation`. */
    method CreateConversation(conversation: Conversation, fault: Option<SqlxError>) returns (r: Result<Conversation, Error>)
      modifies this
      ensures fault.Some? ==> r == Err(DatabaseError(fault.value)) && conversations == old(conversations)
      ensures fault.None? ==> r == Ok(conversation) && conversations == old(conversations) + [conversation]
      ensures messages == old(messages)
    {
      if fault.Some? {
        return Err(DatabaseError(fault.value));
      }
      conversations := conversations + [conversation];
      r := Ok(conversation);
    }

    /** `create_conversation_if_not_exists`: look the id up first (`?` on a
        failed lookup); return the stored row if there is one, insert
        otherwise. */
    method CreateConversationIfNotExists(conversation: Conversation, lookupFault: Option<SqlxError>, insertFault: Option<SqlxError>)
      returns (r: Result<Conversation, Error>)
      modifies this
      ensures lookupFault.Some? ==> r == Err(DatabaseError(lookupFault.value)) && conversations == old(conversations)
      ensures lookupFault.None? && FindConversation(old(conversations), conversation.id).Some? ==>
                r == Ok(FindConversation(old(conversations), conversation.id).value) && conversations == old(conversations)
      ensures lookupFault.None? && FindConversation(old(conversations), conversation.id).None? ==>
                if insertFault.Some? then r == Err(DatabaseError(insertFault.value)) && conversations == old(conversations)
                else r == Ok(conversation) && conversations == old(conversations) + [conversation]
      ensures messages == old(messages)
    {
      var found := GetConversation(conversation.id, lookupFault);
      if found.Err? {
        return Err(found.error);
      }
      if found.value.Some? {
        r := Ok(found.value.value);
      } else {
        r := CreateConversation(conversation, insertFault);
      }
    }
  }

  /** The behaviour the store's tests fix, run against a fresh store: one
      insert gives one row with the given name, which `get_conversation`
      returns; a second `create_conversation_if_not_exists` for the same
      conversation adds nothing and returns the stored row; one for a new id
      adds a row; a created message is returned as stored; an unknown
      conversation has no messages. */
  method StoreScenario(name: string, id: Uuid, otherId: Uuid, unknownId: Uuid, at: Timestamp, messageId: Uuid, content: string)
    returns (created: Conversation, found: Option<Conversation>, again: Conversation, stored: Message,
             rowsAfterAgain: nat, rowsAfterNew: nat, unknownMessages: seq<Message>)
    requires id != otherId && unknownId != id && unknownId != otherId
    ensures created.name == name && created.id == id
    ensures found == Some(created)
    ensures again == created && rowsAfterAgain == 1
    ensures stored.role == "user" && stored.content == content && stored.conversationId == id
    ensures rowsAfterNew == 2
    ensures unknownMessages == []
  {
    var store := new Store();
    var c := store.CreateConversation(NewConversation(name, id, at), None);
    created := c.value;
    var g := store.GetConversation(id, None);
    found := g.value;
    var a := store.CreateConversationIfNotExists(NewConversation(name, id, at), None, None);
    again := a.value;
    rowsAfterAgain := |store.conversations|;
    var m := store.CreateMessage(UserMessage(content, id, messageId, at), None);
    stored := m.value;
    var n := store.CreateConversationIfNotExists(NewConversation(name, otherId, at), None, None);
    rowsAfterNew := |store.conversations|;
    var u := store.GetConversationMessages(unknownId, None);
    unknownMessages := u.value;
  }
}

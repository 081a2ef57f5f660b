/**
 * The chat table operations: `createChat`, `deleteChat` and `listChats` over
 * an in-memory database holding the `chats` and `messages` tables. A document
 * id is a number; ids are handed out in creation order, so a larger id is a
 * newer document.
 */
module Chats {
  import opened JsValues

  /** A row of the `chats` table. `createdAt` is the clock reading passed in. */
  datatype Chat = Chat(title: string, userId: string, createdAt: int)

  /** A row of the `messages` table (only `chatId` matters to these operations). */
  datatype StoredMessage = StoredMessage(chatId: nat, content: string, role: string)

  /** What `ctx.auth.getUserIdentity()` returns when someone is signed in. */
  datatype Identity = Identity(subject: string)

  /** A chat document as the query returns it: its id and its fields. */
  datatype ChatDoc = ChatDoc(id: nat, chat: Chat)

  /** A handler either returns a value or throws an error with a message. */
  datatype Outcome<T> = Ok(value: T) | Failed(error: string)

  const CreateUnauthenticated: string := "Called storeChat without authentication present"
  const DeleteUnauthenticated: string := "Called deleteChat without authentication present"
  const DeleteInvalidId: string := "Called deleteChat with invalid id"
  const ListUnauthenticated: string := "Called listChats without authentication present"

  /** The ids of the messages of one chat (the `by_chat` index lookup). */
  function MessageIdsOf(messages: map<nat, StoredMessage>, chatId: nat): set<nat> {
    set k | k in messages && messages[k].chatId == chatId
  }

  /** The messages table once the messages of `chatId` are gone. */
  function WithoutChat(messages: map<nat, StoredMessage>, chatId: nat): map<nat, StoredMessage> {
    messages - MessageIdsOf(messages, chatId)
  }

  /**
   * After the cascade no message of the chat is left, and every message of
   * another chat is still there, unchanged.
   */
  lemma WithoutChatSpec(messages: map<nat, StoredMessage>, chatId: nat)
    ensures forall k :: k in WithoutChat(messages, chatId) <==> k in messages && messages[k].chatId != chatId
    ensures forall k :: k in WithoutChat(messages, chatId) ==> WithoutChat(messages, chatId)[k] == messages[k]
  {
  }

  /** Removing a chat's messages twice is removing them once. */
  lemma WithoutChatIdempotent(messages: map<nat, StoredMessage>, chatId: nat)
    ensures WithoutChat(WithoutChat(messages, chatId), chatId) == WithoutChat(messages, chatId)
  {
    WithoutChatSpec(messages, chatId);
    WithoutChatSpec(WithoutChat(messages, chatId), chatId);
  }

  /**
   * The chats of `user` whose ids are below `k`, largest id first: the
   * `by_user` index read in descending order.
   */
  function OwnedBelow(chats: map<nat, Chat>, user: string, k: nat): (r: seq<ChatDoc>)
    ensures forall i :: 0 <= i < |r| ==>
      r[i].id < k && r[i].id in chats && chats[r[i].id] == r[i].chat && r[i].chat.userId == user
    ensures forall i, j :: 0 <= i < j < |r| ==> r[i].id > r[j].id
    ensures forall id :: id < k && id in chats && chats[id].userId == user ==> ChatDoc(id, chats[id]) in r
    decreases k
  {
    if k == 0 then []
    else
      var rest := OwnedBelow(chats, user, k - 1);
      if k - 1 in chats && chats[k - 1].userId == user then
        [ChatDoc(k - 1, chats[k - 1])] + rest
      else rest
  }

  /** A chat stored at or above `k` does not change what is listed below `k`. */
  lemma {:induction false} OwnedBelowIgnoresAbove(chats: map<nat, Chat>, user: string, k: nat, id: nat, c: Chat)
    requires k <= id
    ensures OwnedBelow(chats[id := c], user, k) == OwnedBelow(chats, user, k)
    decreases k
  {
    if k > 0 {
      OwnedBelowIgnoresAbove(chats, user, k - 1, id, c);
    }
  }

  /**
   * A chat created with the next id heads its owner's list, followed by the
   * owner's earlier chats; other users' lists do not change.
   */
  lemma NewChatListedFirst(chats: map<nat, Chat>, user: string, n: nat, c: Chat)
    ensures c.userId == user ==>
      OwnedBelow(chats[n := c], user, n + 1) == [ChatDoc(n, c)] + OwnedBelow(chats, user, n)
    ensures c.userId != user ==> OwnedBelow(chats[n := c], user, n + 1) == OwnedBelow(chats, user, n)
  {
    OwnedBelowIgnoresAbove(chats, user, n, n, c);
  }

  /** The database of one deployment. */
  class ChatDb {
    var chats: map<nat, Chat>
    var messages: map<nat, StoredMessage>
    var nextId: nat

    /** Every chat id was handed out already. */
    ghost predicate Valid()
      reads this
    {
      forall id :: id in chats ==> id < nextId
    }

    constructor ()
      ensures Valid() && chats == map[] && messages == map[]
    {
      chats := map[];
      messages := map[];
      nextId := 0;
    }

    /**
     * `createChat`: without an identity it throws and inserts nothing;
     * otherwise it inserts one chat owned by the caller, with a new id newer
     * than every existing chat, and returns that id.
     */
    method CreateChat(identity: Option<Identity>, title: string, now: int) returns (r: Outcome<nat>)
      requires Valid()
      modifies this
      ensures Valid()
      ensures identity.None? ==> r == Failed(CreateUnauthenticated) && chats == old(chats)
      ensures identity.Some? ==>
        && r.Ok?
        && r.value !in old(chats)
        && (forall id :: id in old(chats) ==> id < r.value)
        && chats == old(chats)[r.value := Chat(title, identity.value.subject, now)]
        && ListChats(identity) == Ok([ChatDoc(r.value, Chat(title, identity.value.subject, now))] + old(ListChats(identity)).value)
      ensures messages == old(messages)
    {
      if identity.None? {
        return Failed(CreateUnauthenticated);
      }
      var id := nextId;
      chats := chats[id := Chat(title, identity.value.subject, now)];
      nextId := nextId + 1;
      NewChatListedFirst(old(chats), identity.value.subject, id, chats[id]);
      r := Ok(id);
    }

    /**
     * `deleteChat`: without an identity, for a missing chat or for a chat of
     * another user it throws and changes nothing; otherwise it deletes every
     * message of the chat, then the chat, and nothing else.
     */
    method DeleteChat(identity: Option<Identity>, id: nat) returns (r: Outcome<()>)
      requires Valid()
      modifies this
      ensures Valid()
      ensures identity.None? ==> r == Failed(DeleteUnauthenticated)
      ensures identity.Some? && (id !in old(chats) || old(chats)[id].userId != identity.value.subject) ==>
        r == Failed(DeleteInvalidId)
      ensures r.Failed? ==> chats == old(chats) && messages == old(messages)
      ensures r.Ok? <==> identity.Some? && id in old(chats) && old(chats)[id].userId == identity.value.subject
      ensures r.Ok? ==> chats == old(chats) - {id} && messages == WithoutChat(old(messages), id)
    {
      if identity.None? {
        return Failed(DeleteUnauthenticated);
      }
      if id !in chats || chats[id].userId != identity.value.subject {
        return Failed(DeleteInvalidId);
      }
      var pending := MessageIdsOf(messages, id);
      while pending != {}
        invariant pending <= MessageIdsOf(old(messages), id)
        invariant messages == old(messages) - (MessageIdsOf(old(messages), id) - pending)
        invariant chats == old(chats) && nextId == old(nextId)
        decreases pending
      {
        var k :| k in pending;
        messages := messages - {k};
        pending := pending - {k};
      }
      chats := chats - {id};
      r := Ok(());
    }

    /**
     * `listChats`: without an identity it throws; otherwise it returns exactly
     * the caller's chats, each with its stored fields, newest first.
     */
    function ListChats(identity: Option<Identity>): (r: Outcome<seq<ChatDoc>>)
      requires Valid()
      reads this
      ensures identity.None? ==> r == Failed(ListUnauthenticated)
      ensures identity.Some? ==> r.Ok?
      ensures r.Ok? ==> forall i :: 0 <= i < |r.value| ==>
        && r.value[i].id in chats
        && chats[r.value[i].id] == r.value[i].chat
        && r.value[i].chat.userId == identity.value.subject
      ensures r.Ok? ==> forall i, j :: 0 <= i < j < |r.value| ==> r.value[i].id > r.value[j].id
      ensures r.Ok? ==> forall id :: id in chats && chats[id].userId == identity.value.subject ==>
        ChatDoc(id, chats[id]) in r.value
    {
      if identity.None? then Failed(ListUnauthenticated)
      else Ok(OwnedBelow(chats, identity.value.subject, nextId))
    }
  }
}

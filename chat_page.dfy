/** The chat page: pushed messages merged into the open conversation without
    duplicates, the outgoing payload, and the conversation reload. */
module ChatPage {
  import opened Common
  import SocketChannel

  /** A conversation partner: a user, or a group when `isGroup`. */
  datatype ChatUser = ChatUser(id: string, name: string, role: string, isGroup: bool)

  type Message = SocketChannel.Message

  /** `isForCurrentChat`: a group message of this group, or a direct message
      from or to this user. */
  predicate ForChat(chat: ChatUser, m: Message) {
    if chat.isGroup then m.groupId == Some(chat.id)
    else m.senderId == chat.id || m.receiverId == Some(chat.id)
  }

  /** `prev.some(m => m.id === id)`. */
  function HasId(ms: seq<Message>, id: string): (b: bool)
    ensures b <==> exists i :: 0 <= i < |ms| && ms[i].id == id
  {
    if ms == [] then false else ms[0].id == id || HasId(ms[1..], id)
  }

  /** The list after merging `m`: unchanged when its id is present, else `m`
      appended. */
  function Merged(ms: seq<Message>, m: Message): (r: seq<Message>)
    ensures HasId(ms, m.id) ==> r == ms
    ensures !HasId(ms, m.id) ==> r == ms + [m]
  {
    if HasId(ms, m.id) then ms else ms + [m]
  }

  predicate UniqueIds(ms: seq<Message>) {
    forall i, j :: 0 <= i < j < |ms| ==> ms[i].id != ms[j].id
  }

  /** Merging the same message twice is merging it once. */
  lemma MergeIdempotent(ms: seq<Message>, m: Message)
    ensures Merged(Merged(ms, m), m) == Merged(ms, m)
  {
    if !HasId(ms, m.id) {
      var r := ms + [m];
      assert r[|ms|].id == m.id;
    }
  }

  /** Merging keeps ids unique and always leaves `m`'s id present. */
  lemma MergeKeepsIdsUnique(ms: seq<Message>, m: Message)
    requires UniqueIds(ms)
    ensures UniqueIds(Merged(ms, m))
    ensures HasId(Merged(ms, m), m.id)
  {
    if !HasId(ms, m.id) {
      assert (ms + [m])[|ms|] == m;
    }
  }

  /** The payload handed to `sendMessage`: exactly one of `groupId` (for a
      group) and `receiverId` (otherwise), both the chat's id. */
  function Payload(chat: ChatUser, content: string): (p: SocketChannel.Outgoing)
    ensures p.SendMessage? && p.content == content
    ensures p.groupId.Some? != p.receiverId.Some?
    ensures chat.isGroup ==> p.groupId == Some(chat.id)
    ensures !chat.isGroup ==> p.receiverId == Some(chat.id)
  {
    if chat.isGroup then SocketChannel.SendMessage(None, Some(chat.id), content)
    else SocketChannel.SendMessage(Some(chat.id), None, content)
  }

  /** The endpoint a conversation is loaded from. */
  function MessagesUrl(chat: ChatUser): string {
    (if chat.isGroup then "/messages/group/" else "/messages/direct/") + chat.id
  }

  class Conversation {
    var selected: Option<ChatUser>
    var messages: seq<Message>
    var draft: string
    /** The payloads handed to the socket context's `sendMessage`. */
    var outbox: seq<SocketChannel.Outgoing>

    constructor()
      ensures selected.None? && messages == [] && draft == "" && outbox == []
    {
      selected := None;
      messages := [];
      draft := "";
      outbox := [];
    }

    /** `handleNewMessage`: ignored without an open chat or when the message
        is for another chat; otherwise merged. */
    method HandleNewMessage(m: Message)
      modifies this
      ensures selected.None? || !ForChat(selected.value, m) ==> messages == old(messages)
      ensures selected.Some? && ForChat(selected.value, m) ==> messages == Merged(old(messages), m)
      ensures selected == old(selected) && draft == old(draft) && outbox == old(outbox)
    {
      if selected.Some? {
        if ForChat(selected.value, m) {
          messages := Merged(messages, m);
        }
      }
    }

    /** `handleSendMessage`: nothing for blank text or without an open chat;
        otherwise the payload goes out, the input is cleared and nothing is
        appended locally. */
    method SendDraft()
      modifies this
      ensures IsBlank(old(draft)) || selected.None? ==> draft == old(draft) && outbox == old(outbox)
      ensures !IsBlank(old(draft)) && selected.Some? ==>
                outbox == old(outbox) + [Payload(selected.value, old(draft))] && draft == ""
      ensures messages == old(messages) && selected == old(selected)
    {
      if IsBlank(draft) || selected.None? {
        return;
      }
      outbox := outbox + [Payload(selected.value, draft)];
      draft := "";
    }

    /** Clicking a chat in the list (`setSelectedChat`) and the effect that
        then loads its messages. Choosing the chat that is already open
        changes no state, so the effect does not run again. */
    method Select(u: ChatUser, fetched: Option<seq<Message>>) returns (url: Option<string>)
      modifies this
      ensures selected == Some(u)
      ensures old(selected) == Some(u) ==> url.None? && messages == old(messages)
      ensures old(selected) != Some(u) ==> url == Some(MessagesUrl(u)) && messages == fetched.GetOr([])
      ensures draft == old(draft) && outbox == old(outbox)
    {
      if selected == Some(u) {
        url := None;
        return;
      }
      selected := Some(u);
      url := FetchMessages(fetched);
    }

    /** `fetchMessages`, with `fetched` the list read from the reply (`None`
        when the request fails or the reply carries none): the list is
        replaced wholesale. Returns the endpoint asked, if any. */
    method FetchMessages(fetched: Option<seq<Message>>) returns (url: Option<string>)
      modifies this
      ensures selected.None? ==> url.None? && messages == old(messages)
      ensures selected.Some? ==> url == Some(MessagesUrl(selected.value)) && messages == fetched.GetOr([])
      ensures selected == old(selected) && draft == old(draft) && outbox == old(outbox)
    {
      if selected.None? {
        url := None;
        return;
      }
      url := Some(MessagesUrl(selected.value));
      messages := fetched.GetOr([]);
    }
  }
}

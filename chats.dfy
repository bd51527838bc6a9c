/** The chats page: the conversation with the selected user, loaded from and
    sent to the remote `Message` entity. The page neither sorts, nor
    deduplicates, nor marks messages read: it shows whatever list the fetch
    returned. */
module Chats {
  import opened Wrappers
  import opened Text
  import opened Seqs
  import opened Users

  /** A record of the remote `Message` entity. `id` is assigned by the
      store; `isRead` is stored but never changed by the client. */
  datatype Message = Message(
    id: nat,
    senderId: UserId,
    recipientId: UserId,
    content: string,
    messageType: string,
    isRead: bool)

  /** The fields the client sends to `Message.create`. */
  datatype MessageDraft = MessageDraft(content: string, senderId: UserId, recipientId: UserId, messageType: string)

  /** The record the store keeps for a draft, under the id it assigns. */
  function Stored(d: MessageDraft, id: nat): (m: Message) {
    Message(id, d.senderId, d.recipientId, d.content, d.messageType, false)
  }

  /** The `$or` filter of `loadMessages`: sent from `a` to `b` or from `b`
      to `a`. */
  function InConversation(m: Message, a: UserId, b: UserId): (r: bool)
    ensures r <==> {m.senderId, m.recipientId} == {a, b}
  {
    (m.senderId == a && m.recipientId == b) || (m.senderId == b && m.recipientId == a)
  }

  /** The fetch result for the pair, in the store's order. */
  function Conversation(records: seq<Message>, a: UserId, b: UserId): (r: seq<Message>)
    ensures forall m :: m in r <==> m in records && InConversation(m, a, b)
    ensures IsSubsequence(r, records)
  {
    FilterIsSubsequence(records, m => InConversation(m, a, b));
    Filter(records, m => InConversation(m, a, b))
  }

  /** The pair filter does not depend on which side is the current user. */
  lemma ConversationSymmetric(records: seq<Message>, a: UserId, b: UserId)
    ensures Conversation(records, a, b) == Conversation(records, b, a)
  {
    FilterAgree(records, m => InConversation(m, a, b), m => InConversation(m, b, a));
  }

  /** Every loaded message is between the two users, so no message
      involving a third user ever appears. */
  lemma ConversationIsolated(records: seq<Message>, a: UserId, b: UserId, c: UserId, m: Message)
    requires c != a && c != b
    requires m in Conversation(records, a, b)
    ensures m.senderId != c && m.recipientId != c
    ensures {m.senderId, m.recipientId} <= {a, b}
  {
  }

  /** The send guard: `newMessage.trim()` is non-empty, a chat is selected
      and there is a current user. */
  function SendAllowed(input: string, selected: Option<User>, self: Option<User>): (r: bool)
    ensures r ==> input != [] && selected.Some? && self.Some?
  {
    Trim(input) != "" && selected.Some? && self.Some?
  }

  /** The guard passes exactly when the input holds a character that is not
      white space, a chat is selected and there is a current user. */
  lemma SendAllowedSpec(input: string, selected: Option<User>, self: Option<User>)
    ensures SendAllowed(input, selected, self) <==> !IsBlank(input) && selected.Some? && self.Some?
  {
    TrimEmptyIffBlank(input);
  }

  /** An input made only of white space (the empty input included) is
      never sent. */
  lemma BlankInputRejected(input: string, selected: Option<User>, self: Option<User>)
    requires forall i :: 0 <= i < |input| ==> IsWhiteSpace(input[i])
    ensures !SendAllowed(input, selected, self)
  {
    SendAllowedSpec(input, selected, self);
  }

  /** The draft `sendMessage` builds: the untrimmed input, from the current
      user to the selected one, of type `text`. */
  function Outgoing(input: string, selfId: UserId, otherId: UserId): (d: MessageDraft)
    ensures d.content == input && d.messageType == "text"
    ensures forall id: nat :: InConversation(Stored(d, id), selfId, otherId)
    ensures forall id: nat :: Stored(d, id).senderId == selfId && !Stored(d, id).isRead
  {
    MessageDraft(input, selfId, otherId, "text")
  }

  /** Store ids are positions, as the store assigns them. */
  predicate IdsArePositions(records: seq<Message>) {
    forall i :: 0 <= i < |records| ==> records[i].id == i
  }

  /** Read-your-writes: once a message from `a` to `b` is created, reloading
      the conversation shows it exactly once, from either side. */
  lemma SentMessageLoadedOnce(records: seq<Message>, input: string, a: UserId, b: UserId)
    requires IdsArePositions(records)
    ensures var m := Stored(Outgoing(input, a, b), |records|);
      && multiset(Conversation(records + [m], a, b))[m] == 1
      && multiset(Conversation(records + [m], b, a))[m] == 1
  {
    var m := Stored(Outgoing(input, a, b), |records|);
    assert forall i :: 0 <= i < |records| ==> records[i].id < m.id;
    assert multiset(records + [m])[m] == 1;
    FilterCount(records + [m], x => InConversation(x, a, b), m);
    ConversationSymmetric(records + [m], a, b);
  }

  /** `e.key === 'Enter' && !e.shiftKey`: Enter sends, Shift+Enter and
      every other key do not. */
  function TriggersSend(key: string, shiftKey: bool): (r: bool)
    ensures shiftKey ==> !r
    ensures key != "Enter" ==> !r
    ensures key == "Enter" && !shiftKey ==> r
  {
    key == "Enter" && !shiftKey
  }

  /** The remote `Message` entity. Ids are assigned in creation order;
      `reachable` says whether its calls succeed (a failing call throws).
      The sort by `created_date` the page requests is the store's business:
      this store returns records in creation order. */
  class MessageStore {
    var records: seq<Message>
    var reachable: bool

    ghost predicate Valid()
      reads this
    {
      IdsArePositions(records)
    }

    constructor (reachable: bool)
      ensures Valid() && records == [] && this.reachable == reachable
    {
      records := [];
      this.reachable := reachable;
    }

    /** `Message.create(d)`. */
    method Create(d: MessageDraft) returns (ok: bool)
      requires Valid()
      modifies this`records
      ensures Valid()
      ensures ok == reachable
      ensures records == if ok then old(records) + [Stored(d, |old(records)|)] else old(records)
    {
      ok := reachable;
      if ok {
        records := records + [Stored(d, |records|)];
      }
    }

    /** `Message.filter({ $or: [...] }, 'created_date')` for the pair. */
    method FilterPair(a: UserId, b: UserId) returns (ok: bool, found: seq<Message>)
      ensures ok == reachable
      ensures ok ==> found == Conversation(records, a, b)
    {
      ok := reachable;
      found := if ok then Conversation(records, a, b) else [];
    }
  }

  /** The page's state. */
  class ChatsPage {
    var messages: seq<Message>
    var selectedChat: Option<User>
    var currentUser: Option<User>
    var users: seq<User>
    var newMessage: string

    constructor ()
      ensures messages == [] && selectedChat == None && currentUser == None
      ensures users == [] && newMessage == ""
    {
      messages := [];
      selectedChat := None;
      currentUser := None;
      users := [];
      newMessage := "";
    }

    /** `loadCurrentUser`: `me` is what `User.me()` returned, `None` when
        it threw. */
    method LoadCurrentUser(me: Option<User>)
      modifies this`currentUser
      ensures currentUser == if me.Some? then me else old(currentUser)
    {
      if me.Some? {
        currentUser := me;
      }
    }

    /** `loadUsers`: `fetched` is what `User.list()` returned, `None` when
        it threw. */
    method LoadUsers(fetched: Option<seq<User>>)
      modifies this`users
      ensures users == if fetched.Some? then fetched.value else old(users)
    {
      if fetched.Some? {
        users := fetched.value;
      }
    }

    /** `loadMessages`: replaces the whole list by the pair's messages; does
        nothing without a selected chat or a current user, or when the fetch
        throws. */
    method LoadMessages(store: MessageStore)
      modifies this`messages
      ensures selectedChat.Some? && currentUser.Some? && store.reachable ==>
        messages == Conversation(store.records, currentUser.value.id, selectedChat.value.id)
      ensures selectedChat.None? || currentUser.None? || !store.reachable ==>
        messages == old(messages)
    {
      if selectedChat.None? || currentUser.None? {
        return;
      }
      var ok, found := store.FilterPair(currentUser.value.id, selectedChat.value.id);
      if ok {
        messages := found;
      }
    }

    /** Clicking a row of the chat list: the selection changes and the
        effect on `selectedChat` reloads the conversation. Clicking the row
        already selected sets the same user again, so React skips the
        update, the effect does not run and nothing reloads. */
    method SelectChat(store: MessageStore, u: User)
      modifies this`selectedChat, this`messages
      ensures selectedChat == Some(u)
      ensures old(selectedChat) == Some(u) ==> messages == old(messages)
      ensures old(selectedChat) != Some(u) && currentUser.Some? && store.reachable ==>
        messages == Conversation(store.records, currentUser.value.id, u.id)
      ensures currentUser.None? || !store.reachable ==> messages == old(messages)
    {
      if selectedChat == Some(u) {
        return;
      }
      selectedChat := Some(u);
      LoadMessages(store);
    }

    /** `sendMessage`: when the guard passes, creates one `text` message
        holding the untrimmed input, then clears the input and reloads the
        conversation; otherwise (or when the create throws) changes
        nothing. */
    method SendMessage(store: MessageStore)
      requires store.Valid()
      modifies this`messages, this`newMessage, store`records
      ensures store.Valid()
      ensures !SendAllowed(old(newMessage), selectedChat, currentUser) || !store.reachable ==>
        store.records == old(store.records) && newMessage == old(newMessage) && messages == old(messages)
      ensures SendAllowed(old(newMessage), selectedChat, currentUser) && store.reachable ==>
        var sent := Stored(Outgoing(old(newMessage), currentUser.value.id, selectedChat.value.id), |old(store.records)|);
        && store.records == old(store.records) + [sent]
        && newMessage == ""
        && messages == Conversation(store.records, currentUser.value.id, selectedChat.value.id)
        && multiset(messages)[sent] == 1
    {
      if SendAllowed(newMessage, selectedChat, currentUser) {
        Deliver(store);
      }
    }

    /** The part of `sendMessage` after the guard: create, clear, reload. */
    method Deliver(store: MessageStore)
      requires store.Valid() && selectedChat.Some? && currentUser.Some?
      modifies this`messages, this`newMessage, store`records
      ensures store.Valid()
      ensures !store.reachable ==>
        store.records == old(store.records) && newMessage == old(newMessage) && messages == old(messages)
      ensures store.reachable ==>
        var sent := Stored(Outgoing(old(newMessage), currentUser.value.id, selectedChat.value.id), |old(store.records)|);
        && store.records == old(store.records) + [sent]
        && newMessage == ""
        && messages == Conversation(store.records, currentUser.value.id, selectedChat.value.id)
        && multiset(messages)[sent] == 1
    {
      var input := newMessage;
      ghost var before := store.records;
      var selfId, otherId := currentUser.value.id, selectedChat.value.id;
      var ok := store.Create(Outgoing(input, selfId, otherId));
      if !ok {
        return;
      }
      ghost var sent := Stored(Outgoing(input, selfId, otherId), |before|);
      assert store.records == before + [sent];
      newMessage := "";
      LoadMessages(store);
      assert messages == Conversation(before + [sent], selfId, otherId);
      SentMessageLoadedOnce(before, input, selfId, otherId);
    }

    /** `handleKeyPress`: Enter without Shift runs `sendMessage`; any other
        key changes nothing. */
    method HandleKeyPress(store: MessageStore, key: string, shiftKey: bool)
      requires store.Valid()
      modifies this`messages, this`newMessage, store`records
      ensures store.Valid()
      ensures !TriggersSend(key, shiftKey) || !SendAllowed(old(newMessage), selectedChat, currentUser) || !store.reachable ==>
        store.records == old(store.records) && newMessage == old(newMessage) && messages == old(messages)
      ensures TriggersSend(key, shiftKey) && SendAllowed(old(newMessage), selectedChat, currentUser) && store.reachable ==>
        && store.records == old(store.records) + [Stored(Outgoing(old(newMessage), currentUser.value.id, selectedChat.value.id), |old(store.records)|)]
        && newMessage == ""
        && messages == Conversation(store.records, currentUser.value.id, selectedChat.value.id)
    {
      if TriggersSend(key, shiftKey) {
        SendMessage(store);
      }
    }

    /** `getOtherUsers()`: the users handed to the chat list, in directory
        order, without the current user. */
    function GetOtherUsers(): (r: seq<User>)
      reads this
      ensures forall u :: u in r <==> u in users && NotSelf(u, currentUser)
      ensures currentUser.Some? ==> forall u :: u in r ==> u.id != currentUser.value.id
      ensures IsSubsequence(r, users)
    {
      OtherUsers(users, currentUser)
    }
  }

  /** The chat list never offers a conversation with oneself: whatever the
      search term, no listed row carries the current user's id. */
  lemma ChatListExcludesSelf(page: ChatsPage, term: string, u: User)
    requires page.currentUser.Some?
    requires u in SearchFilter(page.GetOtherUsers(), term)
    ensures u.id != page.currentUser.value.id && u in page.users
  {
  }
}

/** The direct-message window: a user search, the selected conversation
    partner, the messages of that conversation, and the text being typed.
    Messages arrive as socket events and are sent as socket events; the
    window itself appends only what the server delivers back. */
module Chat {
  import opened Common
  import Text
  import Auth

  datatype ChatUser = ChatUser(email: string, name: string)

  datatype Message = Message(sender: string, receiver: string, content: string, createdAt: string)

  /** The `receive_message` filter: a message belongs to the open
      conversation when it goes from me to the selected partner or from the
      selected partner to me. With no partner selected nothing belongs. */
  predicate InConversation(msg: Message, me: string, peer: Option<ChatUser>) {
    peer.Some? &&
    ((msg.sender == me && msg.receiver == peer.value.email) ||
     (msg.sender == peer.value.email && msg.receiver == me))
  }

  /** A message is drawn on the right exactly when the signed-in user sent it. */
  predicate IsOwn(msg: Message, user: Option<User>) {
    user.Some? && msg.sender == user.value.email
  }

  /** A message between two other people never enters the conversation,
      nor does one the partner sends to someone else; a message from me to
      the selected partner does. */
  lemma ConversationIsPrivate(msg: Message, me: string, peer: Option<ChatUser>)
    ensures msg.sender != me && msg.receiver != me ==> !InConversation(msg, me, peer)
    ensures peer.Some? && msg.sender == peer.value.email && msg.receiver != me ==> !InConversation(msg, me, peer)
    ensures peer.Some? && msg.sender == me && msg.receiver == peer.value.email ==> InConversation(msg, me, peer)
  {
  }

  class ChatWindow {
    var selectedUser: Option<ChatUser>
    var messages: seq<Message>
    var newMessage: string
    var searchQuery: string
    var searchResults: seq<ChatUser>
    const apiUrl: string
    /** `encodeURIComponent` */
    const encodeComponent: string -> string

    constructor (apiUrl: string, encodeComponent: string -> string)
      ensures this.apiUrl == apiUrl && this.encodeComponent == encodeComponent
      ensures selectedUser.None? && messages == [] && newMessage == ""
      ensures searchQuery == "" && searchResults == []
    {
      this.apiUrl := apiUrl;
      this.encodeComponent := encodeComponent;
      selectedUser := None;
      messages := [];
      newMessage := "";
      searchQuery := "";
      searchResults := [];
    }

    method SetSearchQuery(query: string)
      modifies this`searchQuery
      ensures searchQuery == query
    {
      searchQuery := query;
    }

    method SetNewMessage(text: string)
      modifies this`newMessage
      ensures newMessage == text
    {
      newMessage := text;
    }

    /** A `receive_message` event while `me` is signed in: appended at the
        end when it belongs to the open conversation, dropped otherwise. */
    method ReceiveMessage(me: User, msg: Message)
      modifies this`messages
      ensures messages == if InConversation(msg, me.email, selectedUser) then old(messages) + [msg] else old(messages)
    {
      if (msg.sender == me.email && selectedUser.Some? && msg.receiver == selectedUser.value.email) ||
         (selectedUser.Some? && msg.sender == selectedUser.value.email && msg.receiver == me.email) {
        messages := messages + [msg];
      }
    }

    /** `handleSearch`: a blank query clears the results without a request;
        otherwise the results are the server's list, or empty on any failure. */
    method HandleSearch(auth: Auth.AuthProvider, reply: Reply<seq<ChatUser>>) returns (sent: Option<Request>)
      requires auth.Valid()
      modifies this`searchResults, auth, auth.store
      ensures auth.Valid()
      ensures auth.store.entries - {Auth.TokenKey} == old(auth.store.entries) - {Auth.TokenKey}
      ensures Text.IsBlank(searchQuery) ==> sent.None? && searchResults == [] && unchanged(auth, auth.store)
      ensures Text.IsBlank(searchQuery) ==> (ShowsNoResults() <==> searchQuery != "")
      ensures !Text.IsBlank(searchQuery) ==>
        (ShowsNoResults() <==> !(reply.Ok() && reply.body.Some? && reply.body.value != []))
      ensures !Text.IsBlank(searchQuery) ==>
        && sent.Some?
        && sent.value.verb == "GET"
        && sent.value.url == apiUrl + "/api/chat/search-user?email=" + encodeComponent(searchQuery)
        && sent.value.headers == Auth.WithBearer([], old(auth.token))
        && auth.Snapshot() == Auth.Step(old(auth.Snapshot()), Auth.Responded(reply.status), auth.decode)
        && searchResults == if reply.Ok() && reply.body.Some? then reply.body.value else []
    {
      Text.TrimEmptyIffBlank(searchQuery);
      if Text.Trim(searchQuery) == "" {
        searchResults := [];
        return None;
      }
      var options := new Auth.RequestInit("GET", [], []);
      var request, outcome := auth.FetchWithAuth(apiUrl + "/api/chat/search-user?email=" + encodeComponent(searchQuery), options, reply.status);
      sent := Some(request);
      if outcome.Success? && reply.Ok() && reply.body.Some? {
        searchResults := reply.body.value;
      } else {
        searchResults := [];
      }
    }

    /** `handleUserSelect(chatUser)`: the partner is selected first, then the
        messages are replaced by the fetched history, or emptied on failure. */
    method HandleUserSelect(auth: Auth.AuthProvider, chatUser: ChatUser, reply: Reply<seq<Message>>) returns (sent: Request)
      requires auth.Valid()
      modifies this`selectedUser, this`messages, auth, auth.store
      ensures auth.Valid()
      ensures auth.store.entries - {Auth.TokenKey} == old(auth.store.entries) - {Auth.TokenKey}
      ensures selectedUser == Some(chatUser)
      ensures sent.verb == "GET" && sent.url == apiUrl + "/api/chat/history/" + chatUser.email
      ensures sent.headers == Auth.WithBearer([], old(auth.token))
      ensures auth.Snapshot() == Auth.Step(old(auth.Snapshot()), Auth.Responded(reply.status), auth.decode)
      ensures messages == if reply.Ok() && reply.body.Some? then reply.body.value else []
    {
      selectedUser := Some(chatUser);
      var options := new Auth.RequestInit("GET", [], []);
      var outcome;
      sent, outcome := auth.FetchWithAuth(apiUrl + "/api/chat/history/" + chatUser.email, options, reply.status);
      if outcome.Success? && reply.Ok() && reply.body.Some? {
        messages := reply.body.value;
      } else {
        messages := [];
      }
    }

    /** `handleSendMessage` at time `now`: nothing when the text is blank,
        no partner is selected or no one is signed in. Otherwise the
        untrimmed text is emitted from me to the partner and the input is
        cleared; the list itself waits for the server's echo. */
    method HandleSendMessage(user: Option<User>, now: string) returns (emitted: Option<Message>)
      modifies this`newMessage
      ensures Text.IsBlank(old(newMessage)) || selectedUser.None? || user.None? ==>
        emitted.None? && newMessage == old(newMessage)
      ensures !Text.IsBlank(old(newMessage)) && selectedUser.Some? && user.Some? ==>
        && emitted == Some(Message(user.value.email, selectedUser.value.email, old(newMessage), now))
        && newMessage == ""
      ensures emitted.Some? ==>
        && InConversation(emitted.value, user.value.email, selectedUser)
        && IsOwn(emitted.value, user)
    {
      Text.TrimEmptyIffBlank(newMessage);
      if Text.Trim(newMessage) == "" || selectedUser.None? || user.None? {
        return None;
      }
      emitted := Some(Message(user.value.email, selectedUser.value.email, newMessage, now));
      newMessage := "";
    }

    /** Whether each message, in order, is drawn on the right. */
    function Alignment(user: Option<User>): (right: seq<bool>)
      reads this`messages
      ensures |right| == |messages|
      ensures forall i | 0 <= i < |messages| :: right[i] <==> user.Some? && messages[i].sender == user.value.email
    {
      var ms := messages;
      seq(|ms|, i requires 0 <= i < |ms| => IsOwn(ms[i], user))
    }

    /** The "no results" notice: no results for a non-empty query (even
        one of blanks only, which is never sent). */
    function ShowsNoResults(): bool
      reads this`searchResults, this`searchQuery
    {
      |searchResults| == 0 && searchQuery != ""
    }
  }
}

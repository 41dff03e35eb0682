/** The chat window: the conversation it shows, filtered out of the provider's message
    log, and its send handler, which refuses input that `String.prototype.trim` empties. */
module ChatWindow {
  import opened Wrappers
  import opened Seqs
  import opened SocketContext

  /** Whether `m` goes between `self` (the signed-in user, `authState.user?.id`) and the partner. */
  predicate InConversation(m: Message, self: Option<string>, partnerId: string)
  {
    || (Some(m.senderId) == self && m.receiverId == partnerId)
    || (m.senderId == partnerId && Some(m.receiverId) == self)
  }

  function Between(self: Option<string>, partnerId: string): Message -> bool
  {
    m => InConversation(m, self, partnerId)
  }

  /** `conversationMessages`: the log's messages between the two parties, in log order. */
  function ConversationMessages(messages: seq<Message>, self: Option<string>, partnerId: string): (r: seq<Message>)
    ensures forall m :: m in r ==> m in messages && InConversation(m, self, partnerId)
    ensures forall m :: m in messages && InConversation(m, self, partnerId) ==> m in r
  {
    Filter(messages, Between(self, partnerId))
  }

  /** The conversation is a subsequence of the log: order kept, never longer. */
  lemma ConversationIsSubsequence(messages: seq<Message>, self: Option<string>, partnerId: string)
    ensures IsSubseq(ConversationMessages(messages, self, partnerId), messages)
    ensures |ConversationMessages(messages, self, partnerId)| <= |messages|
  {
    FilterIsSubseq(messages, Between(self, partnerId));
  }

  /** Swapping the two parties gives the same sequence. */
  lemma ConversationSymmetric(messages: seq<Message>, a: string, b: string)
    ensures ConversationMessages(messages, Some(a), b) == ConversationMessages(messages, Some(b), a)
  {
    FilterCongruent(messages, Between(Some(a), b), Between(Some(b), a));
  }

  /** With nobody signed in, no message belongs to the conversation. */
  lemma ConversationWithoutUser(messages: seq<Message>, partnerId: string)
    ensures ConversationMessages(messages, None, partnerId) == []
  {
    FilterNone(messages, Between(None, partnerId));
  }

  /** Appending to the log extends the conversation by that message exactly when it belongs to it. */
  lemma ConversationAppend(messages: seq<Message>, m: Message, self: Option<string>, partnerId: string)
    ensures ConversationMessages(messages + [m], self, partnerId) ==
      ConversationMessages(messages, self, partnerId) + (if InConversation(m, self, partnerId) then [m] else [])
  {
    FilterConcat(messages, [m], Between(self, partnerId));
    assert [m][..0] == [];
  }

  /** A delivered send shows up once, last, in the sender's conversation with the receiver and,
      by symmetry, in the receiver's with the sender. */
  lemma DeliveredMessageJoinsConversation(messages: seq<Message>, d: Draft, env: Ambient)
    ensures var m := FullMessage(d, env);
      && ConversationMessages(messages + [m], Some(d.senderId), d.receiverId)
         == ConversationMessages(messages, Some(d.senderId), d.receiverId) + [m]
      && ConversationMessages(messages + [m], Some(d.receiverId), d.senderId)
         == ConversationMessages(messages, Some(d.receiverId), d.senderId) + [m]
  {
    var m := FullMessage(d, env);
    ConversationAppend(messages, m, Some(d.senderId), d.receiverId);
    ConversationAppend(messages, m, Some(d.receiverId), d.senderId);
  }

  /** The characters `String.prototype.trim` removes: white space and line terminators. */
  predicate IsJsWhitespace(c: char)
  {
    var n := c as int;
    || n == 0x09 || n == 0x0A || n == 0x0B || n == 0x0C || n == 0x0D
    || n == 0x20 || n == 0xA0 || n == 0x1680
    || (0x2000 <= n <= 0x200A)
    || n == 0x2028 || n == 0x2029 || n == 0x202F || n == 0x205F || n == 0x3000 || n == 0xFEFF
  }

  /** `s` with its leading white space removed. */
  function TrimStart(s: string): (r: string)
    ensures |r| <= |s| && r == s[|s| - |r|..]
    ensures forall i :: 0 <= i < |s| - |r| ==> IsJsWhitespace(s[i])
    ensures r == [] || !IsJsWhitespace(r[0])
  {
    if s != [] && IsJsWhitespace(s[0]) then TrimStart(s[1..]) else s
  }

  /** `s` with its trailing white space removed. */
  function TrimEnd(s: string): (r: string)
    ensures |r| <= |s| && r == s[..|r|]
    ensures forall i :: |r| <= i < |s| ==> IsJsWhitespace(s[i])
    ensures r == [] || !IsJsWhitespace(r[|r| - 1])
  {
    if s != [] && IsJsWhitespace(s[|s| - 1]) then TrimEnd(s[..|s| - 1]) else s
  }

  /** `s.trim()`. */
  function Trim(s: string): string
  {
    TrimEnd(TrimStart(s))
  }

  /** `!s.trim()` holds exactly when every character of `s` is white space. */
  lemma TrimEmptyIff(s: string)
    ensures Trim(s) == "" <==> forall i :: 0 <= i < |s| ==> IsJsWhitespace(s[i])
  {
    var t := TrimStart(s);
    if Trim(s) == "" {
      assert |t| == 0;
    }
    if forall i :: 0 <= i < |s| ==> IsJsWhitespace(s[i]) {
      TrimStartOfWhitespace(s);
    }
  }

  /** Trimming a string made only of white space leaves nothing. */
  lemma {:induction false} TrimStartOfWhitespace(s: string)
    requires forall i :: 0 <= i < |s| ==> IsJsWhitespace(s[i])
    ensures TrimStart(s) == []
  {
    if s != [] {
      TrimStartOfWhitespace(s[1..]);
    }
  }

  /** The component: the `partner` prop it is rendered with and its own text input. */
  class ChatWindow {
    var partnerId: string
    var messageInput: string

    constructor (partnerId: string)
      ensures this.partnerId == partnerId && messageInput == ""
    {
      this.partnerId := partnerId;
      messageInput := "";
    }

    /** A re-render with another `partner` (the dashboard renders the window without a
        `key`, so React keeps the component): the typed draft is kept. */
    method SetPartner(partnerId: string)
      modifies this
      ensures this.partnerId == partnerId && messageInput == old(messageInput)
    {
      this.partnerId := partnerId;
    }

    /** The input's `onChange`: the field holds what was typed. */
    method OnInputChange(value: string)
      modifies this
      ensures messageInput == value && partnerId == old(partnerId)
    {
      messageInput := value;
    }

    /** `handleSendMessage`: blank input is ignored and kept; otherwise the untrimmed input
        is sent once to the partner through the provider and the field is cleared. */
    method HandleSendMessage(provider: SocketProvider)
      requires provider.Valid()
      modifies this, provider.socket
      ensures provider.Valid()
      ensures Trim(old(messageInput)) == "" ==>
        && messageInput == old(messageInput) && partnerId == old(partnerId)
        && (provider.socket != null ==> provider.socket.pending == old(provider.socket.pending))
      ensures Trim(old(messageInput)) != "" ==>
        && messageInput == "" && partnerId == old(partnerId)
        && (provider.socket != null ==>
              provider.socket.pending == old(provider.socket.pending)
                + (if provider.user.Some? then [DeliverMessage(Draft(provider.user.value, partnerId, old(messageInput)))] else []))
      ensures provider.socket != null ==>
        provider.socket.connected == old(provider.socket.connected) && provider.socket.userId == old(provider.socket.userId)
    {
      if Trim(messageInput) == "" {
        return;
      }
      provider.SendMessage(partnerId, messageInput);
      messageInput := "";
    }
  }

  /** A patient signs in, opens a chat with a doctor, types a non-blank text and sends it;
      then the handshake, the send step and the reply step fire in turn. The conversation
      ends up holding exactly the patient's message: the reply guard never passes for a
      message the socket's own user sent. */
  method PatientSendsOneMessage(patient: string, doctor: string, text: string, env1: Ambient, env2: Ambient, env3: Ambient)
    returns (conversation: seq<Message>)
    requires !(forall i :: 0 <= i < |text| ==> IsJsWhitespace(text[i]))
    requires ValidAmbient(env1) && ValidAmbient(env2) && ValidAmbient(env3)
    ensures conversation == [FullMessage(Draft(patient, doctor, text), env2)]
  {
    var provider := new SocketProvider(true, Some(patient));
    var window := new ChatWindow(doctor);
    window.OnInputChange(text);
    TrimEmptyIff(text);
    var d := Draft(patient, doctor, text);
    assert provider.user == Some(patient);
    window.HandleSendMessage(provider);
    assert provider.socket.pending == [EmitConnected(patient), DeliverMessage(d)];
    provider.Tick(0, env1);
    assert provider.socket.pending == [DeliverMessage(d)] && provider.messages == [];
    provider.Tick(0, env2);
    assert provider.socket.pending == [EmitReply(d)];
    assert provider.messages == [] + [FullMessage(d, env2)];
    provider.Tick(0, env3);
    ConversationAppend([], FullMessage(Draft(patient, doctor, text), env2), Some(patient), doctor);
    conversation := ConversationMessages(provider.messages, Some(patient), doctor);
  }

  /** A draft typed for one patient and sent after the doctor has picked another goes to
      the patient picked last: the draft survives the change of `partner`. */
  method DraftFollowsNewPartner(doctor: string, first: string, second: string, text: string)
    returns (pending: seq<Task>, input: string)
    requires !(forall i :: 0 <= i < |text| ==> IsJsWhitespace(text[i]))
    ensures pending == [EmitConnected(doctor), DeliverMessage(Draft(doctor, second, text))]
    ensures input == ""
  {
    var provider := new SocketProvider(true, Some(doctor));
    var window := new ChatWindow(first);
    window.OnInputChange(text);
    window.SetPartner(second);
    TrimEmptyIff(text);
    window.HandleSendMessage(provider);
    pending := provider.socket.pending;
    input := window.messageInput;
  }
}

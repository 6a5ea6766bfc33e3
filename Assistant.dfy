// The AI assistant screen: a conversation that starts with a greeting; a
// send step appends the user's message, and a later reply step appends the
// answer picked from a keyword table.

module Assistant {
  import opened Common
  import opened Text

  datatype Sender = User | Ai

  /** A chat message; the timestamp is not modelled. */
  datatype Message = Message(id: string, text: string, sender: Sender)

  const Greeting: string :=
    "Hello! I'm your AI health assistant. I can help you with medication information, health tips, or answer questions about senior care. How can I assist you today?"

  const DefaultReply: string :=
    "I'm here to help with health-related questions. Could you provide more details about what you'd like to know?"

  /** The reply table, in the order the keys are searched. */
  const ReplyTable: seq<Entry> := [
    Entry("medication", "It's important to take your medications as prescribed. If you're experiencing side effects, please consult with your doctor before making any changes."),
    Entry("pain", "For minor pain, you might try a warm compress or gentle stretching. If pain persists, please consult with your healthcare provider."),
    Entry("sleep", "Establishing a regular sleep schedule can help improve sleep quality. Try avoiding screens before bedtime and create a comfortable sleep environment."),
    Entry("hello", "Hello! How are you feeling today? Is there something specific I can help you with?"),
    Entry("hi", "Hi there! How can I assist you with your health needs today?")
  ]

  /** The characters `String.prototype.trim` removes: ECMAScript's white
      space (tab, vertical tab, form feed, space, no-break space, byte-order
      mark and the other space separators) and its line terminators. */
  predicate IsWhitespace(c: char) {
    || c == '\t' || c == '\U{000B}' || c == '\U{000C}' || c == ' ' || c == '\U{00A0}' || c == '\U{FEFF}'
    || c == '\U{1680}' || '\U{2000}' <= c <= '\U{200A}' || c == '\U{202F}' || c == '\U{205F}' || c == '\U{3000}'
    || c == '\n' || c == '\r' || c == '\U{2028}' || c == '\U{2029}'
  }

  /** `!input.trim()`: nothing but whitespace. */
  predicate Blank(s: string) {
    forall i :: 0 <= i < |s| ==> IsWhitespace(s[i])
  }

  /** The reply chosen for the text that was sent: the default exactly when
      the lower-cased text contains no key, otherwise the reply of the first
      key, in table order, that it contains. */
  function ReplyTo(sent: string): (r: string)
    ensures r == DefaultReply <==>
      forall k :: 0 <= k < |ReplyTable| ==> !Includes(ToLower(sent), ReplyTable[k].key)
    ensures r != DefaultReply ==>
      exists k :: 0 <= k < |ReplyTable| && Includes(ToLower(sent), ReplyTable[k].key) && r == ReplyTable[k].reply
    ensures forall k :: 0 <= k < |ReplyTable| && Includes(ToLower(sent), ReplyTable[k].key)
              && (forall j :: 0 <= j < k ==> !Includes(ToLower(sent), ReplyTable[j].key))
              ==> r == ReplyTable[k].reply
  {
    KeywordReply(ReplyTable, DefaultReply, ToLower(sent))
  }

  /** A text mentioning both medication and pain gets the medication reply:
      the first key in table order wins. */
  lemma MedicationBeforePain(sent: string)
    requires Includes(ToLower(sent), "medication")
    ensures ReplyTo(sent) == ReplyTable[0].reply
  {
  }

  /** A text that contains none of the keys gets the default reply. */
  lemma NoKeyDefault(sent: string)
    requires forall k :: 0 <= k < |ReplyTable| ==> !Includes(ToLower(sent), ReplyTable[k].key)
    ensures ReplyTo(sent) == DefaultReply
  {
  }

  class Chat {
    var messages: seq<Message>
    var input: string
    var loading: bool

    constructor ()
      ensures messages == [Message("1", Greeting, Ai)] && input == "" && !loading
    {
      messages := [Message("1", Greeting, Ai)];
      input := "";
      loading := false;
    }

    /** handleSend, up to the timer. `id` stands for `Date.now()`. Returns
        the text that was sent, which the reply step reads, or None when the
        input is blank and nothing happens. */
    method Send(id: string) returns (sent: Option<string>)
      modifies this
      ensures Blank(old(input)) ==> sent == None && messages == old(messages)
                                    && input == old(input) && loading == old(loading)
      ensures !Blank(old(input)) ==>
        && sent == Some(old(input))
        && messages == old(messages) + [Message(id, old(input), User)]
        && input == "" && loading
    {
      if Blank(input) {
        return None;
      }
      messages := messages + [Message(id, input, User)];
      sent := Some(input);
      input := "";
      loading := true;
    }

    /** The body of the timer: the answer to the text that was sent. */
    method Reply(sent: string, id: string)
      modifies this
      ensures messages == old(messages) + [Message(id, ReplyTo(sent), Ai)]
      ensures !loading && input == old(input)
    {
      messages := messages + [Message(id, ReplyTo(sent), Ai)];
      loading := false;
    }
  }

  /** One exchange from the greeting: the conversation is the greeting, the
      user's untrimmed text and the keyword reply, in that order. */
  method Exchange(text: string, userId: string, replyId: string) returns (conversation: seq<Message>)
    requires !Blank(text)
    ensures conversation == [Message("1", Greeting, Ai), Message(userId, text, User),
                             Message(replyId, ReplyTo(text), Ai)]
  {
    var chat := new Chat();
    chat.input := text;
    var sent := chat.Send(userId);
    chat.Reply(sent.value, replyId);
    conversation := chat.messages;
  }
}

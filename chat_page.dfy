/**
 * The chat page: a message list that starts with the assistant's greeting,
 * grows by one user message per send and one bot message per reply, and a
 * contact list narrowed by a case-insensitive search. Message ids come from
 * the clock, which is a parameter; timestamps are not modelled.
 */
module ChatPage {
  import Seqs
  import Text

  datatype Sender = User | Bot

  datatype Message = Message(id: string, text: string, sender: Sender)

  const GreetingText: string := "Hello! How can I help you today?"
  const ReplyText: string :=
    "Thank you for your message! This is a demo response. In production, this would connect to your AI backend."

  /** The greeting every conversation starts with. */
  const Greeting: Message := Message("1", GreetingText, Bot)

  datatype Contact = Contact(id: string, name: string, email: string)

  /** The one contact the page lists. */
  const Contacts: seq<Contact> := [Contact("bot", "Chat Assistant", "assistant@elevate.com")]

  /** The search's test: the lowercased query inside the lowercased name or email. */
  predicate ContactMatches(query: string, c: Contact)
  {
    var q := Text.Lower(query);
    Text.Contains(Text.Lower(c.name), q) || Text.Contains(Text.Lower(c.email), q)
  }

  /** `filteredContacts`: the contacts the search matches, in their order. */
  function FilteredContacts(contacts: seq<Contact>, query: string): (r: seq<Contact>)
    ensures Seqs.IsSubsequence(r, contacts)
    ensures forall i :: 0 <= i < |r| ==> ContactMatches(query, r[i])
    ensures forall i :: 0 <= i < |contacts| && ContactMatches(query, contacts[i]) ==> contacts[i] in r
  {
    Seqs.Filter(contacts, c => ContactMatches(query, c))
  }

  /** An empty search keeps every contact: the empty text is inside every name. */
  lemma EmptySearchKeepsAll(contacts: seq<Contact>)
    ensures FilteredContacts(contacts, "") == contacts
  {
    forall c | c in contacts ensures ContactMatches("", c) {
      assert Text.Lower("") == "";
      Text.ContainsEmpty(Text.Lower(c.name));
    }
    Seqs.FilterAll(contacts, c => ContactMatches("", c));
  }

  /** Queries with the same lowercase select the same contacts. */
  lemma SameLowerSameContacts(contacts: seq<Contact>, q1: string, q2: string)
    requires Text.Lower(q1) == Text.Lower(q2)
    ensures FilteredContacts(contacts, q1) == FilteredContacts(contacts, q2)
  {
    Seqs.FilterSame(contacts, c => ContactMatches(q1, c), c => ContactMatches(q2, c));
  }

  /** The search ignores letter case: an uppercased or lowercased query selects what the query does. */
  lemma SearchIgnoresCase(contacts: seq<Contact>, query: string)
    ensures FilteredContacts(contacts, Text.Upper(query)) == FilteredContacts(contacts, query)
    ensures FilteredContacts(contacts, Text.Lower(query)) == FilteredContacts(contacts, query)
  {
    Text.LowerOfUpper(query);
    SameLowerSameContacts(contacts, Text.Upper(query), query);
    Text.LowerIdempotent(query);
    SameLowerSameContacts(contacts, Text.Lower(query), query);
  }

  /** The send button is disabled while the bot is typing or the input is blank. */
  predicate SendDisabled(isTyping: bool, input: string)
  {
    isTyping || Text.Trim(input) == ""
  }

  class ChatState {
    var messages: seq<Message>
    var inputValue: string
    var isTyping: bool
    var searchQuery: string

    /** The input is disabled while the bot is typing, and a send empties it, so it is empty then. */
    predicate Valid()
      reads this
    {
      isTyping ==> inputValue == ""
    }

    /** Only the greeting, an empty input, no typing, no search. */
    constructor ()
      ensures messages == [Greeting] && inputValue == "" && !isTyping && searchQuery == ""
      ensures Valid()
    {
      messages := [Greeting];
      inputValue := "";
      isTyping := false;
      searchQuery := "";
    }

    /** Typing into the input, which is enabled only while the bot is not typing. */
    method SetInput(v: string)
      requires !isTyping
      modifies this
      ensures inputValue == v && Valid()
      ensures messages == old(messages) && isTyping == old(isTyping) && searchQuery == old(searchQuery)
    {
      inputValue := v;
    }

    method SetSearchQuery(q: string)
      modifies this
      ensures searchQuery == q
      ensures Valid() <==> old(Valid())
      ensures messages == old(messages) && inputValue == old(inputValue) && isTyping == old(isTyping)
    {
      searchQuery := q;
    }

    /** The contacts shown for the current search. */
    function Shown(): seq<Contact>
      reads this
    {
      FilteredContacts(Contacts, searchQuery)
    }

    /**
     * Send: a blank input changes nothing; otherwise the input, untrimmed, is
     * appended as one user message with the clock's id, the input is cleared and
     * the bot starts typing.
     */
    method SendMessage(now: nat) returns (sent: bool)
      modifies this
      ensures sent <==> !Text.IsBlank(old(inputValue))
      ensures !sent ==> messages == old(messages) && inputValue == old(inputValue) && isTyping == old(isTyping)
      ensures sent ==> messages == old(messages) + [Message(Text.NatToString(now), old(inputValue), User)]
      ensures sent ==> inputValue == "" && isTyping
      ensures searchQuery == old(searchQuery)
      ensures old(Valid()) ==> Valid()
    {
      if Text.Trim(inputValue) == "" {
        return false;
      }
      messages := messages + [Message(Text.NatToString(now), inputValue, User)];
      inputValue := "";
      isTyping := true;
      sent := true;
    }

    /** The bot's reply, at the clock's later reading `now`: one bot message appended, typing over. */
    method BotReply(now: nat)
      modifies this
      ensures messages == old(messages) + [Message(Text.NatToString(now + 1), ReplyText, Bot)]
      ensures !isTyping && Valid()
      ensures inputValue == old(inputValue) && searchQuery == old(searchQuery)
    {
      messages := messages + [Message(Text.NatToString(now + 1), ReplyText, Bot)];
      isTyping := false;
    }
  }

  /**
   * A send followed by its reply: the conversation grows by exactly the user's
   * message and the bot's answer, which happens exactly when the send button
   * was enabled; afterwards the input is empty and the bot is no longer typing.
   */
  method SendThenReply(chat: ChatState, sendTime: nat, replyTime: nat) returns (sent: bool)
    requires chat.Valid()
    modifies chat
    ensures sent <==> !Text.IsBlank(old(chat.inputValue))
    ensures sent ==>
      var mine := Message(Text.NatToString(sendTime), old(chat.inputValue), User);
      chat.messages == old(chat.messages) + [mine, Message(Text.NatToString(replyTime + 1), ReplyText, Bot)]
    ensures sent <==> !SendDisabled(old(chat.isTyping), old(chat.inputValue))
    ensures sent ==> !chat.isTyping && chat.inputValue == ""
    ensures !sent ==> chat.messages == old(chat.messages)
    ensures chat.Valid()
  {
    sent := chat.SendMessage(sendTime);
    if sent {
      chat.BotReply(replyTime);
    }
  }
}

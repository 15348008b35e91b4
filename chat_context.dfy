/**
 * The conversation store shared by the chat widget: an append-only message list
 * seeded with a greeting, an open/closed flag, and the bot replies that have
 * been scheduled but not yet delivered.
 */
module ChatContext {

  datatype Sender = User | Bot

  datatype Message = Message(id: int, text: string, sender: Sender)

  const GreetingText := "Hello! I am your Cyber Law Assistant. How can I help you today?"

  /** The canned text of every bot reply. */
  const ReplyText := "I'm processing your request. As an AI, I can help you find relevant laws or explain legal terms."

  /** The message list starts with this bot greeting, with id 1. */
  const Greeting := Message(1, GreetingText, Bot)

  /** How many messages in `ms` were sent by `who`. */
  function CountFrom(ms: seq<Message>, who: Sender): (n: nat)
    ensures n <= |ms|
    ensures n == 0 <==> forall i :: 0 <= i < |ms| ==> ms[i].sender != who
  {
    if ms == [] then 0
    else CountFrom(ms[..|ms| - 1], who) + (if ms[|ms| - 1].sender == who then 1 else 0)
  }

  /** Appending one message adds one to its sender's count and nothing to the other. */
  lemma CountFromAppend(ms: seq<Message>, m: Message, who: Sender)
    ensures CountFrom(ms + [m], who) == CountFrom(ms, who) + (if m.sender == who then 1 else 0)
  {
    assert (ms + [m])[..|ms|] == ms;
  }

  /** Every message is either the user's or the bot's. */
  lemma {:induction false} CountsPartition(ms: seq<Message>)
    ensures CountFrom(ms, User) + CountFrom(ms, Bot) == |ms|
  {
    if ms != [] {
      CountsPartition(ms[..|ms| - 1]);
    }
  }

  /** In every non-empty prefix, the bot messages number at most one more (the
      greeting) than the user messages: no reply arrives before its send. */
  ghost predicate RepliesFollowSends(ms: seq<Message>) {
    forall k :: 1 <= k <= |ms| ==> CountFrom(ms[..k], Bot) <= CountFrom(ms[..k], User) + 1
  }

  class ChatStore {
    var messages: seq<Message>
    var isOpen: bool
    /** Bot replies whose one-second timer has been started and has not yet fired. */
    var pending: nat

    ghost predicate Valid()
      reads this
    {
      && |messages| >= 1
      && messages[0] == Greeting
      && (forall i :: 1 <= i < |messages| && messages[i].sender == Bot ==> messages[i].text == ReplyText)
      && CountFrom(messages, User) + 1 == CountFrom(messages, Bot) + pending
      && RepliesFollowSends(messages)
    }

    /** Initially only the greeting, closed, and no reply pending. */
    constructor()
      ensures messages == [Greeting] && !isOpen && pending == 0
      ensures Valid()
    {
      messages := [Greeting];
      isOpen := false;
      pending := 0;
    }

    /** `toggleChat` flips `isOpen` and changes nothing else. */
    method ToggleChat()
      requires Valid()
      modifies this
      ensures isOpen == !old(isOpen)
      ensures messages == old(messages) && pending == old(pending)
      ensures Valid()
    {
      isOpen := !isOpen;
    }

    /** Appending `m` keeps "no reply before its send" when the counts allow it. */
    static lemma AppendKeepsOrder(ms: seq<Message>, m: Message)
      requires RepliesFollowSends(ms)
      requires CountFrom(ms + [m], Bot) <= CountFrom(ms + [m], User) + 1
      ensures RepliesFollowSends(ms + [m])
    {
      var ns := ms + [m];
      forall k | 1 <= k <= |ns|
        ensures CountFrom(ns[..k], Bot) <= CountFrom(ns[..k], User) + 1
      {
        if k <= |ms| {
          assert ns[..k] == ms[..k];
        } else {
          assert ns[..k] == ns;
        }
      }
    }

    /** `sendMessage(text)`: the user message, stamped with the clock reading
        `now`, is appended whatever `text` is, and one bot reply is scheduled. */
    method SendMessage(text: string, now: int)
      requires Valid()
      modifies this
      ensures messages == old(messages) + [Message(now, text, User)]
      ensures pending == old(pending) + 1 && isOpen == old(isOpen)
      ensures Valid()
    {
      var m := Message(now, text, User);
      CountFromAppend(messages, m, User);
      CountFromAppend(messages, m, Bot);
      AppendKeepsOrder(messages, m);
      messages := messages + [m];
      pending := pending + 1;
    }

    /** A scheduled reply's timer fires at clock reading `now`: one bot message
        with the canned text and id `now + 1` is appended. */
    method DeliverReply(now: int)
      requires Valid() && pending > 0
      modifies this
      ensures messages == old(messages) + [Message(now + 1, ReplyText, Bot)]
      ensures pending == old(pending) - 1 && isOpen == old(isOpen)
      ensures Valid()
    {
      var m := Message(now + 1, ReplyText, Bot);
      CountFromAppend(messages, m, User);
      CountFromAppend(messages, m, Bot);
      AppendKeepsOrder(messages, m);
      messages := messages + [m];
      pending := pending - 1;
    }
  }

  /** Once no reply is pending, every user message has had exactly one reply:
      the bot messages are the greeting plus one per user message. */
  lemma AllAnswered(ms: seq<Message>, pending: nat)
    requires CountFrom(ms, User) + 1 == CountFrom(ms, Bot) + pending
    requires pending == 0
    ensures |ms| == 2 * CountFrom(ms, User) + 1
  {
    CountsPartition(ms);
  }
}

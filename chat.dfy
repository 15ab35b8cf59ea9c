/** The learning-assistant chat widget: its history, the send handler and the
    keyword rule that picks the canned reply (src/components/ChatWidget.tsx).

    The reply is scheduled with a one-second timer. Here the scheduled replies
    are a queue: `Send` enqueues one and `DeliverReply` is the timer firing.
    Timers with the same delay fire in the order they were set. */
module Chat {
  import opened Text

  datatype Sender = UserSender | Bot

  datatype Entry = Entry(sender: Sender, text: string)

  const Greeting: string := "Hello! How can I help you with your learning today?"
  const HelloReply: string := "Hello there! How can I assist with your learning today?"
  const HelpReply: string := "I can help you with explanations, additional learning resources, or clarity on lesson topics. What specifically would you like help with?"
  const EncourageReply: string := "It's normal to find certain concepts challenging! Breaking it down into smaller parts and practicing with examples usually helps. Would you like me to explain any specific concept?"
  const EchoPrefix: string := "I'll echo what you said: "

  predicate Greets(lower: string) {
    Contains(lower, "hello") || Contains(lower, "hi")
  }

  predicate AsksHelp(lower: string) {
    Contains(lower, "help")
  }

  predicate Struggles(lower: string) {
    Contains(lower, "difficult") || Contains(lower, "hard") || Contains(lower, "confused")
  }

  /** Which reply a message gets. */
  datatype ReplyKind = HelloKind | HelpKind | EncourageKind | EchoKind

  /** The keywords are looked for in the lower-cased message, and the first
      matching group in the order greeting, help, difficulty wins. */
  function ReplyKindOf(message: string): (k: ReplyKind)
    ensures k == HelloKind <==> Greets(Lower(message))
    ensures k == HelpKind <==> !Greets(Lower(message)) && AsksHelp(Lower(message))
    ensures k == EncourageKind <==>
      !Greets(Lower(message)) && !AsksHelp(Lower(message)) && Struggles(Lower(message))
    ensures k == EchoKind <==>
      !Greets(Lower(message)) && !AsksHelp(Lower(message)) && !Struggles(Lower(message))
  {
    var lower := Lower(message);
    if Greets(lower) then HelloKind
    else if AsksHelp(lower) then HelpKind
    else if Struggles(lower) then EncourageKind
    else EchoKind
  }

  /** The bot's answer: a canned text, or the message as typed after the echo
      prefix. */
  function Reply(message: string): (r: string)
    ensures ReplyKindOf(message) == EchoKind ==> r == EchoPrefix + message && message <= r[|EchoPrefix|..]
  {
    match ReplyKindOf(message)
    case HelloKind => HelloReply
    case HelpKind => HelpReply
    case EncourageKind => EncourageReply
    case EchoKind => EchoPrefix + message
  }

  /** The choice of reply ignores ASCII case. */
  lemma ReplyKindIgnoresCase(message: string)
    ensures ReplyKindOf(Lower(message)) == ReplyKindOf(message)
  {
    LowerIdempotent(message);
  }

  /** A message in lower case already. */
  predicate NoUpper(s: string) {
    forall i :: 0 <= i < |s| ==> !IsUpper(s[i])
  }

  lemma LowerNoUpper(s: string)
    requires NoUpper(s)
    ensures Lower(s) == s
  {
  }

  /** `hi` is looked for anywhere, also inside a word: a message about a thing
      being hard that happens to contain `hi` gets the greeting. */
  const ThisIsHard: string := "this is hard"

  lemma GreetingInsideWord()
    ensures ReplyKindOf(ThisIsHard) == HelloKind
  {
    LowerNoUpper(ThisIsHard);
    ThisIsHardGreets(ThisIsHard);
  }

  lemma ThisIsHardGreets(s: string)
    requires s == ThisIsHard
    ensures Greets(s)
  {
    assert OccursAt(s, "hi", 1) by {
      assert s[1..3] == "hi";
    }
    OccurrenceContains(s, "hi", 1);
  }

  /** Help is looked for before difficulty. */
  const HardHelp: string := "help: hard"

  lemma HelpBeforeDifficulty()
    ensures ReplyKindOf(HardHelp) == HelpKind
  {
    LowerNoUpper(HardHelp);
    HardHelpAsksHelp(HardHelp);
    HardHelpNoGreeting(HardHelp);
  }

  lemma HardHelpAsksHelp(s: string)
    requires s == HardHelp
    ensures AsksHelp(s)
  {
    assert OccursAt(s, "help", 0) by {
      assert s[..4] == "help";
    }
    OccurrenceContains(s, "help", 0);
  }

  /** Neither `o` nor `i` occurs in the message. */
  lemma HardHelpNoGreeting(s: string)
    requires s == HardHelp
    ensures !Greets(s)
  {
    ContainsLast(s, "hello");
    ContainsLast(s, "hi");
  }

  function CountFrom(entries: seq<Entry>, who: Sender): nat {
    if |entries| == 0 then 0
    else CountFrom(entries[..|entries| - 1], who) + (if entries[|entries| - 1].sender == who then 1 else 0)
  }

  /** The widget's state: the input text, the history shown, and the replies
      whose timers have not fired yet. */
  class ChatWidget {
    var message: string
    var history: seq<Entry>
    var pending: seq<string>

    /** The history opens with the bot's greeting; every user entry is answered
        by one bot entry, either already shown or still pending. */
    ghost predicate Valid()
      reads this
    {
      && |history| > 0
      && history[0] == Entry(Bot, Greeting)
      && CountFrom(history, UserSender) + 1 == CountFrom(history, Bot) + |pending|
    }

    constructor ()
      ensures Valid()
      ensures message == "" && history == [Entry(Bot, Greeting)] && pending == []
    {
      message := "";
      history := [Entry(Bot, Greeting)];
      pending := [];
    }

    method SetMessage(text: string)
      modifies this
      ensures message == text && history == old(history) && pending == old(pending)
    {
      message := text;
    }

    /** `handleSend`: a blank message is ignored; otherwise it is added to the
        history as typed, its reply is scheduled and the input is cleared. */
    method Send()
      requires Valid()
      modifies this
      ensures Valid()
      ensures IsBlank(old(message)) ==>
        message == old(message) && history == old(history) && pending == old(pending)
      ensures !IsBlank(old(message)) ==>
        && history == old(history) + [Entry(UserSender, old(message))]
        && pending == old(pending) + [Reply(old(message))]
        && message == ""
    {
      if IsBlank(message) {
        return;
      }
      var prev := history;
      history := history + [Entry(UserSender, message)];
      assert history[..|history| - 1] == prev;
      pending := pending + [Reply(message)];
      message := "";
    }

    /** The oldest scheduled reply's timer fires: it is appended as a bot
        entry. */
    method DeliverReply()
      requires Valid() && |pending| > 0
      modifies this
      ensures Valid()
      ensures history == old(history) + [Entry(Bot, old(pending)[0])]
      ensures pending == old(pending)[1..] && message == old(message)
    {
      var prev := history;
      history := history + [Entry(Bot, pending[0])];
      assert history[..|history| - 1] == prev;
      pending := pending[1..];
    }
  }

  /** One exchange: a non-blank message is shown, then answered, right after
      the greeting. */
  method FirstExchange(text: string) returns (shown: seq<Entry>)
    requires !IsBlank(text)
    ensures shown == [Entry(Bot, Greeting), Entry(UserSender, text), Entry(Bot, Reply(text))]
  {
    var w := new ChatWidget();
    w.SetMessage(text);
    w.Send();
    w.DeliverReply();
    shown := w.history;
  }
}

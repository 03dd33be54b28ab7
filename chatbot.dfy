/**
 * Moodie, the parent's assistant: a message log that starts with a greeting,
 * a send action that appends the parent's message and, one second later,
 * the bot's reply, and the keyword classifier that picks the reply.
 * Lower-casing and trimming are restricted to ASCII.
 */
module Chatbot {

  datatype Sender = User | Bot

  /** A log entry; its id and timestamp come from the clock and are not modelled. */
  datatype Message = Message(text: string, sender: Sender)

  const Greeting: Message := Message("Hello! My name is Moodie, your assistant for today", Bot)

  // ---------------------------------------------------------------------
  // Strings

  function LowerChar(c: char): char
  {
    if 'A' <= c <= 'Z' then (c as int + 32) as char else c
  }

  /** ASCII `toLowerCase`. */
  function ToLower(s: string): (r: string)
    ensures |r| == |s| && forall i :: 0 <= i < |s| ==> r[i] == LowerChar(s[i])
  {
    if s == [] then [] else [LowerChar(s[0])] + ToLower(s[1..])
  }

  /** Lower-casing twice is lower-casing once. */
  lemma ToLowerIdempotent(s: string)
    ensures ToLower(ToLower(s)) == ToLower(s)
  {
  }

  /** The characters `trim` removes, restricted to ASCII. */
  predicate IsSpace(c: char)
  {
    c == ' ' || c == '\t' || c == '\n' || c == '\r' || c == '\U{000B}' || c == '\U{000C}'
  }

  /** True when `trim` leaves nothing. */
  predicate IsBlank(s: string)
  {
    forall i :: 0 <= i < |s| ==> IsSpace(s[i])
  }

  /** `hay.includes(needle)`. */
  function Contains(hay: string, needle: string): bool
    decreases |hay|
  {
    (|needle| <= |hay| && hay[..|needle|] == needle) || (hay != [] && Contains(hay[1..], needle))
  }

  /** The needle occurs in the haystack at position `i`. */
  predicate OccursAt(hay: string, needle: string, i: int)
  {
    0 <= i <= |hay| - |needle| && hay[i..i + |needle|] == needle
  }

  /** `Contains` holds exactly when the needle occurs at some position of the haystack. */
  lemma {:induction false} ContainsSpec(hay: string, needle: string)
    ensures Contains(hay, needle) <==> exists i :: OccursAt(hay, needle, i)
    decreases |hay|
  {
    if |needle| <= |hay| && hay[..|needle|] == needle {
      assert OccursAt(hay, needle, 0);
    }
    if hay == [] {
      if exists i :: OccursAt(hay, needle, i) {
        var i :| OccursAt(hay, needle, i);
        assert hay[..|needle|] == hay[i..i + |needle|];
      }
    } else {
      ContainsSpec(hay[1..], needle);
      forall i | OccursAt(hay[1..], needle, i)
        ensures OccursAt(hay, needle, i + 1)
      {
        OccursShift(hay, needle, i);
      }
      forall i | OccursAt(hay, needle, i) && i > 0
        ensures OccursAt(hay[1..], needle, i - 1)
      {
        OccursShift(hay, needle, i - 1);
      }
      if OccursAt(hay, needle, 0) {
        assert hay[..|needle|] == hay[0..|needle|];
      }
    }
  }

  /** An occurrence in the tail is an occurrence one position later in the whole. */
  lemma OccursShift(hay: string, needle: string, i: int)
    requires hay != [] && 0 <= i
    ensures OccursAt(hay[1..], needle, i) <==> OccursAt(hay, needle, i + 1)
  {
    if 0 <= i <= |hay| - 1 - |needle| {
      assert hay[1..][i..i + |needle|] == hay[i + 1..i + 1 + |needle|];
    }
  }

  // ---------------------------------------------------------------------
  // The classifier

  datatype Topic = Emotions | Progress | Help | Activity | Concern | General

  /** The topics with keywords, in the order the classifier tests them. */
  const Ranked: seq<Topic> := [Emotions, Progress, Help, Activity, Concern]

  function Keywords(t: Topic): seq<string>
  {
    match t
    case Emotions => ["emotion", "feeling"]
    case Progress => ["progress", "improvement"]
    case Help => ["help", "advice"]
    case Activity => ["activity", "game"]
    case Concern => ["concern", "worried"]
    case General => []
  }

  /** The lower-cased input mentions one of the topic's two keywords. */
  predicate Mentions(input: string, t: Topic)
  {
    var lower := ToLower(input);
    var ks := Keywords(t);
    |ks| == 2 && (Contains(lower, ks[0]) || Contains(lower, ks[1]))
  }

  /** The if/else-if chain of `generateBotResponse`, on the lower-cased input. */
  function Classify(input: string): Topic
  {
    ClassifyLower(ToLower(input))
  }

  function ClassifyLower(lower: string): Topic
  {
    if Contains(lower, "emotion") || Contains(lower, "feeling") then Emotions
    else if Contains(lower, "progress") || Contains(lower, "improvement") then Progress
    else if Contains(lower, "help") || Contains(lower, "advice") then Help
    else if Contains(lower, "activity") || Contains(lower, "game") then Activity
    else if Contains(lower, "concern") || Contains(lower, "worried") then Concern
    else General
  }

  function Reply(t: Topic): string
  {
    match t
    case Emotions => "I can help you understand your child's emotional patterns. Based on recent activity, I've noticed some interesting trends. Would you like me to elaborate on any specific emotion?"
    case Progress => "Your child is making great progress! Their attention scores have improved by 15% this week, and they're becoming more confident in identifying their emotions. Keep up the great work!"
    case Help => "I'm here to help! You can ask me about:\n• Your child's emotional patterns\n• Focus and attention metrics\n• Activity recommendations\n• Conversation starters\n• Weekly progress reports\n\nWhat would you like to know more about?"
    case Activity => "Based on your child's recent engagement, I recommend trying the Breathing Dragon game. It's been very effective for children working on emotional regulation and has a 90% completion rate!"
    case Concern => "I understand your concern. It's completely normal to have questions about your child's development. Could you tell me more about what specifically is worrying you? I'm here to provide guidance and support."
    case General => "That's a great question! As your AI assistant, I'm here to help you track and understand your child's emotional development. I analyze their activity patterns, identify trends, and provide personalized recommendations. What specific aspect would you like to explore?"
  }

  /** `generateBotResponse`. */
  function Respond(input: string): string
  {
    Reply(Classify(input))
  }

  /**
   * The classifier picks a ranked topic exactly when the input mentions it
   * and mentions no topic ranked before it, and the general reply exactly
   * when it mentions none.
   */
  lemma ClassifyByPriority(input: string)
    ensures forall i :: 0 <= i < |Ranked| ==>
      (Classify(input) == Ranked[i] <==> Mentions(input, Ranked[i]) && forall j :: 0 <= j < i ==> !Mentions(input, Ranked[j]))
    ensures Classify(input) == General <==> forall j :: 0 <= j < |Ranked| ==> !Mentions(input, Ranked[j])
  {
    assert Ranked[0] == Emotions && Ranked[1] == Progress && Ranked[2] == Help && Ranked[3] == Activity && Ranked[4] == Concern;
  }

  /** Inputs that differ only in ASCII letter case get the same reply. */
  lemma CaseInsensitive(a: string, b: string)
    requires ToLower(a) == ToLower(b)
    ensures Classify(a) == Classify(b) && Respond(a) == Respond(b)
  {
    assert Classify(a) == Classify(b);
  }

  /** Lower-casing the input first changes nothing. */
  lemma LowerCasedInputSameReply(input: string)
    ensures Respond(ToLower(input)) == Respond(input)
  {
    ToLowerIdempotent(input);
    CaseInsensitive(ToLower(input), input);
  }

  /** An input with a keyword gets that keyword's topic, unless a higher-ranked keyword is also there. */
  lemma KeywordSelects(input: string, i: nat, k: nat)
    requires i < |Ranked| && k < 2
    requires Contains(ToLower(input), Keywords(Ranked[i])[k])
    ensures Classify(input) == Ranked[i] || exists j :: 0 <= j < i && Classify(input) == Ranked[j]
  {
    ClassifyByPriority(input);
    assert Mentions(input, Ranked[i]);
    if Classify(input) != Ranked[i] {
      var j :| 0 <= j < i && Mentions(input, Ranked[j]);
      var j0 := FirstMentioned(input, j);
      assert Classify(input) == Ranked[j0];
    }
  }

  /** The first ranked topic up to `j` that the input mentions. */
  function FirstMentioned(input: string, j: nat): (r: nat)
    requires j < |Ranked| && Mentions(input, Ranked[j])
    ensures r <= j && Mentions(input, Ranked[r]) && forall m :: 0 <= m < r ==> !Mentions(input, Ranked[m])
    decreases j
  {
    if j == 0 then 0
    else if exists m :: 0 <= m < j && Mentions(input, Ranked[m]) then
      var m :| 0 <= m < j && Mentions(input, Ranked[m]);
      FirstMentioned(input, m)
    else j
  }

  // ---------------------------------------------------------------------
  // The conversation

  /** A snapshot of the chat: the log, the input box, and the inputs whose replies are still due, oldest first. */
  datatype ChatState = ChatState(messages: seq<Message>, input: string, pending: seq<string>)

  const Initial: ChatState := ChatState([Greeting], "", [])

  function SetInputStep(s: ChatState, v: string): ChatState
  {
    s.(input := v)
  }

  /** `handleSend`: a blank input does nothing; otherwise the input is logged as the parent's message, cleared, and its reply scheduled. */
  function SendStep(s: ChatState): ChatState
  {
    if IsBlank(s.input) then s
    else ChatState(s.messages + [Message(s.input, User)], "", s.pending + [s.input])
  }

  /** The one-second timeout: the reply to the oldest waiting input is logged. */
  function DeliverStep(s: ChatState): ChatState
    requires s.pending != []
  {
    ChatState(s.messages + [Message(Respond(s.pending[0]), Bot)], s.input, s.pending[1..])
  }

  /** `handleKeyPress`: Enter without Shift sends. */
  function KeyPressStep(s: ChatState, key: string, shift: bool): ChatState
  {
    if key == "Enter" && !shift then SendStep(s) else s
  }

  function CountFrom(ms: seq<Message>, who: Sender): nat
  {
    if ms == [] then 0 else CountFrom(ms[..|ms| - 1], who) + (if ms[|ms| - 1].sender == who then 1 else 0)
  }

  lemma CountAppend(ms: seq<Message>, m: Message, who: Sender)
    ensures CountFrom(ms + [m], who) == CountFrom(ms, who) + (if m.sender == who then 1 else 0)
  {
    assert (ms + [m])[..|ms|] == ms;
  }

  /**
   * The log starts with the greeting; every parent message has been answered
   * or is waiting for its reply; no waiting input is blank.
   */
  predicate Inv(s: ChatState)
  {
    && |s.messages| >= 1 && s.messages[0] == Greeting
    && CountFrom(s.messages, Bot) + |s.pending| == 1 + CountFrom(s.messages, User)
    && forall i :: 0 <= i < |s.pending| ==> !IsBlank(s.pending[i])
  }

  lemma InitialInv()
    ensures Inv(Initial)
  {
    assert Initial.messages[..0] == [];
  }

  lemma StepsKeepInv(s: ChatState, v: string, key: string, shift: bool)
    requires Inv(s)
    ensures Inv(SetInputStep(s, v)) && Inv(SendStep(s)) && Inv(KeyPressStep(s, key, shift))
    ensures s.pending != [] ==> Inv(DeliverStep(s))
  {
    CountAppend(s.messages, Message(s.input, User), Bot);
    CountAppend(s.messages, Message(s.input, User), User);
    if s.pending != [] {
      CountAppend(s.messages, Message(Respond(s.pending[0]), Bot), Bot);
      CountAppend(s.messages, Message(Respond(s.pending[0]), Bot), User);
    }
  }

  /**
   * A blank send changes nothing; any other appends exactly the parent's
   * message, clears the input and schedules exactly one reply.
   */
  lemma SendFacts(s: ChatState)
    ensures IsBlank(s.input) ==> SendStep(s) == s
    ensures !IsBlank(s.input) ==>
      var t := SendStep(s);
      t.messages == s.messages + [Message(s.input, User)] && t.input == "" && t.pending == s.pending + [s.input]
  {
  }

  /** A reply is computed from the input as it was sent, whatever was typed since. */
  lemma ReplyUsesSentInput(s: ChatState, v: string, later: string)
    requires !IsBlank(v)
    ensures var sent := SendStep(SetInputStep(s, v));
      var typed := SetInputStep(sent, later);
      |sent.pending| == |s.pending| + 1 && typed.pending == sent.pending && sent.pending[|s.pending|] == v
  {
  }

  /** Asking a question on a quiet chat logs it and, a second later, exactly the matching reply. */
  lemma QuestionAndAnswer(s: ChatState, v: string)
    requires s.pending == [] && !IsBlank(v)
    ensures var t := DeliverStep(SendStep(SetInputStep(s, v)));
      t.messages == s.messages + [Message(v, User), Message(Respond(v), Bot)] && t.pending == [] && t.input == ""
  {
  }

  /** Nothing is ever removed from or rewritten in the log. */
  lemma LogOnlyGrows(s: ChatState, v: string, key: string, shift: bool)
    ensures s.messages <= SetInputStep(s, v).messages && s.messages <= SendStep(s).messages
    ensures s.messages <= KeyPressStep(s, key, shift).messages
    ensures s.pending != [] ==> s.messages <= DeliverStep(s).messages && |DeliverStep(s).messages| == |s.messages| + 1
    ensures |SendStep(s).messages| <= |s.messages| + 1
  {
  }

  class Chat {
    var messages: seq<Message>
    var inputValue: string
    var pending: seq<string>

    function State(): ChatState
      reads this
    {
      ChatState(messages, inputValue, pending)
    }

    ghost predicate Valid()
      reads this
    {
      Inv(State())
    }

    constructor ()
      ensures State() == Initial && Valid()
    {
      messages, inputValue, pending := [Greeting], "", [];
      InitialInv();
    }

    method SetInput(v: string)
      requires Valid()
      modifies this
      ensures State() == SetInputStep(old(State()), v) && Valid()
    {
      StepsKeepInv(State(), v, "", false);
      inputValue := v;
    }

    method Send()
      requires Valid()
      modifies this
      ensures State() == SendStep(old(State())) && Valid()
    {
      StepsKeepInv(State(), "", "", false);
      if IsBlank(inputValue) {
        return;
      }
      messages := messages + [Message(inputValue, User)];
      pending := pending + [inputValue];
      inputValue := "";
    }

    method DeliverReply()
      requires Valid() && pending != []
      modifies this
      ensures State() == DeliverStep(old(State())) && Valid()
    {
      StepsKeepInv(State(), "", "", false);
      messages := messages + [Message(Respond(pending[0]), Bot)];
      pending := pending[1..];
    }

    method KeyPress(key: string, shift: bool)
      requires Valid()
      modifies this
      ensures State() == KeyPressStep(old(State()), key, shift) && Valid()
    {
      if key == "Enter" && !shift {
        Send();
      }
    }
  }
}

/**
 * The chat study page: it opens with one welcome message for the handed-in
 * material, appends each sent message and later a reply chosen by keywords,
 * and on completion reports how many messages followed the welcome.
 */
module ChatPage {
  import opened Opt
  import opened Text

  /** The part of the handed-in material the page reads: its title and its topics, if any. */
  datatype ChatContent = ChatContent(title: string, topics: Option<seq<string>>)

  datatype Sender = User | Assistant

  /** The four replies, each chosen by the first matching keyword test. */
  datatype ReplyKind = Greeting | Help | TopicList | RandomTopic

  /**
   * What a message says. Translated texts are named by their message:
   * the welcome for a title, the greeting and help replies, the topic reply
   * with the lines that follow its header, and the random-topic reply for
   * the picked topic (none when there are no topics).
   */
  datatype Body =
    | Welcome(title: string)
    | UserText(text: string)
    | GreetingReply
    | HelpReply
    | TopicsReply(lines: string)
    | RandomTopicReply(topic: Option<string>)

  datatype Message = Message(id: string, body: Body, sender: Sender)

  /** What "Complete" hands to the home page. */
  datatype ChatReport = ChatReport(studyType: string, contentTitle: Option<string>, messagesCount: int)

  /** The reply kind for a sent text: substring tests on its lower-case form, in this order. */
  function Classify(sent: string): (k: ReplyKind)
    ensures var m := Lower(sent);
      (k == Greeting <==> Contains(m, "hello") || Contains(m, "hi"))
      && (k == Help <==> !(Contains(m, "hello") || Contains(m, "hi")) && (Contains(m, "help") || Contains(m, "how")))
      && (k == TopicList <==> !(Contains(m, "hello") || Contains(m, "hi")) && !(Contains(m, "help") || Contains(m, "how"))
                              && (Contains(m, "topic") || Contains(m, "learn")))
  {
    var m := Lower(sent);
    if Contains(m, "hello") || Contains(m, "hi") then Greeting
    else if Contains(m, "help") || Contains(m, "how") then Help
    else if Contains(m, "topic") || Contains(m, "learn") then TopicList
    else RandomTopic
  }

  /** The tests look for substrings, so any word holding "hi", such as "This", is a greeting. */
  lemma ThisIsAGreeting()
    ensures Classify("This") == Greeting
  {
    var m := Lower("This");
    assert m[2] == 'i' && m[1] == 'h';
    assert m[1..3] == "hi";
    assert OccursAt(m, "hi", 1);
  }

  /** The lines under the topic header: "- " and the topic, one per line. */
  function TopicLines(topics: seq<string>): (r: string)
    ensures topics == [] ==> r == ""
    ensures |topics| == 1 ==> r == "- " + topics[0]
  {
    Join(seq(|topics|, i requires 0 <= i < |topics| => "- " + topics[i]), "\n")
  }

  /** Each further topic adds one line. */
  lemma TopicLinesAppend(topics: seq<string>, topic: string)
    requires topics != []
    ensures TopicLines(topics + [topic]) == TopicLines(topics) + "\n" + "- " + topic
  {
    var lines := seq(|topics|, i requires 0 <= i < |topics| => "- " + topics[i]);
    assert seq(|topics + [topic]|, i requires 0 <= i < |topics + [topic]| => "- " + (topics + [topic])[i])
           == lines + ["- " + topic];
    JoinAppend(lines, "\n", "- " + topic);
  }

  /**
   * The reply to `sent`, given the material's topics (absent topics count
   * as none) and the randomly picked index below their number.
   */
  function ReplyBody(sent: string, topics: Option<seq<string>>, pick: nat): (b: Body)
    requires var ts := topics.GetOr([]); ts == [] || pick < |ts|
    ensures Classify(sent) == Greeting <==> b == GreetingReply
    ensures Classify(sent) == Help <==> b == HelpReply
    ensures Classify(sent) == TopicList <==> b == TopicsReply(TopicLines(topics.GetOr([])))
    ensures Classify(sent) == RandomTopic ==>
      b == RandomTopicReply(if topics.GetOr([]) == [] then None else Some(topics.GetOr([])[pick]))
  {
    var ts := topics.GetOr([]);
    match Classify(sent)
    case Greeting => GreetingReply
    case Help => HelpReply
    case TopicList => TopicsReply(TopicLines(ts))
    case RandomTopic => RandomTopicReply(if ts == [] then None else Some(ts[pick]))
  }

  /** One welcome first and no other welcome after it. */
  predicate WelcomeFirst(messages: seq<Message>)
  {
    |messages| >= 1 && messages[0].body.Welcome? && messages[0].id == "welcome"
    && forall i :: 1 <= i < |messages| ==> !messages[i].body.Welcome?
  }

  /** The messages after the welcome. */
  function Exchanged(messages: seq<Message>): (r: seq<Message>)
    requires WelcomeFirst(messages)
    ensures |r| == |messages| - 1 && forall i :: 0 <= i < |r| ==> !r[i].body.Welcome?
  {
    messages[1..]
  }

  class Chat {
    var chatContent: Option<ChatContent>
    var messages: seq<Message>
    var inputMessage: string
    var isTyping: bool

    /** Once the material is there, the list starts with its one welcome message. */
    predicate Valid()
      reads this
    {
      chatContent.Some? ==> WelcomeFirst(messages)
    }

    constructor()
      ensures Valid() && chatContent == None && messages == [] && inputMessage == "" && !isTyping
    {
      chatContent := None;
      messages := [];
      inputMessage := "";
      isTyping := false;
    }

    /** The opening effect: with material the list is its welcome alone, without it the page goes home. */
    method Open(state: Option<ChatContent>) returns (redirect: Option<string>)
      requires Valid()
      modifies this
      ensures Valid()
      ensures state.Some? ==>
        redirect == None && chatContent == state
        && messages == [Message("welcome", Welcome(state.value.title), Assistant)]
      ensures state.None? ==> redirect == Some("/home") && chatContent == old(chatContent) && messages == old(messages)
      ensures inputMessage == old(inputMessage) && isTyping == old(isTyping)
    {
      if state.Some? {
        chatContent := state;
        messages := [Message("welcome", Welcome(state.value.title), Assistant)];
        redirect := None;
      } else {
        redirect := Some("/home");
      }
    }

    method ChangeInput(value: string)
      requires Valid()
      modifies this
      ensures Valid() && inputMessage == value
      ensures chatContent == old(chatContent) && messages == old(messages) && isTyping == old(isTyping)
    {
      inputMessage := value;
    }

    /**
     * `handleSendMessage`: blank input is ignored; otherwise exactly one user
     * message with the raw input is appended, the input clears and typing
     * starts. The sent text comes back for the delayed reply; `now` stands
     * for the clock reading that names the message.
     */
    method Send(now: nat) returns (sent: Option<string>)
      requires Valid()
      modifies this
      ensures Valid() && chatContent == old(chatContent)
      ensures AllSpace(old(inputMessage)) ==>
        sent == None && messages == old(messages) && inputMessage == old(inputMessage) && isTyping == old(isTyping)
      ensures !AllSpace(old(inputMessage)) ==>
        sent == Some(old(inputMessage))
        && messages == old(messages) + [Message(NatToString(now), UserText(old(inputMessage)), User)]
        && inputMessage == "" && isTyping
    {
      TrimEmptyIffAllSpace(inputMessage);
      if Trim(inputMessage) == "" {
        sent := None;
        return;
      }
      sent := Some(inputMessage);
      messages := messages + [Message(NatToString(now), UserText(inputMessage), User)];
      inputMessage := "";
      isTyping := true;
    }

    /** The delayed reply to `sent`: one assistant message is appended and typing ends. */
    method Reply(sent: string, now: nat, pick: nat)
      requires Valid() && chatContent.Some?
      requires var ts := chatContent.value.topics.GetOr([]); ts == [] || pick < |ts|
      modifies this
      ensures Valid() && chatContent == old(chatContent) && inputMessage == old(inputMessage) && !isTyping
      ensures messages == old(messages) + [Message(NatToString(now), ReplyBody(sent, chatContent.value.topics, pick), Assistant)]
    {
      var body := ReplyBody(sent, chatContent.value.topics, pick);
      messages := messages + [Message(NatToString(now), body, Assistant)];
      isTyping := false;
    }

    /** `handleComplete`: the count leaves out the welcome message. */
    method Complete() returns (report: ChatReport)
      requires Valid() && chatContent.Some?
      ensures report.studyType == "chatting" && report.contentTitle == Some(chatContent.value.title)
      ensures report.messagesCount == |Exchanged(messages)|
    {
      report := ChatReport("chatting", Some(chatContent.value.title), |messages| - 1);
    }
  }
}

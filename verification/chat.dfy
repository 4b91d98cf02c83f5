/**
 * The "Explainable Data Chat" rail: the message log, the canned assistant
 * reply and the golden-set proposal it may carry, and the panel's state
 * (log, input box, minimised flag).
 */
module Chat {
  import opened Wrappers
  import opened Text
  import opened Numbers

  datatype Role = User | Assistant

  /** A golden set the assistant offers to create. */
  datatype Proposal = Proposal(title: string, description: string, tables: seq<string>, confidence: nat)

  /**
   * One entry of the log; `timestamp` is a clock reading in milliseconds.
   * The source keeps the id as the decimal string of a number; the model
   * keeps the number, and `DecimalString(id)` is the string.
   */
  datatype ChatMessage = ChatMessage(
    id: nat,
    role: Role,
    content: string,
    timestamp: int,
    suggestions: Option<seq<string>>,
    proposal: Option<Proposal>)

  const Greeting: string :=
    "Hi! I can help you understand your data relationships and create golden sets. What would you like to explore?"

  const StarterSuggestions: seq<string> := [
    "Why do 1,142 accounts duplicate?",
    "Show join logic for Tickets\U{2192}Accounts",
    "Create customer 360 view"
  ]

  /** The log the rail mounts with: one greeting, dated five minutes before mounting. */
  function InitialMessages(mountTime: int): seq<ChatMessage> {
    [ChatMessage(1, Assistant, Greeting, mountTime - 300000, Some(StarterSuggestions), None)]
  }

  const DuplicateFinding: string :=
    "duplicates occur mainly due to email variations and missing phone standardization. The primary sources are Salesforce (67%) and ServiceNow (33%)"

  const CorrelationFinding: string :=
    "the relationship shows strong correlation based on customer_id matching across systems"

  const CustomerProposal: Proposal := Proposal(
    "Customer 360 Golden Set",
    "Unified customer view combining Salesforce accounts, PostgreSQL orders, and ServiceNow tickets",
    ["Customers", "Orders", "Tickets"],
    94)

  /** `input.toLowerCase().includes(word)`. */
  predicate Mentions(input: string, word: string) {
    Includes(Lower(input), word)
  }

  /** The simulated answer: the duplicate explanation when the question mentions duplicates. */
  function AssistantReply(input: string): string {
    "I found that " + (if Mentions(input, "duplicate") then DuplicateFinding else CorrelationFinding) + "."
  }

  /** The proposal attached to the answer: the Customer 360 golden set when the question mentions 360. */
  function ProposalFor(input: string): Option<Proposal> {
    if Mentions(input, "360") then Some(CustomerProposal) else None
  }

  /**
   * The send button is enabled, and Enter sends, only when the input holds
   * something other than white space (`CanSendIff`: its trimmed form is non-empty).
   */
  predicate CanSend(input: string) {
    !IsBlank(input)
  }

  /** The user's message, stamped with the clock reading `now`. */
  function UserMessage(input: string, now: nat): ChatMessage {
    ChatMessage(now, User, input, now, None, None)
  }

  /** The simulated answer to `input`, whose id is one past the user's. */
  function AssistantMessage(input: string, now: nat): ChatMessage {
    ChatMessage(now + 1, Assistant, AssistantReply(input), now, None, ProposalFor(input))
  }

  /** The log after a send with input `input` at clock reading `now`. */
  function AfterSend(log: seq<ChatMessage>, input: string, now: nat): seq<ChatMessage> {
    if CanSend(input) then log + [UserMessage(input, now), AssistantMessage(input, now)] else log
  }

  // ---------------------------------------------------------------------------
  // Properties of the reply and of the log

  /** Sending is possible exactly when the trimmed input is non-empty. */
  lemma CanSendIff(input: string)
    ensures CanSend(input) <==> Trim(input) != []
  {
    TrimEmptyIffBlank(input);
  }

  /** The two canned answers are different texts. */
  lemma FindingsDiffer()
    ensures "I found that " + DuplicateFinding + "." != "I found that " + CorrelationFinding + "."
  {
    assert |DuplicateFinding| != |CorrelationFinding|;
  }

  /** Two questions get the same answer exactly when both or neither mention duplicates. */
  lemma ReplyDependsOnlyOnDuplicate(a: string, b: string)
    ensures AssistantReply(a) == AssistantReply(b) <==> (Mentions(a, "duplicate") <==> Mentions(b, "duplicate"))
  {
    FindingsDiffer();
  }

  /** The answer and the proposal ignore the letter case of the question. */
  lemma ReplyIgnoresCase(input: string)
    ensures AssistantReply(Lower(input)) == AssistantReply(input)
    ensures ProposalFor(Lower(input)) == ProposalFor(input)
  {
    LowerIdempotent(input);
  }

  /** The proposal draws on three distinct sources and its confidence is a percentage. */
  lemma ProposalWellFormed(input: string)
    ensures ProposalFor(input).Some? ==>
              var p := ProposalFor(input).value;
              |p.tables| == 3 && p.tables[0] != p.tables[1] && p.tables[1] != p.tables[2]
              && p.tables[0] != p.tables[2] && p.confidence <= 100
  {
  }

  /** The two messages of one send have different id strings. */
  lemma SendIdsDistinct(input: string, now: nat)
    ensures DecimalString(UserMessage(input, now).id) != DecimalString(AssistantMessage(input, now).id)
  {
    DecimalStringInjective(now, now + 1);
  }

  /** `a` is the answer the rail gives to the user message `u`. */
  predicate Answers(u: ChatMessage, a: ChatMessage) {
    && u.role == User
    && u.timestamp >= 0
    && CanSend(u.content)
    && u == UserMessage(u.content, u.timestamp as nat)
    && a == AssistantMessage(u.content, u.timestamp as nat)
  }

  /** After its first entry, `log` is a run of pairs each related by `answers`. */
  predicate Paired<T>(log: seq<T>, answers: (T, T) -> bool) {
    && |log| % 2 == 1
    && forall i :: 1 <= i < |log| && i % 2 == 1 ==> answers(log[i], log[i + 1])
  }

  lemma PairedSnoc<T>(log: seq<T>, u: T, a: T, answers: (T, T) -> bool)
    requires Paired(log, answers) && answers(u, a)
    ensures Paired(log + [u, a], answers)
  {
    var log' := log + [u, a];
    forall i | 1 <= i < |log'| && i % 2 == 1 ensures answers(log'[i], log'[i + 1]) {
      if i < |log| {
        assert log'[i] == log[i] && log'[i + 1] == log[i + 1];
      }
    }
  }

  /**
   * The shape of every log the rail shows: the greeting, then question and
   * answer pairs, each answer being the reply to the question before it.
   */
  predicate Conversation(log: seq<ChatMessage>) {
    && Paired(log, Answers)
    && log[0].role == Assistant
  }

  lemma InitialIsConversation(mountTime: int)
    ensures Conversation(InitialMessages(mountTime))
  {
  }

  /** Appending a question and its answer keeps the log a conversation. */
  lemma ConversationSnoc(log: seq<ChatMessage>, u: ChatMessage, a: ChatMessage)
    requires Conversation(log) && Answers(u, a)
    ensures Conversation(log + [u, a])
  {
    PairedSnoc(log, u, a, Answers);
  }

  /** A send keeps the log a conversation. */
  lemma AfterSendKeepsConversation(log: seq<ChatMessage>, input: string, now: nat)
    requires Conversation(log)
    ensures Conversation(AfterSend(log, input, now))
  {
    if CanSend(input) {
      ConversationSnoc(log, UserMessage(input, now), AssistantMessage(input, now));
    }
  }

  /** A send never alters what is already in the log, and adds two messages or none. */
  lemma AfterSendExtends(log: seq<ChatMessage>, input: string, now: nat)
    ensures log <= AfterSend(log, input, now)
    ensures |AfterSend(log, input, now)| == |log| + (if Trim(input) == [] then 0 else 2)
  {
    CanSendIff(input);
  }

  /** In a conversation the questions sit at odd positions and the answers at even ones. */
  lemma ConversationRoles(log: seq<ChatMessage>, k: int)
    requires Conversation(log) && 1 <= k < |log|
    ensures k % 2 == 1 ==> log[k].role == User
    ensures k % 2 == 0 ==> log[k].role == Assistant && Answers(log[k - 1], log[k])
  {
    if k % 2 == 1 {
      assert Answers(log[k], log[k + 1]);
    } else {
      assert Answers(log[k - 1], log[k]);
    }
  }

  /** Every message after the greeting that the assistant sends answers the question right before it. */
  lemma AssistantFollowsQuestion(log: seq<ChatMessage>, k: int)
    requires Conversation(log)
    requires 1 <= k < |log| && log[k].role == Assistant
    ensures log[k - 1].role == User
    ensures log[k].content == AssistantReply(log[k - 1].content)
    ensures log[k].proposal == ProposalFor(log[k - 1].content)
  {
    ConversationRoles(log, k);
  }

  /** A question that contains a lower-case word mentions it. */
  lemma MentionsWord(p: string, word: string, q: string)
    requires Lower(word) == word
    ensures Mentions(p + word + q, word)
  {
    LowerAppend(p + word, q);
    LowerAppend(p, word);
    var l := Lower(p) + word + Lower(q);
    assert l[|p|..|p| + |word|] == word;
    IncludesAt(l, word, |p|);
  }

  /** A question lacking one letter of a word, in either case, does not mention the word. */
  lemma NotMentioned(input: string, word: string, c: char)
    requires c in word && c !in input
    requires 'a' <= c <= 'z' ==> (c as int - 32) as char !in input
    ensures !Mentions(input, word)
  {
    LowerLacks(input, c);
    MissingCharExcludes(Lower(input), word, c);
  }

  // Characters absent from the starter suggestions, one fact per lemma to keep
  // each proof over a string literal small.
  lemma FirstSuggestionLacks3() ensures '3' !in StarterSuggestions[0] {}
  lemma SecondSuggestionLacks3() ensures '3' !in StarterSuggestions[1] {}
  lemma SecondSuggestionLacksLowerP() ensures 'p' !in StarterSuggestions[1] {}
  lemma SecondSuggestionLacksUpperP() ensures 'P' !in StarterSuggestions[1] {}
  lemma ThirdSuggestionLacksLowerP() ensures 'p' !in StarterSuggestions[2] {}
  lemma ThirdSuggestionLacksUpperP() ensures 'P' !in StarterSuggestions[2] {}
  lemma FirstSuggestionSpelled() ensures StarterSuggestions[0] == "Why do 1,142 accounts " + "duplicate" + "?" {}
  lemma ThirdSuggestionSpelled() ensures StarterSuggestions[2] == "Create customer " + "360" + " view" {}

  /** The first starter suggestion asks about duplicates and not about 360. */
  lemma FirstSuggestionTopics()
    ensures Mentions(StarterSuggestions[0], "duplicate")
    ensures !Mentions(StarterSuggestions[0], "360")
  {
    FirstSuggestionSpelled();
    MentionsWord("Why do 1,142 accounts ", "duplicate", "?");
    FirstSuggestionLacks3();
    NotMentioned(StarterSuggestions[0], "360", '3');
  }

  /** The second starter suggestion asks neither about duplicates nor about 360. */
  lemma SecondSuggestionTopics()
    ensures !Mentions(StarterSuggestions[1], "duplicate")
    ensures !Mentions(StarterSuggestions[1], "360")
  {
    SecondSuggestionLacksLowerP();
    SecondSuggestionLacksUpperP();
    NotMentioned(StarterSuggestions[1], "duplicate", 'p');
    SecondSuggestionLacks3();
    NotMentioned(StarterSuggestions[1], "360", '3');
  }

  /** The third starter suggestion asks about 360 and not about duplicates. */
  lemma ThirdSuggestionTopics()
    ensures !Mentions(StarterSuggestions[2], "duplicate")
    ensures Mentions(StarterSuggestions[2], "360")
  {
    ThirdSuggestionLacksLowerP();
    ThirdSuggestionLacksUpperP();
    NotMentioned(StarterSuggestions[2], "duplicate", 'p');
    ThirdSuggestionMentions360();
  }

  lemma ThirdSuggestionMentions360()
    ensures Mentions(StarterSuggestions[2], "360")
  {
    ThirdSuggestionSpelled();
    MentionsWord("Create customer ", "360", " view");
  }

  /**
   * The three starter suggestions get the duplicate answer, the correlation
   * answer, and the correlation answer with the Customer 360 proposal.
   */
  lemma StarterSuggestionReplies()
    ensures AssistantReply(StarterSuggestions[0]) == "I found that " + DuplicateFinding + "."
    ensures ProposalFor(StarterSuggestions[0]) == None
    ensures AssistantReply(StarterSuggestions[1]) == "I found that " + CorrelationFinding + "."
    ensures ProposalFor(StarterSuggestions[1]) == None
    ensures AssistantReply(StarterSuggestions[2]) == "I found that " + CorrelationFinding + "."
    ensures ProposalFor(StarterSuggestions[2]) == Some(CustomerProposal)
  {
    FirstSuggestionTopics();
    SecondSuggestionTopics();
    ThirdSuggestionTopics();
  }

  // ---------------------------------------------------------------------------
  // The rail's state

  class ChatPanel {
    var isMinimized: bool
    var messages: seq<ChatMessage>
    var inputText: string

    /** Mounting the rail at clock reading `mountTime`. */
    constructor(mountTime: int)
      ensures !isMinimized && messages == InitialMessages(mountTime) && inputText == ""
      ensures Conversation(messages)
    {
      isMinimized := false;
      messages := InitialMessages(mountTime);
      inputText := "";
    }

    /**
     * `handleSendMessage` at clock reading `now`: ignored for blank input;
     * otherwise appends the question and its answer and clears the input.
     * `AfterSendKeepsConversation` shows the log stays a conversation.
     */
    method SendMessage(now: nat)
      modifies this
      ensures messages == AfterSend(old(messages), old(inputText), now)
      ensures inputText == if CanSend(old(inputText)) then "" else old(inputText)
      ensures isMinimized == old(isMinimized)
      ensures old(Conversation(messages)) ==> Conversation(messages)
    {
      var input := inputText;
      if Conversation(messages) {
        AfterSendKeepsConversation(messages, input, now);
      }
      if CanSend(input) {
        messages := messages + [UserMessage(input, now), AssistantMessage(input, now)];
        inputText := "";
      }
    }

    /** Typing in the input box. */
    method SetInput(text: string)
      modifies this
      ensures inputText == text
      ensures messages == old(messages) && isMinimized == old(isMinimized)
    {
      inputText := text;
    }

    /** `handleSuggestionClick`: the suggestion replaces the input; nothing is sent. */
    method SuggestionClick(suggestion: string)
      modifies this
      ensures inputText == suggestion
      ensures messages == old(messages) && isMinimized == old(isMinimized)
    {
      inputText := suggestion;
    }

    method Minimize()
      modifies this
      ensures isMinimized
      ensures messages == old(messages) && inputText == old(inputText)
    {
      isMinimized := true;
    }

    method Restore()
      modifies this
      ensures !isMinimized
      ensures messages == old(messages) && inputText == old(inputText)
    {
      isMinimized := false;
    }

    /**
     * `handleAcceptProposal`: reports the title of the golden set to create
     * when the message carries a proposal; the rail's state is untouched.
     */
    method AcceptProposal(message: ChatMessage) returns (created: Option<string>)
      ensures created.Some? <==> message.proposal.Some?
      ensures created.Some? ==> created.value == message.proposal.value.title
    {
      if message.proposal.Some? {
        created := Some(message.proposal.value.title);
      } else {
        created := None;
      }
    }
  }

  /** Clicking a starter suggestion and sending it yields the expected question and answer. */
  method SuggestThenSend(mountTime: int, now: nat) returns (log: seq<ChatMessage>)
    ensures |log| == 3
    ensures log[1].role == User && log[1].content == StarterSuggestions[2]
    ensures log[2].proposal == Some(CustomerProposal)
    ensures DecimalString(log[1].id) != DecimalString(log[2].id)
    ensures Conversation(log)
  {
    var panel := new ChatPanel(mountTime);
    var question := StarterSuggestions[2];
    panel.SuggestionClick(question);
    assert !IsJsSpace(question[0]);
    ghost var before := panel.messages;
    panel.SendMessage(now);
    AfterSendKeepsConversation(before, question, now);
    ThirdSuggestionTopics();
    SendIdsDistinct(question, now);
    log := panel.messages;
  }
}

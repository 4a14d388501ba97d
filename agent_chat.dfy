/**
 * The chat panel of the AI Agent Center: a message log, the text being typed and
 * the selected agent. Sending a non-blank text appends it as a user message and
 * clears the input; a scripted reply from the agent that was selected at send
 * time arrives later. The panel shows the user's messages and the selected
 * agent's replies.
 */
module AgentChat {
  import opened Wrappers
  import opened Seqs

  datatype AgentStatus = Active | Thinking | Idle

  datatype Agent = Agent(
    id: string,
    name: string,
    description: string,
    color: string,
    status: AgentStatus,
    lastActive: string,
    specialties: seq<string>)

  /** The three agents the selector offers, in order. */
  const Agents: seq<Agent> := [
    Agent("budget", "Budget Analyzer",
      "Analyzes spending patterns and recommends budget optimizations",
      "bg-blue-500", Active, "2 minutes ago",
      ["Expense tracking", "Budget optimization", "Spending patterns"]),
    Agent("savings", "Savings Strategist",
      "Creates personalized savings plans and emergency fund strategies",
      "bg-green-500", Thinking, "5 minutes ago",
      ["Emergency funds", "Goal-based saving", "Investment planning"]),
    Agent("debt", "Debt Reducer",
      "Develops optimized debt payoff strategies",
      "bg-red-500", Idle, "1 hour ago",
      ["Debt consolidation", "Payoff strategies", "Interest optimization"])
  ]

  /** The agents' ids, in the same order. */
  const AgentIds: seq<string> := ["budget", "savings", "debt"]

  /** A user message carries no agent; an agent message carries the id of the agent that wrote it. */
  datatype Message = UserMessage(content: string) | AgentMessage(content: string, agent: string)

  /** The scripted reply every send receives. */
  const ReplyText: string :=
    "I understand your question. Let me analyze your data and provide you with personalized recommendations based on your current financial situation."

  /** The conversation the panel opens with. */
  const InitialMessages: seq<Message> := [
    AgentMessage("Hello! I'm your Budget Analyzer AI. I've been analyzing your recent spending patterns and found some interesting insights. Would you like me to walk you through the key findings?", "budget"),
    UserMessage("Yes, I'd like to see what you found in my spending patterns."),
    AgentMessage("Great! I noticed you're spending about 35% more on dining out compared to last month. However, your transportation costs have decreased by 20%. Would you like specific recommendations to optimize your food budget while maintaining your lifestyle?", "budget")
  ]

  // ------------------------------------------------------------ agents

  predicate IsAgentId(id: string)
  {
    id in AgentIds
  }

  function HasId(id: string): Agent -> bool
  {
    (a: Agent) => a.id == id
  }

  /** `AI_AGENTS.find(agent => agent.id === selected)`. */
  function CurrentAgent(selected: string): (r: Option<Agent>)
    ensures r.Some? <==> IsAgentId(selected)
    ensures r.Some? ==> r.value in Agents && r.value.id == selected
  {
    assert forall i :: 0 <= i < |Agents| ==> Agents[i].id == AgentIds[i];
    FindFirst(Agents, HasId(selected))
  }

  /** Every agent the selector offers is found again by its id. */
  lemma OfferedAgentsFound()
    ensures forall i :: 0 <= i < |Agents| ==> CurrentAgent(Agents[i].id) == Some(Agents[i])
  {
    assert Agents[0].id == "budget" && Agents[1].id == "savings" && Agents[2].id == "debt";
    forall i | 0 <= i < |Agents| ensures CurrentAgent(Agents[i].id) == Some(Agents[i]) {
      var r := CurrentAgent(Agents[i].id);
      var k :| 0 <= k < |Agents| && Agents[k] == r.value;
    }
  }

  // ------------------------------------------------------------ trimming

  /** The characters String.prototype.trim removes: white space and line terminators. */
  predicate IsWhitespace(c: char)
  {
    c == '\t' || c == '\n' || c == '\U{000B}' || c == '\U{000C}' || c == '\r' || c == ' ' ||
    c == '\U{00A0}' || c == '\U{1680}' || ('\U{2000}' <= c <= '\U{200A}') ||
    c == '\U{2028}' || c == '\U{2029}' || c == '\U{202F}' || c == '\U{205F}' ||
    c == '\U{3000}' || c == '\U{FEFF}'
  }

  predicate IsBlank(s: string)
  {
    forall i :: 0 <= i < |s| ==> IsWhitespace(s[i])
  }

  /** Drops the leading white space: what is left is a suffix that starts with no white space. */
  function TrimStart(s: string): (r: string)
    ensures |r| <= |s| && r == s[|s| - |r|..]
    ensures IsBlank(s[..|s| - |r|])
    ensures r != [] ==> !IsWhitespace(r[0])
  {
    if s != [] && IsWhitespace(s[0]) then
      var r := TrimStart(s[1..]);
      assert s[..|s| - |r|] == [s[0]] + s[1..][..|s[1..]| - |r|];
      r
    else s
  }

  /** Drops the trailing white space: what is left is a prefix that ends with no white space. */
  function TrimEnd(s: string): (r: string)
    ensures |r| <= |s| && r == s[..|r|]
    ensures IsBlank(s[|r|..])
    ensures r != [] ==> !IsWhitespace(r[|r| - 1])
  {
    if s != [] && IsWhitespace(s[|s| - 1]) then
      var r := TrimEnd(s[..|s| - 1]);
      assert s[|r|..] == s[..|s| - 1][|r|..] + [s[|s| - 1]];
      r
    else s
  }

  /** String.prototype.trim. */
  function Trim(s: string): string
  {
    TrimEnd(TrimStart(s))
  }

  /** Trimming leaves nothing exactly when the text is all white space. */
  lemma TrimEmptyIffBlank(s: string)
    ensures Trim(s) == "" <==> IsBlank(s)
  {
    var t := TrimStart(s);
    if Trim(s) == "" {
      assert IsBlank(t[0..]);
      assert s == s[..|s| - |t|] + t;
    }
  }

  /** The send guard: the input trimmed is not empty, that is, it is not all white space. */
  function HasText(s: string): (r: bool)
    ensures r <==> !IsBlank(s)
  {
    TrimEmptyIffBlank(s);
    Trim(s) != ""
  }

  // ------------------------------------------------------------ the view

  function ShownTo(agent: string): Message -> bool
  {
    (m: Message) => m.UserMessage? || m.agent == agent
  }

  /** The conversation with `agent`: every user message and that agent's messages, in log order. */
  function AgentMessages(log: seq<Message>, agent: string): (r: seq<Message>)
    ensures forall m :: m in r <==> m in log && (m.UserMessage? || m.agent == agent)
  {
    Filter(log, ShownTo(agent))
  }

  /** A message appended to the log is appended to a view exactly when that view shows it. */
  lemma AgentMessagesAppend(log: seq<Message>, m: Message, agent: string)
    ensures AgentMessages(log + [m], agent)
         == AgentMessages(log, agent) + (if m.UserMessage? || m.agent == agent then [m] else [])
  {
    assert (log + [m])[..|log|] == log;
  }

  // ------------------------------------------------------------ the panel

  class ChatPanel {
    var selectedAgent: string
    var messages: seq<Message>
    var newMessage: string
    /** Agents whose reply is still due, one per send, oldest first (the pending timers). */
    var pendingReplies: seq<string>

    ghost predicate Valid()
      reads this
    {
      IsAgentId(selectedAgent) && forall i :: 0 <= i < |pendingReplies| ==> IsAgentId(pendingReplies[i])
    }

    /** The panel as it opens: budget agent selected, the opening conversation, empty input. */
    constructor ()
      ensures Valid()
      ensures selectedAgent == "budget" && messages == InitialMessages && newMessage == "" && pendingReplies == []
    {
      selectedAgent := "budget";
      messages := InitialMessages;
      newMessage := "";
      pendingReplies := [];
      assert Agents[0].id == "budget";
    }

    /** The selected agent's entry, which always exists. */
    function Current(): (a: Agent)
      reads this
      requires Valid()
      ensures a in Agents && a.id == selectedAgent
    {
      CurrentAgent(selectedAgent).value
    }

    /** What the chat window shows. */
    function View(): seq<Message>
      reads this
    {
      AgentMessages(messages, selectedAgent)
    }

    /** Clicking an agent in the selector. */
    method SelectAgent(id: string)
      requires Valid() && IsAgentId(id)
      modifies this
      ensures Valid() && selectedAgent == id
      ensures messages == old(messages) && newMessage == old(newMessage) && pendingReplies == old(pendingReplies)
    {
      selectedAgent := id;
    }

    /** Typing into the input field. */
    method Type(text: string)
      requires Valid()
      modifies this
      ensures Valid() && newMessage == text
      ensures messages == old(messages) && selectedAgent == old(selectedAgent) && pendingReplies == old(pendingReplies)
    {
      newMessage := text;
    }

    /**
     * Sending: a blank input changes nothing; otherwise the untrimmed text is
     * appended as a user message, the input is cleared, and a reply from the
     * agent selected now is scheduled.
     */
    method Send() returns (sent: bool)
      requires Valid()
      modifies this
      ensures Valid()
      ensures sent <==> !IsBlank(old(newMessage))
      ensures !sent ==> messages == old(messages) && newMessage == old(newMessage) && pendingReplies == old(pendingReplies)
      ensures sent ==> messages == old(messages) + [UserMessage(old(newMessage))] && newMessage == ""
      ensures sent ==> pendingReplies == old(pendingReplies) + [old(selectedAgent)]
      ensures selectedAgent == old(selectedAgent)
    {
      if !HasText(newMessage) {
        return false;
      }
      messages := messages + [UserMessage(newMessage)];
      pendingReplies := pendingReplies + [selectedAgent];
      newMessage := "";
      sent := true;
    }

    /**
     * The oldest scheduled reply arrives: the scripted reply, tagged with the
     * agent that was selected when its message was sent.
     */
    method DeliverReply() returns (agent: string)
      requires Valid() && pendingReplies != []
      modifies this
      ensures Valid()
      ensures agent == old(pendingReplies[0]) && IsAgentId(agent)
      ensures messages == old(messages) + [AgentMessage(ReplyText, agent)]
      ensures pendingReplies == old(pendingReplies[1..])
      ensures newMessage == old(newMessage) && selectedAgent == old(selectedAgent)
    {
      agent := pendingReplies[0];
      messages := messages + [AgentMessage(ReplyText, agent)];
      pendingReplies := pendingReplies[1..];
    }
  }

  /**
   * Send a text, switch to another agent before the reply arrives: the reply is
   * still tagged with the agent the text was sent to, so it shows in that
   * agent's conversation and not in the new one's.
   */
  method SendSwitchAndReply(p: ChatPanel, text: string, other: string)
    requires p.Valid() && p.pendingReplies == [] && !IsBlank(text) && IsAgentId(other)
    modifies p
    ensures p.Valid() && p.selectedAgent == other && p.newMessage == "" && p.pendingReplies == []
    ensures p.messages == old(p.messages) + [UserMessage(text), AgentMessage(ReplyText, old(p.selectedAgent))]
    ensures other != old(p.selectedAgent) ==> p.View() == AgentMessages(old(p.messages), other) + [UserMessage(text)]
  {
    ghost var first := p.selectedAgent;
    ghost var log := p.messages;
    p.Type(text);
    var sent := p.Send();
    p.SelectAgent(other);
    var agent := p.DeliverReply();
    assert agent == first;
    assert p.messages == (log + [UserMessage(text)]) + [AgentMessage(ReplyText, first)];
    AgentMessagesAppend(log, UserMessage(text), other);
    AgentMessagesAppend(log + [UserMessage(text)], AgentMessage(ReplyText, first), other);
  }
}

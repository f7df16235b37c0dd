/**
 * The agent picker (components/agent-selector.tsx): a fixed registry of three
 * agents, two pieces of view state (the selected id and whether the chat has
 * started), the three handlers that change them, and what the component
 * renders for a given state.
 */
module AgentSelector {
  import opened Wrappers
  import opened JsValue
  import opened ChatInterface

  datatype Agent = Agent(id: string, name: string, description: string, color: string)

  /** The Tailwind classes of a selected agent's card, and of the dot in its chat header, for one colour family. */
  function CardColor(hue: string): string {
    "bg-" + hue + "-100 border-" + hue + "-300"
  }

  function DotColor(hue: string): string {
    "bg-" + hue + "-500"
  }

  /** The registry, in display order. */
  const Agents: seq<Agent> := [
    Agent("quality", "Quality Agent",
          "Specialized in providing high-quality, well-researched responses with attention to detail.",
          CardColor("blue")),
    Agent("flkh", "FLKH Agent",
          "Focused on fast, efficient responses with specialized knowledge in technical domains.",
          CardColor("green")),
    Agent("omni", "Omni Agent",
          "Coordinates with multiple specialized agents to provide comprehensive responses to complex queries.",
          CardColor("purple"))
  ]

  /** The registry holds the three agents quality, flkh and omni, in that order, with distinct ids. */
  lemma RegistryShape()
    ensures |Agents| == 3
    ensures Agents[0].id == "quality" && Agents[1].id == "flkh" && Agents[2].id == "omni"
    ensures forall i, j :: 0 <= i < j < |Agents| ==> Agents[i].id != Agents[j].id
  {
  }

  /** `agents.find(a => a.id === id)`: the first agent with that id, if any. */
  function Find(agents: seq<Agent>, id: string): (r: Option<Agent>)
    ensures r.Some? <==> exists i :: 0 <= i < |agents| && agents[i].id == id
    ensures r.Some? ==> r.value.id == id
    ensures r.Some? ==> exists i :: 0 <= i < |agents| && agents[i] == r.value
                                     && forall j :: 0 <= j < i ==> agents[j].id != id
  {
    if agents == [] then None
    else if agents[0].id == id then Some(agents[0])
    else
      var r := Find(agents[1..], id);
      assert forall i :: 1 <= i < |agents| ==> agents[i] == agents[1..][i - 1];
      r
  }

  /** A registry id is always found, as the registry entry carrying it. */
  lemma FindRegistryId(k: int)
    requires 0 <= k < |Agents|
    ensures Find(Agents, Agents[k].id) == Some(Agents[k])
  {
  }

  /** JavaScript truthiness of `selectedAgent: string | null`: neither null nor the empty string. */
  predicate IsSet(selected: Option<string>)
    ensures IsSet(selected) <==> TruthyOpt(if selected.None? then None else Some(JStr(selected.value)))
  {
    selected.Some? && selected.value != ""
  }

  /** The colour of the dot shown beside the agent's name in the chat header: blue for quality, green for flkh, purple for any other id. */
  function IndicatorColor(agentId: string): (c: string)
    ensures c == DotColor("blue") <==> agentId == "quality"
    ensures c == DotColor("green") <==> agentId == "flkh"
    ensures c == DotColor("purple") <==> agentId != "quality" && agentId != "flkh"
  {
    if agentId == "quality" then DotColor("blue")
    else if agentId == "flkh" then DotColor("green")
    else DotColor("purple")
  }

  const Hues: seq<string> := ["blue", "green", "purple"]

  /** Every registry agent's header dot has the colour family of its selection card. */
  lemma {:induction false} IndicatorMatchesCard(k: int)
    requires 0 <= k < |Agents|
    ensures exists h :: 0 <= h < |Hues| && IndicatorColor(Agents[k].id) == DotColor(Hues[h]) && Agents[k].color == CardColor(Hues[h])
  {
    RegistryShape();
    assert IndicatorColor(Agents[k].id) == DotColor(Hues[k]);
  }

  /** What the component renders: the picker, the chat view of the looked-up agent, or a render failure when the id is not in the registry (`agent` is `undefined` and `agent.id` throws). */
  datatype Screen = Picker | ChatView(props: ChatProps, indicator: string) | RenderError

  /**
   * The render for a state. The chat view is shown exactly when the chat has
   * started and an agent is selected; it shows the registry agent whose id is
   * the selection, and passes no team mode to the chat.
   */
  function Render(selectedAgent: Option<string>, chatStarted: bool): (v: Screen)
    ensures v.Picker? <==> !(chatStarted && IsSet(selectedAgent))
    ensures v.RenderError? <==> chatStarted && IsSet(selectedAgent) && Find(Agents, selectedAgent.value).None?
    ensures v.ChatView? ==>
              && Find(Agents, selectedAgent.value).Some?
              && var agent := Find(Agents, selectedAgent.value).value;
              && agent.id == selectedAgent.value
              && v.props == ChatProps(selectedAgent.value, agent.name, None)
              && v.indicator == IndicatorColor(agent.id)
  {
    if chatStarted && IsSet(selectedAgent) then
      match Find(Agents, selectedAgent.value)
      case None => RenderError
      case Some(agent) => ChatView(ChatProps(selectedAgent.value, agent.name, None), IndicatorColor(agent.id))
    else
      Picker
  }

  /** A selection taken from the registry never fails to render. */
  lemma RegistrySelectionRenders(k: int, chatStarted: bool)
    requires 0 <= k < |Agents|
    ensures Render(Some(Agents[k].id), chatStarted) != RenderError
  {
  }

  /** Starting a chat with omni from the picker greets in collaborate mode, the chat's default. */
  lemma OmniChatGreetsInCollaborateMode()
    ensures Render(Some("omni"), true).ChatView?
    ensures var p := Render(Some("omni"), true).props;
            && p == ChatProps("omni", "Omni Agent", None)
            && WelcomeMessage(p.agentId, p.agentName, p.teamMode).content
               == JStr(Greeting(p.agentName) + ModeClause(Collaborate))
  {
  }

  class Selector {
    var selectedAgent: Option<string>
    var chatStarted: bool

    /** Nothing selected, chat not started. */
    constructor ()
      ensures selectedAgent == None && !chatStarted
    {
      selectedAgent := None;
      chatStarted := false;
    }

    /** The selection is empty or a registry id, as it is when it comes from the radio items. */
    predicate SelectionInRegistry()
      reads this
    {
      selectedAgent.None? || Find(Agents, selectedAgent.value).Some?
    }

    function View(): Screen
      reads this
    {
      Render(selectedAgent, chatStarted)
    }

    /** Choosing an agent selects it and always returns to the picker. */
    method HandleAgentSelect(value: string)
      modifies this
      ensures selectedAgent == Some(value) && !chatStarted
      ensures View() == Picker
      ensures SelectionInRegistry() <==> Find(Agents, value).Some?
    {
      selectedAgent := Some(value);
      chatStarted := false;
    }

    /** Starting the chat has an effect only when an agent is selected. */
    method StartChat()
      modifies this
      ensures selectedAgent == old(selectedAgent)
      ensures chatStarted == (old(chatStarted) || IsSet(old(selectedAgent)))
      ensures SelectionInRegistry() == old(SelectionInRegistry())
      ensures SelectionInRegistry() ==> View() != RenderError
    {
      if IsSet(selectedAgent) {
        chatStarted := true;
      }
    }

    /** "Change Agent": back to the picker, keeping the selection. */
    method ResetSelection()
      modifies this
      ensures !chatStarted && selectedAgent == old(selectedAgent)
      ensures View() == Picker
    {
      chatStarted := false;
    }
  }
}

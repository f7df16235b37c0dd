/**
 * The chat view of one agent (components/chat-interface.tsx): its initial
 * greeting, the submission handler that posts the user's text to the agent's
 * endpoint, the normalizer that turns a decoded reply body into message
 * content, and the canned texts used when the call fails or the agent has no
 * endpoint.
 *
 * The network call itself is not modelled: its result enters as an `Outcome`.
 * `JSON.stringify` enters as the uninterpreted function `stringify`.
 */
module ChatInterface {
  import opened Wrappers
  import opened JsValue
  import opened JsString

  datatype Role = User | Assistant

  /** The chat view's props; an absent team mode defaults to collaborate. */
  datatype ChatProps = ChatProps(agentId: string, agentName: string, teamMode: Option<TeamMode>)

  /** A chat message; its timestamp is left out. `content` is whatever the code stored, which need not be a string. */
  datatype Message = Message(id: string, content: Json, role: Role)

  datatype TeamMode = Collaborate | Coordinate | Route

  function ModeName(m: TeamMode): string {
    match m
    case Collaborate => "collaborate"
    case Coordinate => "coordinate"
    case Route => "route"
  }

  /** What the awaited network call produced: a decoded body with a 2xx status, a non-2xx status, or a thrown error (a failed fetch or an undecodable body). */
  datatype Outcome = Ok(body: Json) | NotOk(status: int) | Thrown

  /** One POST: the endpoint path under the fixed host, and the JSON payload's fields. */
  datatype Request = Request(path: string, query: string, modelId: string, teamMode: Option<TeamMode>)

  const ModelId := "o3-mini"
  const SafetyPath := "/safety/ask"
  const QualityPath := "/quality/ask"
  const TeamPath := "/team/ask"

  /** The agent ids that have an endpoint; every other id gets a local acknowledgement. */
  const NetworkedAgents: set<string> := {"flkh", "quality", "omni"}

  const ErrorText := "Sorry, there was an error processing your request. Please try again later."
  const UnexpectedFormat := "Received response in an unexpected format."
  const FallbackHeading := "## Analysis from Multiple Experts"

  /** The properties of a reply body tried in order by the normalizer. */
  const CandidateKeys: seq<string> := ["response", "message", "answer"]

  // ---------------------------------------------------------------------------
  // Greeting

  function Greeting(agentName: string): string {
    "Hello! I'm the " + agentName + ". How can I assist you today?"
  }

  function ModeClause(mode: TeamMode): string {
    " I'm operating in " + ModeName(mode) + " mode."
  }

  /** The welcome text: the greeting naming the agent, followed by the team-mode clause exactly when the agent is `omni`. */
  function WelcomeText(agentId: string, agentName: string, mode: TeamMode): (r: string)
    ensures |Greeting(agentName)| <= |r| && r[..|Greeting(agentName)|] == Greeting(agentName)
    ensures agentId == "omni" <==> |r| > |Greeting(agentName)|
    ensures agentId == "omni" ==> r[|Greeting(agentName)|..] == ModeClause(mode)
  {
    Greeting(agentName) + (if agentId == "omni" then ModeClause(mode) else "")
  }

  /**
   * The single message a fresh chat view starts with: an assistant message
   * with id "welcome" whose text greets by name, and for omni goes on to name
   * the team mode, collaborate when none is given.
   */
  function WelcomeMessage(agentId: string, agentName: string, teamMode: Option<TeamMode>): (m: Message)
    ensures m.id == "welcome" && m.role == Assistant && m.content.JStr?
    ensures agentId != "omni" ==> m.content.s == Greeting(agentName)
    ensures agentId == "omni" && teamMode.None? ==> m.content.s == Greeting(agentName) + ModeClause(Collaborate)
    ensures agentId == "omni" && teamMode.Some? ==> m.content.s == Greeting(agentName) + ModeClause(teamMode.value)
  {
    Message("welcome", JStr(WelcomeText(agentId, agentName, teamMode.GetOr(Collaborate))), Assistant)
  }

  // ---------------------------------------------------------------------------
  // Response normalizer

  /** Candidate `i` is the first truthy one among the candidate properties of `data`. */
  predicate FirstTruthyCandidate(data: Json, i: int)
  {
    && 0 <= i < |CandidateKeys|
    && TruthyOpt(Get(data, CandidateKeys[i]))
    && forall j :: 0 <= j < i ==> !TruthyOpt(Get(data, CandidateKeys[j]))
  }

  /**
   * The content of an assistant message built from a successful reply body.
   * A string is kept as it is; an object or an array (both JavaScript objects)
   * yields its first truthy `response`, `message` or `answer` property, of
   * whatever type, and otherwise its serialization; `null`, numbers and
   * booleans yield the unexpected-format text.
   */
  function Normalize(data: Json, stringify: Json -> string): (r: Json)
    ensures data.JStr? ==> r == data
    ensures (data.JNull? || data.JBool? || data.JNum?) ==> r == JStr(UnexpectedFormat)
    ensures (data.JObj? || data.JArr?) ==>
              || (exists i :: FirstTruthyCandidate(data, i) && Get(data, CandidateKeys[i]) == Some(r))
              || ((forall j :: 0 <= j < |CandidateKeys| ==> !TruthyOpt(Get(data, CandidateKeys[j])))
                  && r == JStr(stringify(data)))
  {
    if data.JStr? then
      data
    else if Truthy(data) && (data.JObj? || data.JArr?) then
      var picked := Or(Or(Or(Get(data, "response"), Get(data, "message")), Get(data, "answer")),
                       Some(JStr(stringify(data))));
      assert TruthyOpt(Get(data, CandidateKeys[0])) ==> FirstTruthyCandidate(data, 0);
      assert TruthyOpt(Get(data, CandidateKeys[1])) ==> FirstTruthyCandidate(data, 0) || FirstTruthyCandidate(data, 1);
      assert TruthyOpt(Get(data, CandidateKeys[2])) ==>
        FirstTruthyCandidate(data, 0) || FirstTruthyCandidate(data, 1) || FirstTruthyCandidate(data, 2);
      picked.value
    else
      JStr(UnexpectedFormat)
  }

  /** An array has no `response`, `message` or `answer` property, so it is shown serialized. */
  lemma ArrayBodyIsSerialized(items: seq<Json>, stringify: Json -> string)
    ensures Normalize(JArr(items), stringify) == JStr(stringify(JArr(items)))
  {
  }

  /** A truthy non-string property is passed through as it is: `{"response": 42}` yields the number 42. */
  lemma NonStringPropertyPassesThrough(stringify: Json -> string)
    ensures Normalize(JObj(map["response" := JNum(42)]), stringify) == JNum(42)
  {
  }

  /** An empty `response` is skipped: `{"response": "", "message": "hi"}` yields "hi". */
  lemma EmptyPropertySkipped(stringify: Json -> string)
    ensures Normalize(JObj(map["response" := JStr(""), "message" := JStr("hi")]), stringify) == JStr("hi")
  {
  }

  // ---------------------------------------------------------------------------
  // Canned replies

  function Quoted(input: string): string {
    "\"" + input + "\""
  }

  const FallbackLead := "I'm coordinating with multiple specialized agents to address: "
  const FallbackIntro := ". Here's what our collective intelligence has determined:\n\n"
  const FallbackBody :=
    "\n\n* The **Technical Team** has analyzed your query and provided insights"
    + "\n* Our **Research Division** has gathered relevant information from various sources"
    + "\n* The **Domain Specialists** have applied their expertise to your specific question"
    + "\n\nThis collaborative approach allows us to provide a more comprehensive response than any single agent could."
    + "\n\n> Note: We're currently experiencing some technical difficulties with our backend services."
    + " This is a synthesized response based on typical agent coordination patterns."
    + "\n\nWould you like me to focus on any particular aspect of your query?"

  /**
   * The omni agent's synthesized reply when its team endpoint fails: the fixed
   * template with only the user's text spliced in, opening with the lead
   * sentence and closing with the list of expert teams.
   */
  function FallbackText(input: string): (r: string)
    ensures |r| == |input| + 2 + |FallbackLead| + |FallbackIntro| + |FallbackHeading| + |FallbackBody|
    ensures r[..|FallbackLead|] == FallbackLead
    ensures r[|r| - |FallbackBody|..] == FallbackBody
  {
    FallbackLead + Quoted(input) + FallbackIntro + FallbackHeading + FallbackBody
  }

  const AckLead := "Thank you for your message. I'll help you with "
  const AckTail := " right away."

  /** The reply to an agent id that has no endpoint: a fixed sentence with only the user's text spliced in. */
  function Acknowledgement(input: string): (r: string)
    ensures |r| == |AckLead| + |input| + 2 + |AckTail|
    ensures r[..|AckLead|] == AckLead
    ensures r[|r| - |AckTail|..] == AckTail
  {
    AckLead + Quoted(input) + AckTail
  }

  /** The omni fallback quotes the user's text and carries the multi-expert heading. */
  lemma {:induction false} FallbackQuotesQuery(input: string)
    ensures Contains(FallbackText(input), Quoted(input))
    ensures Contains(FallbackText(input), FallbackHeading)
  {
    var r := FallbackText(input);
    var q := |FallbackLead|;
    var h := q + |Quoted(input)| + |FallbackIntro|;
    assert r[q..q + |Quoted(input)|] == Quoted(input);
    assert OccursAt(r, Quoted(input), q);
    assert r[h..h + |FallbackHeading|] == FallbackHeading;
    assert OccursAt(r, FallbackHeading, h);
  }

  /** The acknowledgement quotes the user's text. */
  lemma {:induction false} AcknowledgementQuotesQuery(input: string)
    ensures Contains(Acknowledgement(input), Quoted(input))
  {
    var r := Acknowledgement(input);
    var q := |AckLead|;
    assert r[q..q + |Quoted(input)|] == Quoted(input);
    assert OccursAt(r, Quoted(input), q);
  }

  // ---------------------------------------------------------------------------
  // Routing and replies

  /** The request `handleSubmit` sends for `agentId`, or `None` when the id has no endpoint. */
  function RequestFor(agentId: string, input: string, mode: TeamMode): (r: Option<Request>)
    ensures r.Some? <==> agentId in NetworkedAgents
    ensures r.Some? ==> r.value.query == input && r.value.modelId == ModelId
    ensures r.Some? ==> (r.value.teamMode.Some? <==> agentId == "omni")
    ensures r.Some? && r.value.teamMode.Some? ==> r.value.teamMode.value == mode
    ensures r.Some? ==> r.value.path in {SafetyPath, QualityPath, TeamPath}
  {
    if agentId == "flkh" then Some(Request(SafetyPath, input, ModelId, None))
    else if agentId == "quality" then Some(Request(QualityPath, input, ModelId, None))
    else if agentId == "omni" then Some(Request(TeamPath, input, ModelId, Some(mode)))
    else None
  }

  /** Distinct agents post to distinct endpoints, and each agent to its own one. */
  lemma RoutesAreDistinct(input: string, mode: TeamMode)
    ensures RequestFor("flkh", input, mode).value.path == SafetyPath
    ensures RequestFor("quality", input, mode).value.path == QualityPath
    ensures RequestFor("omni", input, mode).value.path == TeamPath
    ensures SafetyPath != QualityPath && QualityPath != TeamPath && SafetyPath != TeamPath
  {
  }

  /**
   * The content of the one assistant message appended once a submission with
   * text `input` settles. Content other than text arises only from a
   * successful call to an endpoint.
   */
  function Reply(agentId: string, input: string, outcome: Outcome, stringify: Json -> string): (r: Json)
    ensures r.JStr? || (agentId in NetworkedAgents && outcome.Ok?)
  {
    if agentId == "flkh" || agentId == "quality" then
      match outcome
      case Ok(body) => Normalize(body, stringify)
      case _ => JStr(ErrorText)
    else if agentId == "omni" then
      match outcome
      case Ok(body) => Normalize(body, stringify)
      case _ => JStr(FallbackText(input))
    else
      JStr(Acknowledgement(input))
  }

  /** A successful call to any endpoint shows the normalized body. */
  lemma SuccessShowsNormalizedBody(agentId: string, input: string, body: Json, stringify: Json -> string)
    requires agentId in NetworkedAgents
    ensures Reply(agentId, input, Ok(body), stringify) == Normalize(body, stringify)
  {
  }

  /** A non-2xx status is handled exactly like a thrown error, whatever the status. */
  lemma StatusFailureLikeThrown(agentId: string, input: string, status: int, stringify: Json -> string)
    ensures Reply(agentId, input, NotOk(status), stringify) == Reply(agentId, input, Thrown, stringify)
  {
  }

  /**
   * On failure, the safety and quality agents show the fixed error text, and
   * the omni agent its fallback, which quotes the user's text and carries the
   * multi-expert heading.
   */
  lemma FailureReply(agentId: string, input: string, outcome: Outcome, stringify: Json -> string)
    requires !outcome.Ok?
    ensures agentId == "flkh" || agentId == "quality" ==> Reply(agentId, input, outcome, stringify) == JStr(ErrorText)
    ensures agentId == "omni" ==>
              var r := Reply(agentId, input, outcome, stringify);
              r == JStr(FallbackText(input)) && Contains(r.s, Quoted(input)) && Contains(r.s, FallbackHeading)
  {
    FallbackQuotesQuery(input);
  }

  /** An id without an endpoint is acknowledged, quoting the user's text, whatever the outcome. */
  lemma UnknownAgentAcknowledged(agentId: string, input: string, outcome: Outcome, stringify: Json -> string)
    requires agentId !in NetworkedAgents
    ensures Reply(agentId, input, outcome, stringify) == JStr(Acknowledgement(input))
    ensures Contains(Reply(agentId, input, outcome, stringify).s, Quoted(input))
  {
    AcknowledgementQuotesQuery(input);
  }

  // ---------------------------------------------------------------------------
  // The chat view's state

  class ChatSession {
    const agentId: string
    const agentName: string
    const teamMode: TeamMode
    const stringify: Json -> string
    var messages: seq<Message>
    var input: string
    var isLoading: bool

    /** Mounting the view: one welcome message, an empty input, not loading. */
    constructor (agentId: string, agentName: string, teamMode: Option<TeamMode>, stringify: Json -> string)
      ensures this.agentId == agentId && this.agentName == agentName && this.stringify == stringify
      ensures this.teamMode == teamMode.GetOr(Collaborate)
      ensures messages == [WelcomeMessage(agentId, agentName, teamMode)]
      ensures input == "" && !isLoading
    {
      this.agentId := agentId;
      this.agentName := agentName;
      this.teamMode := teamMode.GetOr(Collaborate);
      this.stringify := stringify;
      messages := [WelcomeMessage(agentId, agentName, teamMode)];
      input := "";
      isLoading := false;
    }

    /** The send button is enabled only when idle and the input is not blank. */
    predicate SendEnabled()
      reads this
    {
      !isLoading && !IsBlank(input)
    }

    /** Typing into the text area replaces the input and nothing else. */
    method OnInputChange(text: string)
      modifies this
      ensures input == text
      ensures messages == old(messages) && isLoading == old(isLoading)
    {
      input := text;
    }

    /**
     * The part of `handleSubmit` before the network call. Blank input does
     * nothing; otherwise the raw input is appended as a user message, the input
     * is cleared and the loading flag raised, and the text is returned for the
     * rest of the handler. A loading session is not refused.
     */
    method BeginSubmit(userId: string) returns (captured: Option<string>)
      modifies this
      ensures old(SendEnabled()) ==> captured.Some?
      ensures IsBlank(old(input)) ==>
                captured == None && messages == old(messages) && input == old(input) && isLoading == old(isLoading)
      ensures !IsBlank(old(input)) ==>
                && captured == Some(old(input))
                && messages == old(messages) + [Message(userId, JStr(old(input)), User)]
                && input == "" && isLoading
    {
      if IsBlank(input) {
        return None;
      }
      captured := Some(input);
      messages := messages + [Message(userId, JStr(input), User)];
      input := "";
      isLoading := true;
    }

    /**
     * The part of `handleSubmit` after the network call, for the text
     * `query` captured before the input was cleared: the request it sent, one
     * assistant message appended, and the loading flag lowered.
     */
    method SettleSubmit(query: string, outcome: Outcome, replyId: string) returns (sent: Option<Request>)
      modifies this
      ensures sent == RequestFor(agentId, query, teamMode)
      ensures messages == old(messages) + [Message(replyId, Reply(agentId, query, outcome, stringify), Assistant)]
      ensures !isLoading && input == old(input)
      ensures |messages| == |old(messages)| + 1 && messages[|old(messages)|].role == Assistant
    {
      if agentId == "flkh" {
        sent := Some(Request(SafetyPath, query, ModelId, None));
        if outcome.Ok? {
          messages := messages + [Message(replyId, Normalize(outcome.body, stringify), Assistant)];
        } else {
          messages := messages + [Message(replyId, JStr(ErrorText), Assistant)];
        }
        isLoading := false;
      } else if agentId == "quality" {
        sent := Some(Request(QualityPath, query, ModelId, None));
        if outcome.Ok? {
          messages := messages + [Message(replyId, Normalize(outcome.body, stringify), Assistant)];
        } else {
          messages := messages + [Message(replyId, JStr(ErrorText), Assistant)];
        }
        isLoading := false;
      } else if agentId == "omni" {
        var useBackup := false;
        sent := Some(Request(TeamPath, query, ModelId, Some(teamMode)));
        match outcome {
          case NotOk(_) =>
            useBackup := true;
          case Thrown =>
            useBackup := true;
          case Ok(body) =>
            messages := messages + [Message(replyId, Normalize(body, stringify), Assistant)];
        }
        if useBackup {
          messages := messages + [Message(replyId, JStr(FallbackText(query)), Assistant)];
        }
        isLoading := false;
      } else {
        sent := None;
        messages := messages + [Message(replyId, JStr(Acknowledgement(query)), Assistant)];
        isLoading := false;
      }
    }

    /**
     * `handleSubmit` run to completion with no other event in between: blank
     * input changes nothing; otherwise exactly two messages are appended, the
     * user's raw text and then the reply, the input is empty and the session
     * is no longer loading.
     */
    method HandleSubmit(userId: string, outcome: Outcome, replyId: string) returns (sent: Option<Request>)
      modifies this
      ensures IsBlank(old(input)) ==>
                sent == None && messages == old(messages) && input == old(input) && isLoading == old(isLoading)
      ensures !IsBlank(old(input)) ==>
                && sent == RequestFor(agentId, old(input), teamMode)
                && messages == old(messages) + [Message(userId, JStr(old(input)), User),
                                                Message(replyId, Reply(agentId, old(input), outcome, stringify), Assistant)]
                && input == "" && !isLoading
    {
      var captured := BeginSubmit(userId);
      if captured.None? {
        return None;
      }
      sent := SettleSubmit(captured.value, outcome, replyId);
    }
  }

  /**
   * Enter pressed twice with fresh text before the first reply arrives: both
   * submissions start, since the handler does not look at the loading flag,
   * and the first to settle lowers the flag while the second is still pending.
   */
  method OverlappingSubmits(agentId: string, agentName: string, stringify: Json -> string,
                            first: string, second: string, o1: Outcome, o2: Outcome)
    returns (loadingWhileSecondPending: bool, count: nat)
    requires !IsBlank(first) && !IsBlank(second)
    ensures !loadingWhileSecondPending
    ensures count == 5
  {
    var s := new ChatSession(agentId, agentName, None, stringify);
    s.OnInputChange(first);
    var a := s.BeginSubmit("1");
    s.OnInputChange(second);
    var b := s.BeginSubmit("2");
    var _ := s.SettleSubmit(a.value, o1, "3");
    loadingWhileSecondPending := s.isLoading;
    var _ := s.SettleSubmit(b.value, o2, "4");
    count := |s.messages|;
  }
}

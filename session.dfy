/** The two conversation logs kept in the page's session state, and the Generate and
    New Chat handlers that update them. */
module ChatSession {
  import opened Chat
  import opened PlanRequest

  /** The active log (`messages`) and the archive (`history`). */
  datatype State = State(messages: seq<Message>, history: seq<Message>)

  /** Which of the two session-state entries already exist when a run of the page
      starts, and with what value. */
  datatype Stored = Stored(messages: Option<seq<Message>>, history: Option<seq<Message>>)

  /** What a Generate action did: nothing, or it called the agent on `input` and the
      agent either replied or raised. */
  datatype SubmitOutcome = Skipped | Answered(input: seq<Message>, reply: string) | AgentRaised(input: seq<Message>)

  /** The form button (if any) that triggered a run of the page. */
  datatype Button = NoButton | GenerateButton | NewChatButton

  /** One run of the page: the button pressed, the form as submitted, and the agent
      as it will behave on whatever input it is given. */
  datatype Event = Event(button: Button, form: Form, agent: seq<Message> -> AgentOutcome)

  /** The list the agent is called with: the active log, first emptied into the
      archive when it holds exactly two entries, followed by the new user request. */
  function AgentInput(s: State, f: Form): (input: seq<Message>)
    ensures |input| > 0 && input[|input| - 1] == Message(User, Request(f))
    ensures |s.messages| == 0 || |s.messages| == 2 ==> input == [Message(User, Request(f))]
    ensures |s.messages| != 2 ==> input[..|input| - 1] == s.messages
  {
    (if |s.messages| == 2 then [] else s.messages) + [Message(User, Request(f))]
  }

  /** The state after a Generate action. */
  function AfterSubmit(s: State, f: Form, agent: seq<Message> -> AgentOutcome): (r: State)
    ensures !Ready(f) ==> r == s
    ensures s.history <= r.history
    ensures Ready(f) && |s.messages| == 2 ==> r.history == s.history + s.messages
    ensures |s.messages| != 2 ==> r.history == s.history
    ensures Ready(f) ==> AgentInput(s, f) <= r.messages
    ensures Ready(f) && |s.messages| != 2 ==> s.messages <= r.messages
    ensures Ready(f) && agent(AgentInput(s, f)).Raised? ==> r.messages == AgentInput(s, f)
    ensures Ready(f) && agent(AgentInput(s, f)).Reply? ==>
              |r.messages| == |AgentInput(s, f)| + 1 &&
              r.messages[|r.messages| - 2] == Message(User, Request(f)) &&
              r.messages[|r.messages| - 1] == Message(Assistant, agent(AgentInput(s, f)).output)
    ensures Ready(f) && agent(AgentInput(s, f)).Reply? && (|s.messages| == 0 || |s.messages| == 2) ==>
              |r.messages| == 2
  {
    if !Ready(f) then s
    else
      var history := if |s.messages| == 2 then s.history + s.messages else s.history;
      var input := AgentInput(s, f);
      match agent(input)
      case Raised => State(input, history)
      case Reply(output) => State(input + [Message(Assistant, output)], history)
  }

  /** What a Generate action reports: whether the agent was called, on what, and how
      the call ended. */
  function SubmitResult(s: State, f: Form, agent: seq<Message> -> AgentOutcome): (o: SubmitOutcome)
    ensures o.Skipped? <==> !Ready(f)
    ensures !o.Skipped? ==> o.input == AgentInput(s, f)
    ensures o.Answered? <==> Ready(f) && agent(AgentInput(s, f)).Reply?
    ensures o.Answered? ==> o.reply == agent(AgentInput(s, f)).output
  {
    if !Ready(f) then Skipped
    else
      var input := AgentInput(s, f);
      match agent(input)
      case Raised => AgentRaised(input)
      case Reply(output) => Answered(input, output)
  }

  /** One run of the page's handlers. */
  function Step(s: State, e: Event): State
  {
    match e.button
    case NoButton => s
    case GenerateButton => AfterSubmit(s, e.form, e.agent)
    case NewChatButton => State([], s.history)
  }

  /** A sequence of runs of the page. */
  function Run(s: State, es: seq<Event>): State
    decreases |es|
  {
    if es == [] then s else Run(Step(s, es[0]), es[1..])
  }

  /** The session state shared by all runs of the page. */
  class Session {
    var messages: seq<Message>
    var history: seq<Message>

    function Snapshot(): State
      reads this
    {
      State(messages, history)
    }

    /** The initialisation block: an entry is set to the empty list only when it
        does not exist yet; an existing entry is kept as it is. */
    constructor (stored: Stored)
      ensures stored.messages.None? ==> messages == []
      ensures stored.messages.Some? ==> messages == stored.messages.value
      ensures stored.history.None? ==> history == []
      ensures stored.history.Some? ==> history == stored.history.value
    {
      if stored.messages.None? {
        messages := [];
      } else {
        messages := stored.messages.value;
      }
      if stored.history.None? {
        history := [];
      } else {
        history := stored.history.value;
      }
    }

    /** The Generate handler: guard, build the request, flush a completed round into
        the archive, append the request, call the agent, append its reply. When the
        agent raises, the changes made before the call stay in place. */
    method Submit(f: Form, agent: seq<Message> -> AgentOutcome) returns (outcome: SubmitOutcome)
      modifies this
      ensures Snapshot() == AfterSubmit(old(Snapshot()), f, agent)
      ensures outcome == SubmitResult(old(Snapshot()), f, agent)
    {
      if !(f.destination != "" && f.duration != "" && f.budget != "") {
        return Skipped;
      }
      var topic := "Plan a " + f.duration + "-day trip to " + f.destination + " under $" + f.budget;
      if f.preference != "" {
        topic := topic + " with " + f.preference;
      }
      assert topic == Request(f);
      if |messages| == 2 {
        history := history + messages;
        messages := [];
      }
      messages := messages + [Message(User, topic)];
      var input := messages;
      match agent(input)
      case Raised =>
        outcome := AgentRaised(input);
      case Reply(output) =>
        messages := messages + [Message(Assistant, output)];
        outcome := Answered(input, output);
    }

    /** The New Chat handler: the active log is discarded, the archive kept. */
    method NewChat()
      modifies this
      ensures messages == [] && history == old(history)
    {
      messages := [];
    }

    /** One run of the handlers for the button that was pressed. */
    method Interact(button: Button, f: Form, agent: seq<Message> -> AgentOutcome) returns (outcome: SubmitOutcome)
      modifies this
      ensures Snapshot() == Step(old(Snapshot()), Event(button, f, agent))
      ensures button == GenerateButton ==> outcome == SubmitResult(old(Snapshot()), f, agent)
      ensures button != GenerateButton ==> outcome == Skipped
    {
      outcome := Skipped;
      if button == GenerateButton {
        outcome := Submit(f, agent);
      } else if button == NewChatButton {
        NewChat();
      }
    }
  }
}

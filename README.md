# AI Trip Planner: request formatting and conversation state

The trip planner is a single Streamlit page. The user fills in a destination, a trip
length in days, a budget and an optional free-text preference, then presses
Generate. The page turns the form into one request sentence and hands it to an
orchestrating agent. It keeps two lists of chat messages in the session state:
`messages`, the active conversation, and `history`, the archive. New Chat empties the
active conversation.

This project models the two pieces of that page that have behaviour of their own:

- `PlanRequest` (plan_request.dfy) is the request sentence
  `"Plan a <duration>-day trip to <destination> under $<budget>"`. It is followed by
  `" with <preference>"` exactly when a preference was typed. Its partner is `Fields`,
  which reads the four fields back out of a request once their lengths are known. It
  is proved to be an inverse in both directions.
- `ChatSession` (session.dfy) holds the spec functions `AgentInput`, `AfterSubmit`,
  `SubmitResult`, `Step` (one run of the page, dispatching on the button pressed) and
  `Run` (a sequence of such runs), and the class `Session` with the fields `messages`
  and `history`. Its constructor is the initialisation block. Its methods `Submit`,
  `NewChat` and `Interact` are the Generate handler, the New Chat handler and one run
  of the page. Each method is proved equal to its spec function.
- `SessionProperties` (session_properties.dfy) proves properties of whole sequences of
  page runs. The archive only grows. Nothing is lost except by New Chat. While the
  agent keeps answering, both logs consist of user/assistant rounds and the agent is
  only ever sent the newest request. The flush tests for exactly two messages, so once
  a call has raised and every later call answers, nothing is archived until New Chat.
  A second raise can bring the active list back to two entries, which the next
  Generate archives although they are not a round.
- `Chat` (chat.dfy) holds the shared values: roles, messages, the form, the agent's
  outcome and the submit guard `Ready` (destination, duration and budget all non-empty,
  travel_agent_app.py:144).

The agent call (`Runner.run` on a fresh event loop) is a function parameter
`seq<Message> -> AgentOutcome`. It either replies with its final output or raises. A
raise propagates out of the handler. The flush and the appended user message stay in
place, and no assistant message is added. This is the only way the active log can
reach an odd length.

Two consequences of the code are stated as lemmas:

- The active log has even length after a completed round only while no agent call
  raises (`OddActiveNeverFlushes`, `RaisedCallBlocksArchiving`). Two raised calls in a
  row leave two unanswered requests, which the next Generate archives although they
  are not a round (`TwoRaisesArchiveUnansweredRequests`).
- New Chat empties only `messages`; the archive is kept.

## Model

| member | source | states |
|---|---|---|
| PlanRequest.Request | travel_agent_app.py:146-148 | the request starts with the base sentence built from duration, destination and budget; it equals that sentence exactly when the preference is empty, and otherwise continues with " with " and the preference |
| PlanRequest.BaseLayout | travel_agent_app.py:146 | in the base sentence, "Plan a ", the duration, "-day trip to ", the destination, " under $" and the budget each sit verbatim at consecutive offsets |
| PlanRequest.FieldsRoundTrip | travel_agent_app.py:146-148 | reading the fields back out of a request at the form's own field lengths gives back exactly the form |
| PlanRequest.FieldsSound | travel_agent_app.py:146-148 | any text from which fields can be read at given lengths is the request of the form read, and that form has those lengths |
| PlanRequest.RequestInjective | travel_agent_app.py:146-148 | two forms with the same field lengths and the same request are the same form |
| PlanRequest.RequestAmbiguous | travel_agent_app.py:146-148 | without the lengths the request does not determine the form: a budget ending in " with food" gives the same text as the preference "food" |
| PlanRequest.TokyoExample | travel_agent_app.py:146 | duration "5", destination "Tokyo", budget "2000" and no preference give "Plan a 5-day trip to Tokyo under $2000" |
| ChatSession.AgentInput | travel_agent_app.py:149-154 | the agent receives the active list with the new user request at its end; it is that request alone when the active list held 0 or 2 messages, and otherwise it follows the old active list unchanged |
| ChatSession.AfterSubmit | travel_agent_app.py:144-162 | an unready form changes nothing; the archive gains the active pair exactly when the active list held 2 messages, and is unchanged otherwise; the old archive is a prefix of the new one; the new active list starts with the agent input, keeps the old list when no flush happened, ends with the user request then the assistant reply on success (length 2 when it started at 0 or 2), and ends at the request when the agent raises |
| ChatSession.SubmitResult | travel_agent_app.py:144-161 | the agent is called exactly when destination, duration and budget are all non-empty, and it is called on the agent input; the outcome is a reply exactly when the agent replies, and carries its output |
| ChatSession.Session.constructor | travel_agent_app.py:96-99 | each of `messages` and `history` starts empty when it does not exist yet, and keeps its existing value otherwise |
| ChatSession.Session.Submit | travel_agent_app.py:144-162 | the new state of both lists is AfterSubmit of the old one and the reported outcome is SubmitResult, including the partial update left behind when the agent raises |
| ChatSession.Session.NewChat | travel_agent_app.py:165-167 | the active list becomes empty and the archive is unchanged |
| ChatSession.Session.Interact | travel_agent_app.py:144-169 | one run of the page: Generate runs Submit, New Chat runs NewChat, no button changes nothing and calls no agent |
| SessionProperties.PairedAppendRound | travel_agent_app.py:149-150 | archiving one more user/assistant round onto an archive of rounds leaves an archive of rounds |
| SessionProperties.SettledStep | travel_agent_app.py:149-167 | when the agent answers, any run of the page keeps the active list empty or one round and the archive made of rounds |
| SessionProperties.SettledRun | travel_agent_app.py:149-167 | over any sequence of runs in which the agent answers, the active list always has length 0 or 2 and the archive stays made of rounds |
| SessionProperties.FreshSessionSendsOneMessage | travel_agent_app.py:149-154 | starting from a fresh session, after any sequence of answered runs, the next agent call receives only the new user request and no earlier context |
| SessionProperties.HistoryOnlyGrows | travel_agent_app.py:150 | over any sequence of runs, including New Chat and raised agent calls, the initial archive is a prefix of the final archive |
| SessionProperties.StepKeepsTranscript | travel_agent_app.py:149-152 | a run that is not New Chat only extends the archive followed by the active list |
| SessionProperties.NothingLostWithoutNewChat | travel_agent_app.py:149-162 | over any sequence of runs without New Chat, the initial archive plus active list is a prefix of the final one |
| SessionProperties.OddStep | travel_agent_app.py:149-152 | from an active list of odd length, an answered run that is not New Chat leaves the archive unchanged and keeps the active list odd and extended |
| SessionProperties.OddActiveNeverFlushes | travel_agent_app.py:149 | from an active list of odd length, answered runs without New Chat never archive anything; the active list stays odd and only grows |
| SessionProperties.TwoRaisesArchiveUnansweredRequests | travel_agent_app.py:149-162 | two raised agent calls from a fresh session followed by an answered one archive the two unanswered user requests, so the archive is no longer made of user/assistant rounds |
| SessionProperties.RaisedCallBlocksArchiving | travel_agent_app.py:149-162 | a first agent call that raises followed by two answered ones leaves the archive empty and five messages in the active list |

## Left out

- Agent definitions and the tool graph (travel_agent_app.py:20-73) are configuration literals passed to a third-party library. They have no behaviour to state.
- The client setup, the environment loading and the internals of the agent run (travel_agent_app.py:13-18, 153-159) call network and model services. The agent is a function parameter, and its answer is arbitrary.
- The per-request event loop (travel_agent_app.py:157-159) is concurrency plumbing. The call is modelled as synchronous, which is how the handler sees it.
- Page layout, rendering of the two logs, the spinner, the "Starting a new chat..." notice and `st.rerun` (travel_agent_app.py:90-142, 145, 163, 166, 169) are presentation. Stopping the script after a handler is modelled only as "a run handles one button".
- Which values the widgets allow is not modelled. Examples are the duration list "1" to "31" and the budget being free text. Any string is accepted, as the handler itself accepts.
- A selectbox left empty yields no value rather than a string. It is represented as "", which the guard rejects in the same way.
- The commented-out persistent-session demo and the unused imports (travel_agent_app.py:5-11, 74-84) are dead code.

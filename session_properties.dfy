/** Properties of whole sequences of page runs: what the archive keeps, the shape of
    the logs while the agent keeps answering, and what happens once it has raised. */
module SessionProperties {
  import opened Chat
  import opened PlanRequest
  import opened ChatSession

  /** A completed round: one user message followed by one assistant message. */
  predicate IsRound(m: seq<Message>)
  {
    |m| == 2 && m[0].role == User && m[1].role == Assistant
  }

  /** A log made of completed rounds only. */
  predicate Paired(h: seq<Message>)
    decreases |h|
  {
    h == [] || (|h| >= 2 && IsRound(h[..2]) && Paired(h[2..]))
  }

  /** The shape of the logs between runs while no agent call has failed. */
  predicate Settled(s: State)
  {
    (s.messages == [] || IsRound(s.messages)) && Paired(s.history)
  }

  /** The agent of this run never raises: it answers whatever it is asked. */
  ghost predicate Answers(e: Event)
  {
    forall m :: e.agent(m).Reply?
  }

  ghost predicate AllAnswer(es: seq<Event>)
  {
    forall i :: 0 <= i < |es| ==> Answers(es[i])
  }

  predicate NoNewChat(es: seq<Event>)
  {
    forall i :: 0 <= i < |es| ==> es[i].button != NewChatButton
  }

  /** Archiving one more completed round keeps the archive made of rounds. */
  lemma {:induction false} PairedAppendRound(h: seq<Message>, m: seq<Message>)
    requires Paired(h) && IsRound(m)
    ensures Paired(h + m)
  {
    if h == [] {
      assert h + m == m;
      assert m[..2] == m && m[2..] == [];
    } else {
      PairedAppendRound(h[2..], m);
      assert (h + m)[..2] == h[..2];
      assert (h + m)[2..] == h[2..] + m;
    }
  }

  /** A run whose agent answers leaves the logs settled. */
  lemma SettledStep(s: State, e: Event)
    requires Settled(s) && Answers(e)
    ensures Settled(Step(s, e))
  {
    if e.button == GenerateButton && Ready(e.form) && |s.messages| == 2 {
      PairedAppendRound(s.history, s.messages);
    }
  }

  /** While every agent call answers, the active log is empty or exactly one round and
      the archive is a sequence of rounds, whatever buttons are pressed. */
  lemma {:induction false} SettledRun(s: State, es: seq<Event>)
    requires Settled(s) && AllAnswer(es)
    ensures Settled(Run(s, es))
    ensures |Run(s, es).messages| == 0 || |Run(s, es).messages| == 2
    decreases |es|
  {
    if es != [] {
      SettledStep(s, es[0]);
      assert AllAnswer(es[1..]) by {
        forall i | 0 <= i < |es[1..]| ensures Answers(es[1..][i]) {
          assert es[1..][i] == es[i + 1];
        }
      }
      SettledRun(Step(s, es[0]), es[1..]);
    }
  }

  /** From a fresh session, as long as the agent keeps answering, the agent is only
      ever given the new request: the earlier rounds have been archived and are not
      part of its input. */
  lemma FreshSessionSendsOneMessage(es: seq<Event>, f: Form)
    requires AllAnswer(es)
    ensures AgentInput(Run(State([], []), es), f) == [Message(User, Request(f))]
  {
    SettledRun(State([], []), es);
  }

  /** The archive only grows: no run of the page removes or reorders archived entries. */
  lemma {:induction false} HistoryOnlyGrows(s: State, es: seq<Event>)
    ensures s.history <= Run(s, es).history
    decreases |es|
  {
    if es != [] {
      var t := Step(s, es[0]);
      HistoryOnlyGrows(t, es[1..]);
      PrefixTransitive(s.history, t.history, Run(t, es[1..]).history);
    }
  }

  lemma PrefixTransitive(a: seq<Message>, b: seq<Message>, c: seq<Message>)
    requires a <= b && b <= c
    ensures a <= c
  {
    assert c[..|a|] == b[..|a|];
  }

  /** Only New Chat discards anything: in any other run, the archive followed by the
      active log is extended, never cut. */
  lemma StepKeepsTranscript(s: State, e: Event)
    requires e.button != NewChatButton
    ensures s.history + s.messages <= Step(s, e).history + Step(s, e).messages
  {
    if e.button == GenerateButton && Ready(e.form) {
      var t := AfterSubmit(s, e.form, e.agent);
      assert Step(s, e) == t;
      if |s.messages| == 2 {
        assert t.history + t.messages == (s.history + s.messages) + t.messages;
      } else {
        assert t.history == s.history && s.messages <= t.messages;
        PrefixUnderConcat(s.history, s.messages, t.messages);
      }
    }
  }

  lemma PrefixUnderConcat(a: seq<Message>, b: seq<Message>, c: seq<Message>)
    requires b <= c
    ensures a + b <= a + c
  {
    assert (a + c)[..|a + b|] == a + b;
  }

  lemma {:induction false} NothingLostWithoutNewChat(s: State, es: seq<Event>)
    requires NoNewChat(es)
    ensures s.history + s.messages <= Run(s, es).history + Run(s, es).messages
    decreases |es|
  {
    if es != [] {
      var t := Step(s, es[0]);
      StepKeepsTranscript(s, es[0]);
      assert NoNewChat(es[1..]) by {
        forall i | 0 <= i < |es[1..]| ensures es[1..][i].button != NewChatButton {
          assert es[1..][i] == es[i + 1];
        }
      }
      NothingLostWithoutNewChat(t, es[1..]);
      var u := Run(t, es[1..]);
      PrefixTransitive(s.history + s.messages, t.history + t.messages, u.history + u.messages);
    }
  }

  lemma OddStep(s: State, e: Event)
    requires |s.messages| % 2 == 1 && Answers(e) && e.button != NewChatButton
    ensures Step(s, e).history == s.history
    ensures |Step(s, e).messages| % 2 == 1 && s.messages <= Step(s, e).messages
  {
    if e.button == GenerateButton && Ready(e.form) {
      assert e.agent(AgentInput(s, e.form)).Reply?;
    }
  }

  /** The flush tests for exactly two entries. Once the active log has odd length (a
      call that raised left a request without a reply), later answered rounds never
      flush it: the archive stays as it is and the active log keeps growing. */
  lemma {:induction false} OddActiveNeverFlushes(s: State, es: seq<Event>)
    requires |s.messages| % 2 == 1 && AllAnswer(es) && NoNewChat(es)
    ensures Run(s, es).history == s.history
    ensures |Run(s, es).messages| % 2 == 1 && s.messages <= Run(s, es).messages
    decreases |es|
  {
    if es != [] {
      var t := Step(s, es[0]);
      OddStep(s, es[0]);
      assert AllAnswer(es[1..]) && NoNewChat(es[1..]) by {
        forall i | 0 <= i < |es[1..]|
          ensures Answers(es[1..][i]) && es[1..][i].button != NewChatButton
        {
          assert es[1..][i] == es[i + 1];
        }
      }
      OddActiveNeverFlushes(t, es[1..]);
      PrefixTransitive(s.messages, t.messages, Run(t, es[1..]).messages);
    }
  }

  /** A concrete run: the first agent call raises, the next two answer. Nothing is
      ever archived and the active log holds five entries. */
  lemma RaisedCallBlocksArchiving()
    ensures var f := Form("Tokyo", "5", "2000", "");
            var fails := Event(GenerateButton, f, (m: seq<Message>) => Raised);
            var answers := Event(GenerateButton, f, (m: seq<Message>) => Reply("itinerary"));
            var r := Run(State([], []), [fails, answers, answers]);
            r.history == [] && |r.messages| == 5
  {
    var f := Form("Tokyo", "5", "2000", "");
    var fails := Event(GenerateButton, f, (m: seq<Message>) => Raised);
    var answers := Event(GenerateButton, f, (m: seq<Message>) => Reply("itinerary"));
    var es := [fails, answers, answers];
    var s1 := Step(State([], []), fails);
    assert |s1.messages| == 1 && s1.history == [];
    var s2 := Step(s1, answers);
    assert |s2.messages| == 3 && s2.history == [];
    var s3 := Step(s2, answers);
    assert |s3.messages| == 5 && s3.history == [];
    assert es[1..] == [answers, answers] && es[1..][1..] == [answers];
    assert Run(s3, []) == s3;
    assert Run(s2, [answers]) == s3;
    assert Run(s1, [answers, answers]) == s3;
  }

  /** A concrete run: two agent calls raise, leaving two unanswered requests in the
      active list. Its length is two, so the next Generate archives them although
      they are not a round, and the archive is no longer made of rounds. */
  lemma TwoRaisesArchiveUnansweredRequests()
    ensures var f := Form("Tokyo", "5", "2000", "");
            var fails := Event(GenerateButton, f, (m: seq<Message>) => Raised);
            var answers := Event(GenerateButton, f, (m: seq<Message>) => Reply("itinerary"));
            var r := Run(State([], []), [fails, fails, answers]);
            |r.history| == 2 && r.history[0].role == User && r.history[1].role == User
            && !Paired(r.history)
  {
    var f := Form("Tokyo", "5", "2000", "");
    var fails := Event(GenerateButton, f, (m: seq<Message>) => Raised);
    var answers := Event(GenerateButton, f, (m: seq<Message>) => Reply("itinerary"));
    var es := [fails, fails, answers];
    var u := Message(User, Request(f));
    var s1 := Step(State([], []), fails);
    assert s1 == State([u], []);
    var s2 := Step(s1, fails);
    assert s2 == State([u, u], []);
    var s3 := Step(s2, answers);
    assert s3 == State([u, Message(Assistant, "itinerary")], [u, u]);
    assert !IsRound(s3.history[..2]);
    assert es[1..] == [fails, answers] && es[1..][1..] == [answers];
    assert Run(s3, []) == s3;
    assert Run(s2, [answers]) == s3;
    assert Run(s1, [fails, answers]) == s3;
  }
}

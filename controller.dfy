/**
 * The guided-dialogue step controller of app.py (session state at 108-115,
 * sidebar at 121-135, news gate at 141-146, step panels at 154-334) as a pure
 * transition function: each Streamlit run handles at most one button event and
 * then reruns, so the page is a dispatch `Next(state, event)`.
 */
module Controller {
  import opened Wrappers
  import opened Transcript
  import Prompt
  import News
  import Instructions
  import SeqFacts

  /** The last step: the final summary is shown; only the two resets leave it. */
  const FinalStep: nat := 4

  /** `st.session_state`: the step, the article (None before the first load), the transcript and the difficulty. */
  datatype State = State(step: nat, news: Option<string>, history: seq<Turn>, level: string)

  /** The state on first page load (app.py:108-115). */
  const Initial: State := State(0, None, [], News.DefaultLevel)

  /**
   * One interaction. Replies of the generative model are carried by the event:
   * `article` is what `generate_news` returned, `reply` what
   * `run_model_with_history` returned.
   */
  datatype Event =
    | ChooseLevel(choice: News.Difficulty)
    | LoadNews(article: string)
    | SubmitFirst(firstImpression: string, realOrFake: string, reason: string, reply: string)
    | SubmitAnswer(answer: string, reply: string)
    | TryAgain

  /** What an interaction shows or sends: nothing, a warning, or a prompt for the model. */
  datatype Outcome = Idle | Warning | Sent(prompt: string)

  /** The news gate: the step panels render only when the article is a non-empty string (Python truthiness). */
  predicate NewsShown(news: Option<string>)
  {
    news.Some? && news.value != ""
  }

  /** The fixed parts of the step-0 student message (app.py:170-174). */
  const ImpressionLead: string := "처음 느낌: "
  const JudgmentLead: string := ", 진짜/가짜 판단: "
  const ReasonLead: string := ", 이유: "

  /** The step-0 student message. */
  function FirstMessage(firstImpression: string, realOrFake: string, reason: string): string
  {
    ImpressionLead + firstImpression + JudgmentLead + realOrFake + ReasonLead + reason
  }

  /** The step-0 message holds each field unaltered between the fixed separators. */
  lemma FirstMessageLayout(firstImpression: string, realOrFake: string, reason: string)
    ensures var m := FirstMessage(firstImpression, realOrFake, reason);
      var a := |ImpressionLead|;
      var b := a + |firstImpression|;
      var c := b + |JudgmentLead|;
      var d := c + |realOrFake|;
      var e := d + |ReasonLead|;
      && |m| == e + |reason|
      && m[..a] == ImpressionLead && m[a..b] == firstImpression && m[b..c] == JudgmentLead
      && m[c..d] == realOrFake && m[d..e] == ReasonLead && m[e..] == reason
  {
    var m := FirstMessage(firstImpression, realOrFake, reason);
    var a := |ImpressionLead|;
    var b := a + |firstImpression|;
    var c := b + |JudgmentLead|;
    var d := c + |realOrFake|;
    assert m == ImpressionLead + (firstImpression + (JudgmentLead + (realOrFake + (ReasonLead + reason))));
    SeqFacts.TailSplit(m, 0, ImpressionLead, firstImpression + (JudgmentLead + (realOrFake + (ReasonLead + reason))));
    SeqFacts.TailSplit(m, a, firstImpression, JudgmentLead + (realOrFake + (ReasonLead + reason)));
    SeqFacts.TailSplit(m, b, JudgmentLead, realOrFake + (ReasonLead + reason));
    SeqFacts.TailSplit(m, c, realOrFake, ReasonLead + reason);
    SeqFacts.TailSplit(m, d, ReasonLead, reason);
  }

  /** Given the field lengths, the step-0 message determines every field. */
  lemma FirstMessageInjective(f1: string, j1: string, r1: string, f2: string, j2: string, r2: string)
    requires |f1| == |f2| && |j1| == |j2|
    ensures FirstMessage(f1, j1, r1) == FirstMessage(f2, j2, r2) <==> f1 == f2 && j1 == j2 && r1 == r2
  {
    if FirstMessage(f1, j1, r1) == FirstMessage(f2, j2, r2) {
      FirstMessageLayout(f1, j1, r1);
      FirstMessageLayout(f2, j2, r2);
      var m := FirstMessage(f1, j1, r1);
      var a := |ImpressionLead|;
      var c := a + |f1| + |JudgmentLead|;
      var e := c + |j1| + |ReasonLead|;
      assert f1 == m[a..a + |f1|] == f2;
      assert j1 == m[c..c + |j1|] == j2;
      assert r1 == m[e..] == r2;
    }
  }

  /**
   * The student message a press of a submit button records, or None when no
   * such button is on screen or a required field is empty (Python truthiness:
   * an empty string is missing, whitespace is not).
   */
  function Submission(s: State, e: Event): (m: Option<string>)
    ensures m.Some? ==> NewsShown(s.news) && s.step < FinalStep
  {
    if !NewsShown(s.news) then None
    else
      match e
      case SubmitFirst(impression, judgment, reason, _) =>
        if s.step == 0 && impression != "" && reason != "" then Some(FirstMessage(impression, judgment, reason)) else None
      case SubmitAnswer(answer, _) =>
        if 1 <= s.step < FinalStep && answer != "" then Some(answer) else None
      case _ => None
  }

  /** A submit button on screen was pressed with a required field empty: the warning case. */
  predicate Warns(s: State, e: Event)
  {
    NewsShown(s.news) &&
    match e
    case SubmitFirst(impression, _, reason, _) => s.step == 0 && (impression == "" || reason == "")
    case SubmitAnswer(answer, _) => 1 <= s.step < FinalStep && answer == ""
    case _ => false
  }

  /** An accepted submission: the student's turn, then the chatbot's reply, and the next step. */
  function Accept(s: State, message: string, reply: string): State
  {
    s.(history := s.history + [Turn(UserRole, message), Turn(AssistantRole, reply)], step := s.step + 1)
  }

  /** The state after one interaction. */
  function Next(s: State, e: Event): State
  {
    match e
    case ChooseLevel(d) => s.(level := News.LevelName(d))
    case LoadNews(article) => s.(news := Some(article), history := [], step := 0)
    case TryAgain => if NewsShown(s.news) && s.step == FinalStep then s.(history := [], step := 0) else s
    case SubmitFirst(_, _, _, reply) =>
      if Submission(s, e).Some? then Accept(s, Submission(s, e).value, reply) else s
    case SubmitAnswer(_, reply) =>
      if Submission(s, e).Some? then Accept(s, Submission(s, e).value, reply) else s
  }

  /** What one interaction shows or sends to the model. */
  function Respond(s: State, e: Event): Outcome
  {
    if e.LoadNews? then Sent(News.NewsPrompt(s.level))
    else if Submission(s, e).Some? then
      Sent(Prompt.ComposePrompt(Serialise(s.history + [Turn(UserRole, Submission(s, e).value)]), Instructions.ForStep(s.step)))
    else if Warns(s, e) then Warning
    else Idle
  }

  /** How an event is answered, case by case: the form the handlers of the session object follow. */
  lemma NextCases(s: State, e: Event)
    requires e.SubmitFirst? || e.SubmitAnswer?
    ensures Submission(s, e).Some? ==>
      Next(s, e) == Accept(s, Submission(s, e).value, e.reply) &&
      Respond(s, e) == Sent(Prompt.ComposePrompt(Serialise(s.history + [Turn(UserRole, Submission(s, e).value)]), Instructions.ForStep(s.step)))
    ensures Submission(s, e).None? ==> Next(s, e) == s && Respond(s, e) == (if Warns(s, e) then Warning else Idle)
  {
  }

  /** The states after a sequence of interactions. */
  function Run(s: State, events: seq<Event>): State
    decreases |events|
  {
    if events == [] then s else Run(Next(s, events[0]), events[1..])
  }

  /** The role recorded at position i of a well-formed transcript. */
  function RoleAt(i: nat): string
  {
    if i % 2 == 0 then UserRole else AssistantRole
  }

  /** Student and chatbot turns alternate, the student first. */
  predicate Alternating(history: seq<Turn>)
  {
    forall i :: 0 <= i < |history| ==> history[i].role == RoleAt(i)
  }

  /** The session invariant: two turns per completed step, alternating, and no progress without a shown article. */
  predicate Inv(s: State)
  {
    && s.step <= FinalStep
    && |s.history| == 2 * s.step
    && Alternating(s.history)
    && s.level in News.LevelOptions
    && (!NewsShown(s.news) ==> s.step == 0)
  }

  lemma InitialInv()
    ensures Inv(Initial)
  {
  }

  /** Appending a student turn and an assistant turn to an even-length alternating transcript keeps it alternating. */
  lemma AlternatingAppend(history: seq<Turn>, message: string, reply: string)
    requires Alternating(history) && |history| % 2 == 0
    ensures Alternating(history + [Turn(UserRole, message), Turn(AssistantRole, reply)])
  {
    var h := history + [Turn(UserRole, message), Turn(AssistantRole, reply)];
    forall i | 0 <= i < |h|
      ensures h[i].role == RoleAt(i)
    {
      if i == |history| {
        assert i % 2 == 0;
      } else if i == |history| + 1 {
        assert i % 2 == 1;
      }
    }
  }

  /** Every interaction keeps the invariant. */
  lemma NextPreservesInv(s: State, e: Event)
    requires Inv(s)
    ensures Inv(Next(s, e))
  {
    if Submission(s, e).Some? && (e.SubmitFirst? || e.SubmitAnswer?) {
      AlternatingAppend(s.history, Submission(s, e).value, e.reply);
    }
  }

  /** Any sequence of interactions keeps the invariant. */
  lemma {:induction false} RunPreservesInv(s: State, events: seq<Event>)
    requires Inv(s)
    ensures Inv(Run(s, events))
    decreases |events|
  {
    if events != [] {
      NextPreservesInv(s, events[0]);
      RunPreservesInv(Next(s, events[0]), events[1..]);
    }
  }

  /** Every state reachable from the first page load satisfies the invariant. */
  lemma ReachableInv(events: seq<Event>)
    ensures Inv(Run(Initial, events))
  {
    InitialInv();
    RunPreservesInv(Initial, events);
  }

  /**
   * From step 1 on, `history[-1]` (app.py:205 and 327) is in bounds and is a
   * chatbot turn.
   */
  lemma LatestIsChatbotTurn(s: State)
    requires Inv(s) && s.step >= 1
    ensures |s.history| >= 1
    ensures s.history[|s.history| - 1].role == AssistantRole
  {
    var last := |s.history| - 1;
    assert last % 2 == 1;
    assert s.history[last].role == RoleAt(last);
  }

  /** A required field left empty changes nothing; if the button was on screen, the warning is shown. */
  lemma EmptyFieldRejected(s: State, e: Event)
    requires (e.SubmitFirst? && (e.firstImpression == "" || e.reason == "")) || (e.SubmitAnswer? && e.answer == "")
    ensures Next(s, e) == s
    ensures Respond(s, e) == (if Warns(s, e) then Warning else Idle)
    ensures NewsShown(s.news) && (if e.SubmitFirst? then s.step == 0 else 1 <= s.step < FinalStep) ==> Respond(s, e) == Warning
  {
  }

  /**
   * A submission is accepted exactly when its panel is on screen and its
   * required fields are non-empty; the step-0 message has the fixed format.
   */
  lemma SubmissionCases(s: State, e: Event)
    requires Inv(s)
    ensures e.SubmitFirst? ==>
      (Submission(s, e).Some? <==> s.step == 0 && NewsShown(s.news) && e.firstImpression != "" && e.reason != "")
    ensures e.SubmitFirst? && Submission(s, e).Some? ==>
      Submission(s, e).value == FirstMessage(e.firstImpression, e.realOrFake, e.reason)
    ensures e.SubmitAnswer? ==>
      (Submission(s, e).Some? <==> 1 <= s.step < FinalStep && e.answer != "")
    ensures e.SubmitAnswer? && Submission(s, e).Some? ==> Submission(s, e).value == e.answer
    ensures !e.SubmitFirst? && !e.SubmitAnswer? ==> Submission(s, e) == None
  {
  }

  /**
   * An accepted submission at step k appends exactly the student's turn and the
   * reply, moves to step k+1, keeps every earlier turn, and sends the model the
   * whole transcript so far with step k's instruction.
   */
  lemma AcceptedSubmission(s: State, e: Event)
    requires Submission(s, e).Some?
    ensures var t := Next(s, e);
      && t.step == s.step + 1
      && t.history == s.history + [Turn(UserRole, Submission(s, e).value), Turn(AssistantRole, e.reply)]
      && t.history[..|s.history|] == s.history
      && t.history[|t.history| - 1].content == e.reply
      && t.news == s.news && t.level == s.level
      && Respond(s, e) == Sent(Prompt.ComposePrompt(Serialise(t.history[..|t.history| - 1]), Instructions.ForStep(s.step)))
  {
    var t := Next(s, e);
    assert t.history[..|t.history| - 1] == s.history + [Turn(UserRole, Submission(s, e).value)];
  }

  /** "New news" installs the article and restarts the dialogue from any step; the difficulty is kept. */
  lemma LoadNewsResets(s: State, article: string)
    ensures var t := Next(s, LoadNews(article));
      t.news == Some(article) && t.history == [] && t.step == 0 && t.level == s.level
    ensures Respond(s, LoadNews(article)) == Sent(News.NewsPrompt(s.level))
  {
  }

  /** "Try again" restarts the dialogue at step 4 and keeps the article; at any other step it does nothing. */
  lemma TryAgainResets(s: State)
    requires Inv(s)
    ensures var t := Next(s, TryAgain);
      if s.step == FinalStep then t.history == [] && t.step == 0 && t.news == s.news && t.level == s.level
      else t == s
  {
  }

  /** Step 4 is terminal: only the two resets move it, and nothing is sent to the oracle from it but a news request. */
  lemma FinalStepTerminal(s: State, e: Event)
    requires Inv(s) && s.step == FinalStep
    requires !e.LoadNews? && !e.TryAgain?
    ensures Next(s, e).step == FinalStep && Next(s, e).history == s.history && Next(s, e).news == s.news
    ensures Respond(s, e) == Idle
  {
  }

  /**
   * The step moves linearly: it stays, advances by one through an accepted
   * submission, or returns to 0 through a reset; and while it does not go
   * back, the transcript only grows at its end.
   */
  lemma StepProgress(s: State, e: Event)
    requires Inv(s)
    ensures var t := Next(s, e);
      || t.step == s.step
      || (t.step == s.step + 1 && Submission(s, e).Some?)
      || (t.step == 0 && (e.LoadNews? || e.TryAgain?))
    ensures Next(s, e).step >= s.step ==> s.history <= Next(s, e).history
  {
  }

  /** The difficulty only changes through the sidebar selector, and it stays one of the sidebar's options. */
  lemma LevelChanges(s: State, e: Event)
    requires Inv(s)
    ensures Next(s, e).level == (if e.ChooseLevel? then News.LevelName(e.choice) else s.level)
    ensures Next(s, e).level in News.LevelOptions
  {
  }

  /** A complete session: load an article, answer all four steps, reach the final summary with eight turns. */
  lemma {:induction false} CompleteSession(article: string, f: string, j: string, r: string, a1: string, a2: string, a3: string,
                                           p0: string, p1: string, p2: string, p3: string)
    requires article != "" && f != "" && r != "" && a1 != "" && a2 != "" && a3 != ""
    ensures var t := Run(Initial, [LoadNews(article), SubmitFirst(f, j, r, p0), SubmitAnswer(a1, p1), SubmitAnswer(a2, p2), SubmitAnswer(a3, p3)]);
      t.step == FinalStep && t.news == Some(article) &&
      t.history == [Turn(UserRole, FirstMessage(f, j, r)), Turn(AssistantRole, p0), Turn(UserRole, a1), Turn(AssistantRole, p1),
                    Turn(UserRole, a2), Turn(AssistantRole, p2), Turn(UserRole, a3), Turn(AssistantRole, p3)]
  {
    var es := [LoadNews(article), SubmitFirst(f, j, r, p0), SubmitAnswer(a1, p1), SubmitAnswer(a2, p2), SubmitAnswer(a3, p3)];
    var s0 := Next(Initial, es[0]);
    var s1 := Next(s0, es[1]);
    var s2 := Next(s1, es[2]);
    var s3 := Next(s2, es[3]);
    var s4 := Next(s3, es[4]);
    assert Run(s4, []) == s4;
    assert Run(s3, es[4..]) == s4 by { assert es[4..][1..] == []; }
    assert Run(s2, es[3..]) == s4 by { assert es[3..][0] == es[3] && es[3..][1..] == es[4..]; }
    assert Run(s1, es[2..]) == s4 by { assert es[2..][0] == es[2] && es[2..][1..] == es[3..]; }
    assert Run(s0, es[1..]) == s4 by { assert es[1..][0] == es[1] && es[1..][1..] == es[2..]; }
  }

  /** The first scenario: the step-0 answers "재밌어", "진짜 같아", "그림이 신기해서" add two turns and reach step 1. */
  lemma FirstStepScenario(s: State, reply: string)
    requires Inv(s) && s.step == 0 && NewsShown(s.news)
    ensures var t := Next(s, SubmitFirst("재밌어", "진짜 같아", "그림이 신기해서", reply));
      t.step == 1 && |t.history| == 2
      && t.history[0] == Turn(UserRole, "처음 느낌: 재밌어, 진짜/가짜 판단: 진짜 같아, 이유: 그림이 신기해서")
      && t.history[1] == Turn(AssistantRole, reply)
  {
    var e := SubmitFirst("재밌어", "진짜 같아", "그림이 신기해서", reply);
    assert Submission(s, e) == Some(FirstMessage("재밌어", "진짜 같아", "그림이 신기해서"));
    FirstMessageExample();
  }

  /** The step-0 message for the sample answers of the first scenario. */
  lemma FirstMessageExample()
    ensures FirstMessage("재밌어", "진짜 같아", "그림이 신기해서") == "처음 느낌: 재밌어, 진짜/가짜 판단: 진짜 같아, 이유: 그림이 신기해서"
  {
    var m1 := ImpressionLead + "재밌어";
    assert m1 == "처음 느낌: 재밌어";
    var m2 := m1 + JudgmentLead;
    assert m2 == "처음 느낌: 재밌어, 진짜/가짜 판단: ";
    var m3 := m2 + "진짜 같아";
    assert m3 == "처음 느낌: 재밌어, 진짜/가짜 판단: 진짜 같아";
    var m4 := m3 + ReasonLead;
    assert m4 == "처음 느낌: 재밌어, 진짜/가짜 판단: 진짜 같아, 이유: ";
    assert m4 + "그림이 신기해서" == "처음 느낌: 재밌어, 진짜/가짜 판단: 진짜 같아, 이유: 그림이 신기해서";
  }

  /** The second scenario: an empty answer at step 2 keeps step and transcript and shows the warning. */
  lemma EmptyAnswerScenario(s: State, reply: string)
    requires Inv(s) && s.step == 2
    ensures Next(s, SubmitAnswer("", reply)) == s
    ensures Respond(s, SubmitAnswer("", reply)) == Warning
  {
  }
}

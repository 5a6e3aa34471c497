/**
 * The session state of app.py as the page's handlers update it in place:
 * `st.session_state` becomes an object whose fields the handlers assign and
 * append to. Each handler is proved to perform the transition
 * `Controller.Next` and to send what `Controller.Respond` says.
 */
module Session {
  import opened Wrappers
  import opened Transcript
  import opened Controller
  import Prompt
  import News
  import Instructions

  /** `st.session_state` of one browser session. */
  class ChatSession {
    var step: nat
    var news: Option<string>
    var history: seq<Turn>
    var level: string

    /** The session state as a value. */
    function Snapshot(): State
      reads this
    {
      State(step, news, history, level)
    }

    ghost predicate Valid()
      reads this
    {
      Inv(Snapshot())
    }

    /** First page load: each key is initialised to its default (app.py:108-115). */
    constructor ()
      ensures Valid() && Snapshot() == Initial
    {
      step := 0;
      news := None;
      history := [];
      level := News.DefaultLevel;
    }

    /** The sidebar difficulty selector writes the chosen option to the session (app.py:124-129). */
    method SelectLevel(choice: News.Difficulty)
      requires Valid()
      modifies this
      ensures Valid() && Snapshot() == Next(old(Snapshot()), Event.ChooseLevel(choice))
    {
      NextPreservesInv(Snapshot(), Event.ChooseLevel(choice));
      level := News.LevelName(choice);
    }

    /**
     * "New news" (app.py:131-134): the news prompt for the current difficulty
     * is sent, the returned article replaces the old one, and the dialogue
     * restarts.
     */
    method LoadNews(article: string) returns (outcome: Outcome)
      requires Valid()
      modifies this
      ensures Valid() && Snapshot() == Next(old(Snapshot()), Event.LoadNews(article))
      ensures outcome == Respond(old(Snapshot()), Event.LoadNews(article))
    {
      NextPreservesInv(Snapshot(), Event.LoadNews(article));
      outcome := Sent(News.NewsPrompt(level));
      news := Some(article);
      history := [];
      step := 0;
    }

    /** The step-0 button (app.py:165-199): warn on an empty field, else record the message and the reply. */
    method SubmitFirst(impression: string, judgment: string, reason: string, reply: string) returns (outcome: Outcome)
      requires Valid()
      modifies this
      ensures Valid() && Snapshot() == Next(old(Snapshot()), Event.SubmitFirst(impression, judgment, reason, reply))
      ensures outcome == Respond(old(Snapshot()), Event.SubmitFirst(impression, judgment, reason, reply))
    {
      ghost var before := Snapshot();
      ghost var e := Event.SubmitFirst(impression, judgment, reason, reply);
      if !NewsShown(news) || step != 0 {
        assert Submission(before, e) == None && !Warns(before, e);
        NextCases(before, e);
        NextPreservesInv(before, e);
        return Idle;
      }
      if impression == "" || reason == "" {
        assert Submission(before, e) == None && Warns(before, e);
        NextCases(before, e);
        NextPreservesInv(before, e);
        return Warning;
      }
      var message := FirstMessage(impression, judgment, reason);
      assert Submission(before, e) == Some(message);
      var asked := history + [Turn(UserRole, message)];
      history := asked;
      var prompt := Prompt.BuildPrompt(asked, Instructions.ForStep(0));
      history := asked + [Turn(AssistantRole, reply)];
      step := 1;
      outcome := Sent(prompt);
      AppendPair(before.history, Turn(UserRole, message), Turn(AssistantRole, reply));
      assert Snapshot() == Accept(before, message, reply);
      NextCases(before, e);
      NextPreservesInv(before, e);
    }

    /**
     * The buttons of steps 1, 2 and 3 (app.py:215-241, 255-275, 288-321): warn
     * on an empty answer, else record the answer and the reply.
     */
    method SubmitAnswer(answer: string, reply: string) returns (outcome: Outcome)
      requires Valid()
      modifies this
      ensures Valid() && Snapshot() == Next(old(Snapshot()), Event.SubmitAnswer(answer, reply))
      ensures outcome == Respond(old(Snapshot()), Event.SubmitAnswer(answer, reply))
    {
      ghost var before := Snapshot();
      ghost var e := Event.SubmitAnswer(answer, reply);
      if !NewsShown(news) || step < 1 || step >= FinalStep {
        assert Submission(before, e) == None && !Warns(before, e);
        NextCases(before, e);
        NextPreservesInv(before, e);
        return Idle;
      }
      if answer == "" {
        assert Submission(before, e) == None && Warns(before, e);
        NextCases(before, e);
        NextPreservesInv(before, e);
        return Warning;
      }
      assert Submission(before, e) == Some(answer);
      var asked := history + [Turn(UserRole, answer)];
      history := asked;
      var prompt := Prompt.BuildPrompt(asked, Instructions.ForStep(step));
      history := asked + [Turn(AssistantRole, reply)];
      step := step + 1;
      outcome := Sent(prompt);
      AppendPair(before.history, Turn(UserRole, answer), Turn(AssistantRole, reply));
      assert Snapshot() == Accept(before, answer, reply);
      NextCases(before, e);
      NextPreservesInv(before, e);
    }

    /** The step-4 "try again" button (app.py:330-334): clear the transcript and the step, keep the article. */
    method TryAgain() returns (outcome: Outcome)
      requires Valid()
      modifies this
      ensures Valid() && Snapshot() == Next(old(Snapshot()), Event.TryAgain)
      ensures outcome == Respond(old(Snapshot()), Event.TryAgain)
    {
      NextPreservesInv(Snapshot(), Event.TryAgain);
      if NewsShown(news) && step == FinalStep {
        history := [];
        step := 0;
      }
      outcome := Idle;
    }

    /** One rerun of the page: dispatch the event to its handler. */
    method Handle(e: Event) returns (outcome: Outcome)
      requires Valid()
      modifies this
      ensures Valid() && Snapshot() == Next(old(Snapshot()), e)
      ensures outcome == Respond(old(Snapshot()), e)
    {
      match e
      case ChooseLevel(choice) =>
        SelectLevel(choice);
        outcome := Idle;
      case LoadNews(article) =>
        outcome := LoadNews(article);
      case SubmitFirst(impression, judgment, reason, reply) =>
        outcome := SubmitFirst(impression, judgment, reason, reply);
      case SubmitAnswer(answer, reply) =>
        outcome := SubmitAnswer(answer, reply);
      case TryAgain =>
        outcome := TryAgain();
    }

    /**
     * The chatbot text shown from step 1 on and at step 4 (app.py:203-205,
     * 325-327): `history[-1]`, which is in bounds and the latest chatbot turn.
     */
    method LatestReply() returns (reply: string)
      requires Valid() && step >= 1
      ensures |history| >= 1 && reply == history[|history| - 1].content
      ensures history[|history| - 1].role == AssistantRole
    {
      LatestIsChatbotTurn(Snapshot());
      reply := history[|history| - 1].content;
    }
  }
}

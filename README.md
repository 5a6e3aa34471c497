# Media-literacy chatbot: guided-dialogue model

A Dafny model of the logic in `app.py`, a Streamlit page. The page shows a short
generated news article to a primary-school student. It then takes the student
through four reflection steps: first impression, emotional wording, missing
information and final judgment. At each step a generative model writes a reply.

The model covers:

- **Transcript serialiser** (`Transcript`): turns are `{role, content}` records.
  `Serialise` writes `[label] content\n` for each turn, in order. The label is
  `학생` for role `"user"` and `챗봇` for any other role. `HistoryText` is the
  source's `for` loop with `+=`, proved equal to `Serialise`.
- **Prompt composition** (`Prompt`): the history text goes into the fixed
  template of `run_model_with_history`, between the history header and the step
  instruction. `BuildPrompt` is that function up to the model call.
- **News prompt** (`News`): the difficulty branch of `generate_news`. `쉬움` and
  `어려움` select their own descriptions. Every other string takes the `보통`
  branch.
- **Step instructions** (`Instructions`): the four fixed step instructions.
  Each is a constant whose value the model leaves open. Every property
  therefore holds whatever the instructions say.
- **Step controller** (`Controller`): the session state holds the step, the
  article (`None` until the first load), the transcript and the difficulty.
  `Next(state, event)` gives the state after one event, and `Respond` gives what
  the page shows or sends to the model. Each Streamlit run handles at most one
  button event before `st.experimental_rerun()`, so this one-step function is
  the whole controller.
  - The invariant `Inv`: `step <= 4`, `|history| == 2 * step`, turns alternate
    student/chatbot with the student first, there is no progress while no
    article is shown, and the difficulty is one of the three sidebar options.
  - `Inv` holds in every state reached while every model call returns. So
    `history[-1]` is in bounds from step 1 on, and it is the latest chatbot
    reply.
- **Session object** (`Session.ChatSession`): `st.session_state` as a class.
  Its fields are updated in place by one method per button. Each method is
  proved to make exactly the transition `Next` describes and to send exactly
  what `Respond` describes.

The generative model is an oracle outside the model. The article it returns for
"new news" and the reply it returns for a submission are fields of the event.
What the page sends to it (`Outcome.Sent(prompt)`) is part of the contract.

Two behaviours of the code are easy to miss:

- Step 4 has a second exit. Besides "new news", the "try again" button
  (app.py:330-334) clears the transcript and the step but keeps the article.
- The step panels render only when the article is truthy (app.py:141-146).
  An empty article string therefore hides every submit button, just like no
  article at all.

## Model

| member | source | states |
|---|---|---|
| Transcript.Label | app.py:27 | the label is `학생` exactly when the role is `"user"`, and `챗봇` exactly when it is not |
| Transcript.Serialise | app.py:25-28 | the history text is empty exactly for an empty transcript (its in-order layout is stated by `SerialiseAppend`, `SerialiseSnoc` and `SerialiseLineAt`) |
| Transcript.Line | app.py:27-28 | one turn's line is six characters longer than its content, holds the content unaltered from position 5, and ends in a newline (its `[label] ` prefix is stated by `LineLabel`) |
| Transcript.SerialiseAppend | app.py:26-28 | serialising two transcripts one after the other gives the concatenation of their texts |
| Transcript.SerialiseSnoc | app.py:26-28 | appending one turn appends exactly that turn's `[label] content\n` line |
| Transcript.SerialiseLineAt | app.py:26-28 | the line of turn i comes after the lines of all earlier turns and before the lines of all later ones |
| Transcript.LineLabel | app.py:27-28 | each line starts with `[label] `, and its label is the student's exactly when the role is `"user"` |
| Transcript.HistoryText | app.py:25-28 | the loop that builds `history_text` with `+=` returns exactly the serialised transcript |
| Instructions.ForStep | app.py:177-316 | the `system_instruction` each step block sends: step 0 at app.py:177, step 1 at 221, step 2 at 261, step 3 at 294 (wording left unspecified) |
| Prompt.ComposePrompt | app.py:30-39 | the prompt of `run_model_with_history`: constant head, history text, constant middle, step instruction, constant tail (its layout is `ComposeLayout`, its read-back `ComposeRoundTrip`) |
| Prompt.ComposeLayout | app.py:30-39 | the prompt is the constant head, the history text, the constant middle, the instruction and the constant tail, each at a fixed position and unaltered |
| Prompt.ComposeRoundTrip | app.py:30-39 | given the length of the history text, the history text and the instruction can both be read back from the prompt |
| Prompt.ComposeInjective | app.py:30-39 | if the history texts have equal lengths, two prompts are equal exactly when both inputs are equal |
| Prompt.BuildPrompt | app.py:20-40 | the prompt built from a transcript and an instruction holds the transcript's serialisation and the instruction, both recoverable |
| News.LevelName | app.py:126-129 | the name the selector stores for a difficulty, always one of the three sidebar options |
| News.Branch | app.py:52-71 | the easy branch is taken exactly for `쉬움`, the hard branch exactly for `어려움`, and the normal branch for every other string |
| News.BranchRoundTrip | app.py:124-129 | on the three sidebar options, the option name and the branch it selects are inverse to each other |
| News.DescriptionsDistinct | app.py:53-71 | the three level descriptions are distinct texts |
| News.Description | app.py:52-71 | the `level_desc` text each branch of `generate_news` assigns, copied exactly (the three are distinct by `DescriptionsDistinct`) |
| News.LevelDescription | app.py:52-71 | the level description the if/elif/else of `generate_news` selects for a level string (characterised by `LevelDescriptionIff`) |
| News.LevelDescriptionIff | app.py:52-71 | the description is the `쉬움` text exactly for `쉬움`, the `어려움` text exactly for `어려움`, and the `보통` text otherwise |
| News.NewsPrompt | app.py:73-93 | the news prompt: constant head, selected level description, constant tail (its layout is `NewsPromptLayout`) |
| News.NewsPromptLayout | app.py:73-93 | the news prompt holds the selected level description, unaltered, between a constant head and a constant tail |
| News.NewsPromptByBranch | app.py:52-94 | two level strings give the same news prompt exactly when they select the same branch |
| Controller.FirstMessage | app.py:170-174 | the step-0 student message: the three fields joined by the fixed separators (its layout is `FirstMessageLayout`) |
| Controller.FirstMessageLayout | app.py:170-174 | the step-0 message is `처음 느낌: ` + impression + `, 진짜/가짜 판단: ` + judgment + `, 이유: ` + reason, with each field at a fixed offset and unaltered |
| Controller.FirstMessageInjective | app.py:170-174 | if the field lengths are equal, two step-0 messages are equal exactly when all three fields are equal |
| Controller.FirstMessageExample | app.py:170-174 | the sample answers `재밌어`, `진짜 같아`, `그림이 신기해서` give exactly the expected message text |
| Controller.NewsShown | app.py:141-146 | the truthiness test on the article: shown exactly when it is present and non-empty; otherwise the page stops before any step panel |
| Controller.Initial | app.py:108-115 | the first-load state: step 0, no article, empty transcript, difficulty `보통` |
| Controller.Warns | app.py:166-167 | a shown submit button pressed with a required field empty: the impression or reason at step 0, the answer at steps 1-3 (app.py:216-217, 256-257, 289-290) |
| Controller.Accept | app.py:175-198 | an accepted submission appends the student turn and then the chatbot reply and moves one step on |
| Controller.Next | app.py:121-334 | the state after one event: selector, "new news", a submit button at steps 0-3, or "try again" |
| Controller.Respond | app.py:131-334 | what one event sends or shows: the news prompt, the step prompt built from the transcript up to the new student turn with that step's instruction, the warning, or nothing |
| Controller.Submission | app.py:141-146 | a submission is recorded only when an article is shown and the step is below 4 |
| Controller.SubmissionCases | app.py:165-175 | a step-0 press is accepted exactly when an article is shown and the impression and reason are both non-empty; it records the step-0 message |
| Controller.Run | app.py:121-334 | the state after a sequence of reruns, each handling one event with `Next` in order |
| Controller.InitialInv | app.py:108-115 | on first page load the state is step 0 with an empty transcript and difficulty `보통`, and it satisfies the invariant |
| Controller.NextPreservesInv | app.py:131-334 | every event keeps `step <= 4`, two turns per step, strict student/chatbot alternation, a sidebar difficulty, and step 0 while no article is shown |
| Controller.RunPreservesInv | app.py:131-334 | any sequence of events keeps the invariant |
| Controller.ReachableInv | app.py:108-334 | every state reachable from the first page load satisfies the invariant |
| Controller.LatestIsChatbotTurn | app.py:203-205 | from step 1 on, `history[-1]` is in bounds and is a chatbot turn |
| Controller.EmptyFieldRejected | app.py:166-167 | pressing a submit button with a required field empty changes nothing, and shows the warning whenever that button is on screen (the same for steps 1-3, app.py:216-217, 256-257, 289-290) |
| Controller.AcceptedSubmission | app.py:175-198 | an accepted press at step k appends exactly a user turn and then an assistant turn holding the reply, moves to step k+1, keeps the earlier turns, the article and the difficulty, and sends the model the transcript up to the student's turn with step k's instruction (the same for steps 1-3, app.py:219-240, 259-274, 292-320) |
| Controller.LoadNewsResets | app.py:131-134 | "new news" at any step sets the article to the new one, empties the transcript, returns to step 0, keeps the difficulty, and sends the news prompt for the current difficulty |
| Controller.TryAgainResets | app.py:330-333 | "try again" at step 4 empties the transcript and returns to step 0 but keeps the article; at any other step it changes nothing |
| Controller.FinalStepTerminal | app.py:325-334 | at step 4 every event except the two resets keeps the step, the transcript and the article, and sends nothing |
| Controller.StepProgress | app.py:131-334 | in one event the step stays the same, goes up by one through an accepted submission, or returns to 0 through a reset; while it does not go back, the old transcript is a prefix of the new one |
| Controller.LevelChanges | app.py:124-129 | only the sidebar selector changes the difficulty, and the difficulty is always one of the three options |
| Controller.CompleteSession | app.py:131-321 | loading an article and answering all four steps ends at step 4 with exactly the eight expected turns in order |
| Controller.FirstStepScenario | app.py:165-198 | at step 0 the answers `재밌어`, `진짜 같아`, `그림이 신기해서` add the expected student turn and the reply, and move to step 1 |
| Controller.EmptyAnswerScenario | app.py:255-257 | at step 2 an empty answer keeps the step and the transcript and shows the warning |
| Session.ChatSession.constructor | app.py:108-115 | the session starts in the initial state and satisfies the invariant |
| Session.ChatSession.SelectLevel | app.py:124-129 | choosing on the sidebar stores the option name as the difficulty and changes nothing else |
| Session.ChatSession.LoadNews | app.py:131-134 | the handler makes the "new news" transition and returns the news prompt it sent |
| Session.ChatSession.SubmitFirst | app.py:165-199 | the step-0 handler makes exactly the `Next` transition, in place, and returns exactly `Respond`'s outcome (idle, warning, or the prompt sent) |
| Session.ChatSession.SubmitAnswer | app.py:215-321 | the handler for steps 1-3 makes exactly the `Next` transition and returns exactly `Respond`'s outcome |
| Session.ChatSession.TryAgain | app.py:330-334 | the step-4 restart handler makes exactly the `Next` transition |
| Session.ChatSession.Handle | app.py:121-334 | one rerun dispatches its event to its handler, keeps the invariant, and performs `Next` and `Respond` |
| Session.ChatSession.LatestReply | app.py:325-327 | reading `history[-1]` from step 1 on is in bounds and yields the content of a chatbot turn |

## Left out

- The calls to the generative model (`model.generate_content`, `genai.configure`, app.py:13-14, 41-42, 94). Replies are event parameters, and a failed call is not modelled. In the code, each step appends the student turn to `history` before calling the model (app.py:175 before 196, 219 before 238, 259 before 272, 292 before 318). A call that raises therefore leaves the student turn recorded with the step unchanged. From step 1 on, the next render then shows the student's own answer as the chatbot's reply (app.py:205). At step 0 the `step >= 1` guard (app.py:203) hides it, and the transcript is left as one student turn at step 0. At any step a retry appends a second student turn, which breaks `|history| == 2 * step` and the alternation. The invariant and every lemma hold only for runs whose model calls all return.
- The API-key check and `st.stop()` at app.py:8-11. These are process configuration.
- Streamlit rendering and widgets (`st.title`, `st.markdown`, `st.write`, `st.columns`, `st.text_input`, `st.info`). A button press is an event that carries the field strings, and the warning is the `Warning` outcome.
- The `selectbox` index lookup (app.py:127). The selector is modelled by the `Difficulty` it yields, so a level outside the three options never arises.
- The judgment `selectbox` at app.py:161 offers three fixed options. The model accepts any string there, since the code never checks it.
- `st.experimental_rerun()` (app.py:135, 199, 241, 275, 321, 334). It ends the run and starts a fresh one in which no button is pressed, so that run changes nothing. That is why one event per run is the model.
- The wording of the four step instructions (app.py:177-194, 221-236, 261-270, 294-316). Each is a constant of unspecified value. No branch of the code depends on the text, and every property holds for any wording.
- Session end, when the browser session drops its state. Nothing in the code handles it.

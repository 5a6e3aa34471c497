/**
 * Prompt composition of `run_model_with_history` (app.py:20-42): the history
 * text is dropped into a fixed template between the history header and the
 * step instruction. The call to the generative model that follows is not part
 * of this module; its reply reaches the step controller as an event parameter.
 */
module Prompt {
  import opened Transcript

  /** The template text before the history text (app.py:30-34). */
  const PromptHead: string :=
    "\n"
    + "다음은 초등학생과 챗봇이 나눈 전체 대화야.  \n"
    + "이 대화의 흐름을 모두 고려해서, 아래 지시를 따라 답변해 줘.\n"
    + "\n"
    + "[지금까지의 대화]\n"

  /** The template text between the history text and the instruction (app.py:35-38). */
  const PromptMiddle: string :=
    "\n"
    + "\n"
    + "[이번 단계에서 너의 역할과 지시]\n"

  /** The template text after the instruction (app.py:38-39). */
  const PromptTail: string :=
    "\n"

  /** The composed prompt: template, history text and step instruction. */
  function ComposePrompt(historyText: string, instruction: string): string
  {
    PromptHead + historyText + PromptMiddle + instruction + PromptTail
  }

  /** The layout of a composed prompt: every part at a fixed position, neither input altered. */
  lemma ComposeLayout(historyText: string, instruction: string)
    ensures var p := ComposePrompt(historyText, instruction);
      var a := |PromptHead|;
      var b := a + |historyText|;
      var c := b + |PromptMiddle|;
      && |p| == c + |instruction| + |PromptTail|
      && p[..a] == PromptHead
      && p[a..b] == historyText
      && p[b..c] == PromptMiddle
      && p[c..c + |instruction|] == instruction
      && p[c + |instruction|..] == PromptTail
  {
    var p := ComposePrompt(historyText, instruction);
    var a := |PromptHead|;
    var b := a + |historyText|;
    var c := b + |PromptMiddle|;
    assert p == PromptHead + (historyText + (PromptMiddle + (instruction + PromptTail)));
    assert p[a..] == historyText + (PromptMiddle + (instruction + PromptTail));
    assert p[b..] == PromptMiddle + (instruction + PromptTail);
    assert p[c..] == instruction + PromptTail;
  }

  /** Whether p is long enough to hold the template around a history text of length n. */
  predicate Fits(p: string, n: nat)
  {
    |PromptHead| + n + |PromptMiddle| + |PromptTail| <= |p|
  }

  /** The history text of a composed prompt, given its length. */
  function HistoryPart(p: string, n: nat): string
  {
    if Fits(p, n) then p[|PromptHead|..|PromptHead| + n] else ""
  }

  /** The step instruction of a composed prompt, given the length of its history text. */
  function InstructionPart(p: string, n: nat): string
  {
    if Fits(p, n) then p[|PromptHead| + n + |PromptMiddle|..|p| - |PromptTail|] else ""
  }

  /** The history text and the instruction can be read back from a composed prompt. */
  lemma ComposeRoundTrip(historyText: string, instruction: string)
    ensures HistoryPart(ComposePrompt(historyText, instruction), |historyText|) == historyText
    ensures InstructionPart(ComposePrompt(historyText, instruction), |historyText|) == instruction
  {
    ComposeLayout(historyText, instruction);
    var p := ComposePrompt(historyText, instruction);
    assert |p| - |PromptTail| == |PromptHead| + |historyText| + |PromptMiddle| + |instruction|;
  }

  /** Neither input is altered: two prompts with equally long history texts agree iff both inputs agree. */
  lemma ComposeInjective(h1: string, i1: string, h2: string, i2: string)
    requires |h1| == |h2|
    ensures ComposePrompt(h1, i1) == ComposePrompt(h2, i2) <==> h1 == h2 && i1 == i2
  {
    ComposeRoundTrip(h1, i1);
    ComposeRoundTrip(h2, i2);
  }

  /** `run_model_with_history` up to the model call: the prompt built from the transcript and the instruction. */
  method BuildPrompt(history: seq<Turn>, instruction: string) returns (prompt: string)
    ensures prompt == ComposePrompt(Serialise(history), instruction)
  {
    var historyText := HistoryText(history);
    prompt := PromptHead + historyText + PromptMiddle + instruction + PromptTail;
  }
}

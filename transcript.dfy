/**
 * The dialogue transcript and its serialisation into the "history text"
 * that `run_model_with_history` writes into every prompt (app.py:20-28).
 */
module Transcript {
  import SeqFacts

  /** One recorded turn: the `{"role": ..., "content": ...}` dictionary of app.py. */
  datatype Turn = Turn(role: string, content: string)

  /** Role strings the step controller records. */
  const UserRole: string := "user"
  const AssistantRole: string := "assistant"

  /** Speaker labels written into the history text. */
  const StudentLabel: string := "학생"
  const ChatbotLabel: string := "챗봇"

  /** The label of a role: the student's for "user", the chatbot's for every other role. */
  function Label(role: string): (tag: string)
    ensures tag == StudentLabel <==> role == UserRole
    ensures tag == ChatbotLabel <==> role != UserRole
  {
    assert StudentLabel[0] != ChatbotLabel[0];
    if role == UserRole then StudentLabel else ChatbotLabel
  }

  /** The line one turn contributes: `[label] content` and a newline, the content unaltered. */
  function Line(t: Turn): (line: string)
    ensures |line| == |t.content| + 6
    ensures line[5..|line| - 1] == t.content && line[|line| - 1] == '\n'
  {
    var line := "[" + Label(t.role) + "] " + t.content + "\n";
    assert |Label(t.role)| == 2;
    assert line == ("[" + Label(t.role) + "] ") + (t.content + "\n");
    line
  }

  /** The history text: the lines of all turns, concatenated in order. */
  function Serialise(history: seq<Turn>): (text: string)
    ensures text == "" <==> history == []
  {
    if history == [] then "" else Line(history[0]) + Serialise(history[1..])
  }

  /** Appending two turns one after the other is appending the pair. */
  lemma AppendPair(history: seq<Turn>, first: Turn, second: Turn)
    ensures history + [first] + [second] == history + [first, second]
  {
  }

  /** Serialising a concatenation concatenates the serialisations. */
  lemma {:induction false} SerialiseAppend(a: seq<Turn>, b: seq<Turn>)
    ensures Serialise(a + b) == Serialise(a) + Serialise(b)
  {
    if a == [] {
      assert a + b == b;
    } else {
      assert (a + b)[0] == a[0];
      assert (a + b)[1..] == a[1..] + b;
      SerialiseAppend(a[1..], b);
    }
  }

  /** Appending one turn appends exactly that turn's line. */
  lemma SerialiseSnoc(history: seq<Turn>, t: Turn)
    ensures Serialise(history + [t]) == Serialise(history) + Line(t)
  {
    SerialiseAppend(history, [t]);
    assert Serialise([t]) == Line(t) + Serialise([]);
  }

  /**
   * In-order layout: the line of turn i follows the lines of all earlier turns
   * and precedes the lines of all later ones.
   */
  lemma SerialiseLineAt(history: seq<Turn>, i: nat)
    requires i < |history|
    ensures Serialise(history) == Serialise(history[..i]) + Line(history[i]) + Serialise(history[i + 1..])
  {
    var before, after := history[..i], history[i + 1..];
    SeqFacts.SplitAt(history, i);
    SerialiseAppend(before + [history[i]], after);
    SerialiseSnoc(before, history[i]);
  }

  /** Each turn's line starts with the label its role selects, so the student's lines are exactly the "user" turns. */
  lemma LineLabel(t: Turn)
    ensures Line(t)[..|Label(t.role)| + 3] == "[" + Label(t.role) + "] "
    ensures Line(t)[1..3] == StudentLabel <==> t.role == UserRole
  {
    var l := Label(t.role);
    assert |l| == 2;
    assert Line(t) == ("[" + l + "] ") + (t.content + "\n");
    assert Line(t)[1..3] == l;
  }

  /**
   * The loop of `run_model_with_history`: walk the turns in order and append
   * `[label] content\n` for each.
   */
  method HistoryText(history: seq<Turn>) returns (text: string)
    ensures text == Serialise(history)
  {
    text := "";
    for i := 0 to |history|
      invariant text == Serialise(history[..i])
    {
      var role := if history[i].role == UserRole then StudentLabel else ChatbotLabel;
      var line := "[" + role + "] " + history[i].content + "\n";
      assert line == Line(history[i]);
      text := text + line;
      assert history[..i + 1] == history[..i] + [history[i]];
      SerialiseSnoc(history[..i], history[i]);
    }
    assert history[..|history|] == history;
  }
}

/**
 * `generate_news` (app.py:48-94): the difficulty branch and the news prompt.
 * The generated article itself is the model's reply and reaches the step
 * controller as an event parameter.
 */
module News {

  /** The three branches of `generate_news`. */
  datatype Difficulty = Easy | Normal | Hard

  /** The difficulty names the sidebar offers (app.py:126). */
  const EasyLevel: string := "쉬움"
  const NormalLevel: string := "보통"
  const HardLevel: string := "어려움"
  const LevelOptions: seq<string> := [EasyLevel, NormalLevel, HardLevel]

  /** The session's initial difficulty (app.py:114-115). */
  const DefaultLevel: string := NormalLevel

  /** The name the sidebar shows for a difficulty. */
  function LevelName(d: Difficulty): (name: string)
    ensures name in LevelOptions
  {
    match d
    case Easy => EasyLevel
    case Normal => NormalLevel
    case Hard => HardLevel
  }

  /** The branch a level string selects: anything other than the easy or hard name falls to the normal branch. */
  function Branch(level: string): (d: Difficulty)
    ensures d == Easy <==> level == EasyLevel
    ensures d == Hard <==> level == HardLevel
    ensures d == Normal <==> level != EasyLevel && level != HardLevel
  {
    assert EasyLevel != HardLevel by { assert |EasyLevel| != |HardLevel|; }
    if level == EasyLevel then Easy
    else if level == HardLevel then Hard
    else Normal
  }

  /** On the sidebar's options, the branch and the option name are inverse to each other. */
  lemma BranchRoundTrip(d: Difficulty, level: string)
    ensures Branch(LevelName(d)) == d
    ensures level in LevelOptions ==> LevelName(Branch(level)) == level
  {
    assert NormalLevel != EasyLevel && NormalLevel != HardLevel by {
      assert NormalLevel[0] != EasyLevel[0];
      assert |NormalLevel| != |HardLevel|;
    }
  }

  /** The level descriptions of the three branches (app.py:53-57, 59-64, 66-71). */
  const EasyDescription: string :=
    "\n"
    + "        - 초등 저학년(1~3학년)이 이해할 수 있을 정도의 쉬운 단어 사용\n"
    + "        - 일상적인 소재 (동물, 친구, 학교, 간단한 발명 등)\n"
    + "        - 문장 수 4~6문장\n"
    + "        "
  const HardDescription: string :=
    "\n"
    + "        - 초등 고학년(5~6학년)을 대상으로 약간 복잡한 구조 사용\n"
    + "        - 뉴스처럼 보이지만, 사실/의견이 섞여 있거나 정보가 조금 모자라도록 구성\n"
    + "        - 수치, 전문가 인용, '아무래도', '많은 사람들은' 같은 표현을 적절히 섞기\n"
    + "        - 문장 수 6~8문장\n"
    + "        "
  const NormalDescription: string :=
    "\n"
    + "        - 초등 중학년(3~5학년)을 대상으로 한 중간 난이도\n"
    + "        - 재미있지만 너무 유치하지 않은 내용\n"
    + "        - 사실 같은 정보와 의견/감정 표현이 적당히 섞이도록 구성\n"
    + "        - 문장 수 5~7문장\n"
    + "        "

  /** The news prompt around the level description (app.py:73-83 and 84-93). */
  const NewsHead: string :=
    "\n"
    + "너는 초등학생을 위한 미디어 리터러시 수업에서 사용할 '가벼운 뉴스 기사'를 만드는 역할이야.\n"
    + "\n"
    + "[공통 조건]\n"
    + "- 무섭지 않은 내용\n"
    + "- 진짜일 수도 있고, 가짜일 수도 있음 (판단이 애매하면 더 좋음)\n"
    + "- 귀엽고 유쾌한 분위기\n"
    + "- 어린이가 읽었을 때 부담 없는 톤\n"
    + "- 마지막에 사진 설명 한 줄 추가 (예: 사진: ...)\n"
    + "\n"
    + "[난이도 조건]\n"
  const NewsTail: string :=
    "\n"
    + "\n"
    + "[출력 형식 예시]\n"
    + "<뉴스>\n"
    + "...(본문)...\n"
    + "\n"
    + "사진: ...\n"
    + "\n"
    + "반드시 위와 비슷한 형식을 지켜 줘.\n"

  /** The level description `generate_news` selects for a difficulty. */
  function Description(d: Difficulty): string
  {
    match d
    case Easy => EasyDescription
    case Normal => NormalDescription
    case Hard => HardDescription
  }

  /** The three level descriptions are distinct texts (they differ at index 14). */
  lemma DescriptionsDistinct()
    ensures EasyDescription != NormalDescription
    ensures EasyDescription != HardDescription
    ensures NormalDescription != HardDescription
  {
    assert EasyDescription[14] == '저';
    assert NormalDescription[14] == '중';
    assert HardDescription[14] == '고';
  }

  /** The level description chosen for a level string. */
  function LevelDescription(level: string): string
  {
    Description(Branch(level))
  }

  /** The description is the easy text iff the level is `쉬움`, the hard text iff `어려움`, the normal text otherwise. */
  lemma LevelDescriptionIff(level: string)
    ensures LevelDescription(level) == EasyDescription <==> level == EasyLevel
    ensures LevelDescription(level) == HardDescription <==> level == HardLevel
    ensures LevelDescription(level) == NormalDescription <==> level != EasyLevel && level != HardLevel
  {
    DescriptionsDistinct();
  }

  /** The prompt `generate_news` sends. */
  function NewsPrompt(level: string): string
  {
    NewsHead + LevelDescription(level) + NewsTail
  }

  /** The news prompt holds the level description at a fixed position in a constant template. */
  lemma NewsPromptLayout(level: string)
    ensures var p := NewsPrompt(level);
      var d := LevelDescription(level);
      && |p| == |NewsHead| + |d| + |NewsTail|
      && p[..|NewsHead|] == NewsHead
      && p[|NewsHead|..|NewsHead| + |d|] == d
      && p[|NewsHead| + |d|..] == NewsTail
  {
    var p := NewsPrompt(level);
    var d := LevelDescription(level);
    assert p == NewsHead + (d + NewsTail);
    assert p[|NewsHead|..] == d + NewsTail;
  }

  /** Two levels give the same news prompt iff they take the same branch. */
  lemma NewsPromptByBranch(l1: string, l2: string)
    ensures NewsPrompt(l1) == NewsPrompt(l2) <==> Branch(l1) == Branch(l2)
  {
    DescriptionsDistinct();
    if NewsPrompt(l1) == NewsPrompt(l2) {
      NewsPromptLayout(l1);
      NewsPromptLayout(l2);
      var d1, d2 := LevelDescription(l1), LevelDescription(l2);
      assert |d1| == |d2|;
      assert d1 == NewsPrompt(l1)[|NewsHead|..|NewsHead| + |d1|];
    }
  }
}

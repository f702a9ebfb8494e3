/**
 * The instruction text PatientState.GeneratePrompt writes for the dialogue
 * service: role, patient profile, personality traits, the last three
 * exchanges, the doctor's current utterance and the required reply format.
 * Each AppendLine is a `Line`; an empty AppendLine is a bare line break.
 */
module Prompt {
  import opened Text
  import opened Format
  import opened Records
  import opened Levels

  /** The exchanges the prompt repeats: at most the last three, oldest first. */
  const Window: nat := 3

  /** The last min(3, |history|) entries of the history, in history order. */
  function RecentTurns(history: seq<DialogueTurn>): (recent: seq<DialogueTurn>)
    ensures |recent| == if |history| < Window then |history| else Window
    ensures forall k :: 0 <= k < |recent| ==> recent[k] == history[|history| - |recent| + k]
  {
    var start := if |history| < Window then 0 else |history| - Window;
    history[start..]
  }

  /** One exchange: the doctor's line, then the patient's line. */
  function Exchange(turn: DialogueTurn): string
  {
    Line("医生：" + turn.doctor) + Line("患者：" + turn.patient)
  }

  /** The exchanges of `turns`, in order. */
  function Exchanges(turns: seq<DialogueTurn>): string
  {
    Concat(seq(|turns|, i requires 0 <= i < |turns| => Exchange(turns[i])))
  }

  const RoleSection: string :=
    Line("# 角色设定")
    + Line("你扮演一位前来就诊的患者，正在医生的诊室里进行初次问诊。")
    + Line("重要限制：你没有接受过任何医学教育，对医学术语完全不了解。")
    + "\n"

  /** The personality type as the profile names it: anything but "extrovert" is introvert. */
  function PersonalityLabel(personality: string): string
  {
    if personality == "extrovert" then "外向型" else "内向型"
  }

  function ProfileSection(symptoms: string, personality: string, anxiety: real, lengthRange: (int, int)): string
  {
    Line("## 当前患者档案")
    + Line("身体状况：" + symptoms)
    + Line("性格类型：" + PersonalityLabel(personality))
    + Line("当前焦虑程度：" + AnxietyLevel(anxiety) + " (" + FormatF2(anxiety) + ")")
    + Line("回答长度要求：" + IntToString(lengthRange.0) + "到" + IntToString(lengthRange.1) + "字之间")
    + "\n"
  }

  const ExtrovertTraits: string :=
    Line("你是外向型患者：")
    + Line("- 表达方式：主动、直白、话多")
    + Line("- 信息提供：主动补充医生没问到的信息")
    + Line("- 态度：信任医生，积极配合")

  const IntrovertTraits: string :=
    Line("你是内向型患者：")
    + Line("- 表达方式：简短、犹豫、被动")
    + Line("- 信息提供：只回答直接提问，且很简短")
    + Line("- 态度：害怕医院，对医生有抵触")

  function TraitSection(personality: string): string
  {
    (if personality == "extrovert" then ExtrovertTraits else IntrovertTraits) + "\n"
  }

  /** Present only when there is history: a heading, the recent exchanges and a blank line. */
  function HistorySection(history: seq<DialogueTurn>): string
  {
    if |history| > 0 then Line("## 最近的对话历史") + Exchanges(RecentTurns(history)) + "\n" else ""
  }

  function SpeechSection(doctorSpeech: string): string
  {
    Line("## 医生现在说") + Line(doctorSpeech) + "\n"
  }

  const FormatSection: string :=
    Line("## 输出格式")
    + Line("请严格按照以下JSON格式返回（不要包含其他文字）：")
    + Line("{")
    + Line("  \"response_text\": \"你的回答内容\",")
    + Line("  \"anxiety_delta\": -0.15,")
    + Line("  \"anxiety_level\": \"none/mild/significant/extreme\",")
    + Line("  \"understands\": true/false")
    + Line("}")

  /** The whole prompt for a patient profile, its current anxiety, its history and the doctor's utterance. */
  function PromptText(symptoms: string, personality: string, anxiety: real, lengthRange: (int, int),
                      history: seq<DialogueTurn>, doctorSpeech: string): (prompt: string)
    ensures |RoleSection| + |FormatSection| <= |prompt|
    ensures prompt[..|RoleSection|] == RoleSection
    ensures prompt[|prompt| - |FormatSection|..] == FormatSection
  {
    var middle := ProfileSection(symptoms, personality, anxiety, lengthRange)
                  + TraitSection(personality)
                  + HistorySection(history)
                  + SpeechSection(doctorSpeech);
    Ends(RoleSection, middle, FormatSection);
    RoleSection + middle + FormatSection
  }

  lemma Ends(a: string, m: string, b: string)
    ensures |a| + |b| <= |a + m + b|
    ensures (a + m + b)[..|a|] == a
    ensures (a + m + b)[|a + m + b| - |b|..] == b
  {
  }

  lemma ExchangesAppend(a: seq<DialogueTurn>, b: seq<DialogueTurn>)
    ensures Exchanges(a + b) == Exchanges(a) + Exchanges(b)
  {
    var ra := seq(|a|, i requires 0 <= i < |a| => Exchange(a[i]));
    var rb := seq(|b|, i requires 0 <= i < |b| => Exchange(b[i]));
    var ab := a + b;
    assert seq(|ab|, i requires 0 <= i < |ab| => Exchange(ab[i])) == ra + rb;
    ConcatAppend(ra, rb);
  }

  /**
   * After one more exchange the window slides: the new turn joins at the
   * end, and once three turns are shown the oldest one leaves.
   */
  lemma RecentTurnsSlide(history: seq<DialogueTurn>, turn: DialogueTurn)
    ensures RecentTurns(history + [turn]) ==
              (if |history| < Window then history else RecentTurns(history)[1..]) + [turn]
  {
    var h := history + [turn];
    if |history| >= Window {
      assert RecentTurns(h) == h[|h| - Window..];
      assert RecentTurns(history)[1..] == history[|history| - Window + 1..];
    }
  }

  /** With three or more turns, the history section holds exactly the last three exchanges, oldest first. */
  lemma LastThreeExchanges(history: seq<DialogueTurn>)
    requires |history| >= Window
    ensures var n := |history|;
            HistorySection(history) ==
              Line("## 最近的对话历史") + Exchange(history[n - 3]) + Exchange(history[n - 2]) + Exchange(history[n - 1]) + "\n"
  {
    var n := |history|;
    var a, b, c := history[n - 3], history[n - 2], history[n - 1];
    assert RecentTurns(history) == [a, b] + [c];
    ExchangesAppend([a, b], [c]);
    assert [a, b] == [a] + [b];
    ExchangesAppend([a], [b]);
    ExchangesSingle(a);
    ExchangesSingle(b);
    ExchangesSingle(c);
    Regroup3(Line("## 最近的对话历史"), Exchange(a), Exchange(b), Exchange(c), "\n");
  }

  lemma ExchangesSingle(turn: DialogueTurn)
    ensures Exchanges([turn]) == Exchange(turn)
  {
    var r := seq(1, i requires 0 <= i < 1 => Exchange([turn][i]));
    assert r == [Exchange(turn)];
    assert Concat(r) == Concat([]) + Exchange(turn);
  }

  lemma Regroup3(h: string, x: string, y: string, z: string, n: string)
    ensures h + (x + y + z) + n == h + x + y + z + n
  {
  }

  /** The history section is left out exactly when there is no history. */
  lemma HistorySectionPresent(history: seq<DialogueTurn>)
    ensures HistorySection(history) == "" <==> history == []
  {
  }

  /** The prompt sees the history only through its last three turns. */
  lemma PromptWindow(symptoms: string, personality: string, anxiety: real, lengthRange: (int, int),
                     h1: seq<DialogueTurn>, h2: seq<DialogueTurn>, doctorSpeech: string)
    requires RecentTurns(h1) == RecentTurns(h2)
    ensures PromptText(symptoms, personality, anxiety, lengthRange, h1, doctorSpeech)
              == PromptText(symptoms, personality, anxiety, lengthRange, h2, doctorSpeech)
  {
    HistoryWindow(h1, h2);
  }

  lemma HistoryWindow(h1: seq<DialogueTurn>, h2: seq<DialogueTurn>)
    requires RecentTurns(h1) == RecentTurns(h2)
    ensures HistorySection(h1) == HistorySection(h2)
  {
    assert |h1| == 0 <==> |RecentTurns(h1)| == 0;
    assert |h2| == 0 <==> |RecentTurns(h2)| == 0;
  }

  /** The extrovert traits are chosen exactly for the personality "extrovert"; every other value gets the introvert ones. */
  lemma TraitChoice(personality: string)
    ensures TraitSection(personality) == TraitSection("extrovert") <==> personality == "extrovert"
    ensures PersonalityLabel(personality) == "外向型" <==> personality == "extrovert"
  {
    if personality != "extrovert" {
      assert TraitSection(personality)[2] == '内';
      assert TraitSection("extrovert")[2] == '外';
    }
  }

  /** The doctor's utterance appears in the prompt on a line of its own, right after its heading line. */
  lemma PromptRepeatsSpeech(symptoms: string, personality: string, anxiety: real, lengthRange: (int, int),
                            history: seq<DialogueTurn>, doctorSpeech: string)
    ensures Contains(PromptText(symptoms, personality, anxiety, lengthRange, history, doctorSpeech),
                     Line("## 医生现在说") + Line(doctorSpeech))
  {
    var before := ProfileSection(symptoms, personality, anxiety, lengthRange)
                  + TraitSection(personality) + HistorySection(history);
    var heading, speech := Line("## 医生现在说"), Line(doctorSpeech);
    RegroupSpeech(RoleSection, before, heading, speech, "\n", FormatSection);
    ContainsInside(RoleSection + before, heading + speech, "\n" + FormatSection);
  }

  lemma RegroupSpeech(r: string, x: string, h: string, d: string, n: string, f: string)
    ensures r + (x + (h + d + n)) + f == (r + x) + (h + d) + (n + f)
  {
  }

  /** The reply length bounds appear in the prompt on a line of their own, minimum first. */
  lemma PromptStatesLengths(symptoms: string, personality: string, anxiety: real, lengthRange: (int, int),
                            history: seq<DialogueTurn>, doctorSpeech: string)
    ensures Contains(PromptText(symptoms, personality, anxiety, lengthRange, history, doctorSpeech),
                     "\n" + Line("回答长度要求：" + IntToString(lengthRange.0) + "到" + IntToString(lengthRange.1) + "字之间"))
  {
    var front := Line("## 当前患者档案") + Line("身体状况：" + symptoms)
                 + Line("性格类型：" + PersonalityLabel(personality));
    var anxietyText := "当前焦虑程度：" + AnxietyLevel(anxiety) + " (" + FormatF2(anxiety) + ")";
    var profile := front + Line(anxietyText);
    var lengths := Line("回答长度要求：" + IntToString(lengthRange.0) + "到" + IntToString(lengthRange.1) + "字之间");
    var t, h, s := TraitSection(personality), HistorySection(history), SpeechSection(doctorSpeech);
    var back := "\n" + t + h + s + FormatSection;
    RegroupLengths(RoleSection, profile, lengths, "\n", t, h, s, FormatSection);
    Associate(front, anxietyText, "\n");
    Associate(RoleSection, front + anxietyText, "\n");
    MoveBreak(RoleSection + (front + anxietyText), "\n", lengths, back);
    ContainsInside(RoleSection + (front + anxietyText), "\n" + lengths, back);
  }

  lemma MoveBreak(a: string, n: string, l: string, b: string)
    ensures a + n + l + b == a + (n + l) + b
  {
  }

  lemma RegroupLengths(r: string, q: string, l: string, n: string, t: string, h: string, s: string, f: string)
    ensures r + (q + l + n + t + h + s) + f == (r + q) + l + (n + t + h + s + f)
  {
  }
}

/**
 * The plain-text transcript PatientState.ExportDialogueLog returns: a header
 * naming the case, then one block per recorded exchange, in history order.
 */
module Transcript {
  import opened Format
  import opened Records

  /** The four header lines: case name and id, personality, initial anxiety, and the title. */
  function Header(caseName: string, caseId: string, personality: string, initialAnxiety: real): string
  {
    Line("Case: " + caseName + " (" + caseId + ")")
    + Line("Personality: " + personality)
    + Line("Initial Anxiety: " + FormatFloat(initialAnxiety))
    + Line("=== Dialogue Transcript ===")
  }

  /** One exchange: a blank line and its number, both utterances, and the anxiety before and after it. */
  function TurnBlock(turn: DialogueTurn): string
  {
    Line("\n[Turn " + IntToString(turn.turn) + "]")
    + Line("Doctor: " + turn.doctor)
    + Line("Patient: " + turn.patient)
    + Line("Anxiety: " + FormatF2(turn.anxietyBefore) + " → " + FormatF2(turn.anxietyAfter) + " "
           + "(understands: " + BoolToString(turn.understands) + ")")
  }

  /** The blocks of the exchanges, in history order. */
  function Blocks(history: seq<DialogueTurn>): string
  {
    Concat(seq(|history|, i requires 0 <= i < |history| => TurnBlock(history[i])))
  }

  /** The whole transcript of a case and its history. */
  function LogText(caseName: string, caseId: string, personality: string, initialAnxiety: real,
                   history: seq<DialogueTurn>): (log: string)
    ensures var header := Header(caseName, caseId, personality, initialAnxiety);
            |header| <= |log| && log[..|header|] == header
  {
    var header := Header(caseName, caseId, personality, initialAnxiety);
    Opens(header, Blocks(history));
    header + Blocks(history)
  }

  lemma Opens(a: string, b: string)
    ensures |a| <= |a + b| && (a + b)[..|a|] == a
  {
  }

  /** The blocks of two consecutive stretches of history are the blocks of the whole, in order. */
  lemma BlocksAppend(a: seq<DialogueTurn>, b: seq<DialogueTurn>)
    ensures Blocks(a + b) == Blocks(a) + Blocks(b)
  {
    var ra := seq(|a|, i requires 0 <= i < |a| => TurnBlock(a[i]));
    var rb := seq(|b|, i requires 0 <= i < |b| => TurnBlock(b[i]));
    var ab := a + b;
    assert seq(|ab|, i requires 0 <= i < |ab| => TurnBlock(ab[i])) == ra + rb;
    ConcatAppend(ra, rb);
  }

  /** The transcript of one exchange is that exchange's block. */
  lemma BlocksSingle(turn: DialogueTurn)
    ensures Blocks([turn]) == TurnBlock(turn)
  {
    var r := seq(1, i requires 0 <= i < 1 => TurnBlock([turn][i]));
    assert r == [TurnBlock(turn)];
    assert Concat(r) == Concat([]) + TurnBlock(turn);
  }

  /** Recording one more exchange extends the transcript by exactly that exchange's block. */
  lemma LogGrows(caseName: string, caseId: string, personality: string, initialAnxiety: real,
                 history: seq<DialogueTurn>, turn: DialogueTurn)
    ensures LogText(caseName, caseId, personality, initialAnxiety, history + [turn])
              == LogText(caseName, caseId, personality, initialAnxiety, history) + TurnBlock(turn)
  {
    BlocksAppend(history, [turn]);
    BlocksSingle(turn);
    Associate(Header(caseName, caseId, personality, initialAnxiety), Blocks(history), TurnBlock(turn));
  }
}

/**
 * The lexical scorer (AnxietyAnalyzer): whole-word sentiment matches weighted
 * and scaled by the intensifiers and softeners present, clamped to a cap, and
 * the blend of that score with the dialogue service's own delta.
 */
module Analyzer {
  import opened Wrappers
  import opened Numeric
  import opened Text
  import opened Keywords

  /** The largest change in anxiety a single analysis or blend may propose, either way. */
  const Cap: real := 0.3

  /**
   * The outcome of one analysis. The match lists are None (null) on the
   * early-return path where there was nothing to analyse.
   */
  datatype AnalysisResult = AnalysisResult(
    anxietyDelta: real,
    matchedPositive: Option<seq<string>>,
    matchedNegative: Option<seq<string>>,
    rawScore: real)

  /** string.IsNullOrEmpty. */
  predicate IsNullOrEmpty(s: Option<string>)
  {
    s.None? || s.value == []
  }

  /** For each word, whether its lower-case form occurs in `text` as a whole word. */
  function WholeWordPresence(text: string, words: seq<string>): (flags: seq<bool>)
    ensures |flags| == |words|
  {
    seq(|words|, k requires 0 <= k < |words| => ContainsWholeWord(text, Lower(words[k])))
  }

  /** The entries among the first `n` of `words` whose flag is set, in list order. */
  function Select<T>(words: seq<T>, flags: seq<bool>, n: nat): (r: seq<T>)
    requires n <= |words| == |flags|
    ensures |r| <= n
  {
    if n == 0 then []
    else Select(words, flags, n - 1) + (if flags[n - 1] then [words[n - 1]] else [])
  }

  /** The entries of `words`, in list order, whose lower-case form occurs in `text` as a whole word. */
  function Matched(text: string, words: seq<string>): (r: seq<string>)
  {
    Select(words, WholeWordPresence(text, words), |words|)
  }

  /** The selected entries are exactly the flagged ones among the first `n`. */
  lemma {:induction false} SelectMembers<T>(words: seq<T>, flags: seq<bool>, n: nat, w: T)
    requires n <= |words| == |flags|
    ensures w in Select(words, flags, n) <==> exists k :: 0 <= k < n && words[k] == w && flags[k]
  {
    if n > 0 {
      SelectMembers(words, flags, n - 1, w);
    }
  }

  /**
   * FindWords' result holds exactly the listed words that occur in the text
   * as whole words: "curable" is not found in "incurable".
   */
  lemma MatchedMembers(text: string, words: seq<string>, w: string)
    ensures w in Matched(text, words) <==> w in words && ContainsWholeWord(text, Lower(w))
  {
    SelectMembers(words, WholeWordPresence(text, words), |words|, w);
  }

  /**
   * When every copy of `w` among the first `n` entries carries the same flag,
   * the selection holds `w` as often as those entries do if the flag is set,
   * and not at all otherwise.
   */
  lemma {:induction false} SelectMultiplicity<T>(words: seq<T>, flags: seq<bool>, n: nat, w: T, present: bool)
    requires n <= |words| == |flags|
    requires forall k :: 0 <= k < n && words[k] == w ==> flags[k] == present
    ensures multiset(Select(words, flags, n))[w] == if present then multiset(words[..n])[w] else 0
  {
    if n > 0 {
      SelectMultiplicity(words, flags, n - 1, w, present);
      var prev := Select(words, flags, n - 1);
      var x := words[n - 1];
      PrefixSnoc(words, n);
      MultisetSnoc(words[..n - 1], x, w);
      if flags[n - 1] {
        assert Select(words, flags, n) == prev + [x];
        MultisetSnoc(prev, x, w);
      } else {
        assert Select(words, flags, n) == prev;
      }
      if x == w {
        assert flags[n - 1] == present;
      }
    }
  }

  lemma MultisetSnoc<T>(s: seq<T>, x: T, w: T)
    ensures multiset(s + [x])[w] == multiset(s)[w] + if x == w then 1 else 0
  {
  }

  lemma PrefixSnoc<T>(s: seq<T>, n: nat)
    requires 0 < n <= |s|
    ensures s[..n] == s[..n - 1] + [s[n - 1]]
  {
  }

  /**
   * A matching entry is reported as many times as it is listed, a
   * non-matching one never, however often either occurs in the text.
   */
  lemma MatchedMultiplicity(text: string, words: seq<string>, w: string)
    ensures multiset(Matched(text, words))[w] ==
              if ContainsWholeWord(text, Lower(w)) then multiset(words)[w] else 0
  {
    var flags := WholeWordPresence(text, words);
    SelectMultiplicity(words, flags, |words|, w, ContainsWholeWord(text, Lower(w)));
    assert words[..|words|] == words;
  }

  /** For each entry, whether its lower-case form is contained in `text` as a substring. */
  function Presence(text: string, entries: seq<string>): (flags: seq<bool>)
    ensures |flags| == |entries|
  {
    seq(|entries|, k requires 0 <= k < |entries| => Contains(text, Lower(entries[k])))
  }

  /** The number of set flags among the first `n`. */
  function CountSet(flags: seq<bool>, n: nat): (c: nat)
    requires n <= |flags|
    ensures c <= n
  {
    if n == 0 then 0 else CountSet(flags, n - 1) + (if flags[n - 1] then 1 else 0)
  }

  /** No flag among the first `n` is set exactly when none is counted. */
  lemma {:induction false} CountSetZero(flags: seq<bool>, n: nat)
    requires n <= |flags|
    ensures CountSet(flags, n) == 0 <==> forall k :: 0 <= k < n ==> !flags[k]
  {
    if n > 0 {
      CountSetZero(flags, n - 1);
    }
  }

  /** How many entries of `entries` have their lower-case form contained in `text`. */
  function CountContained(text: string, entries: seq<string>): nat
  {
    CountSet(Presence(text, entries), |entries|)
  }

  /** The count is zero exactly when no entry is contained. */
  lemma CountContainedZero(text: string, entries: seq<string>)
    ensures CountContained(text, entries) == 0 <==>
              forall k :: 0 <= k < |entries| ==> !Contains(text, Lower(entries[k]))
  {
    var flags := Presence(text, entries);
    CountSetZero(flags, |entries|);
    assert forall k :: 0 <= k < |entries| ==> flags[k] == Contains(text, Lower(entries[k]));
  }

  /** `acc` multiplied by `factor` once for every set flag among the first `n`, in order. */
  function ScaleBy(flags: seq<bool>, n: nat, factor: real, acc: real): real
    requires n <= |flags|
  {
    if n == 0 then acc
    else
      var before := ScaleBy(flags, n - 1, factor, acc);
      if flags[n - 1] then before * factor else before
  }

  /** The factor the raw score is scaled by: the intensifier factors, then the softener factors. */
  function Multiplier(text: string, lex: Lexicon): real
  {
    var boost := ScaleBy(Presence(text, lex.intensifiers), |lex.intensifiers|, lex.intensifierMultiplier, 1.0);
    ScaleBy(Presence(text, lex.softeners), |lex.softeners|, lex.softenerMultiplier, boost)
  }

  /** Scaling once per set flag is multiplying by the factor raised to their number. */
  lemma {:induction false} ScaleIsPower(flags: seq<bool>, n: nat, factor: real, acc: real)
    requires n <= |flags|
    ensures ScaleBy(flags, n, factor, acc) == acc * Pow(factor, CountSet(flags, n))
  {
    if n > 0 {
      ScaleIsPower(flags, n - 1, factor, acc);
      if flags[n - 1] {
        PowStep(acc, factor, CountSet(flags, n - 1));
      }
    }
  }

  lemma PowStep(acc: real, b: real, k: nat)
    ensures acc * Pow(b, k) * b == acc * Pow(b, k + 1)
  {
    assert Pow(b, k + 1) == Pow(b, k) * b;
  }

  /**
   * The multiplier is intensifierMultiplier raised to the number of
   * intensifiers present times softenerMultiplier raised to the number of
   * softeners present; with none present it is 1.
   */
  lemma MultiplierIsPowers(text: string, lex: Lexicon)
    ensures Multiplier(text, lex) ==
              Pow(lex.intensifierMultiplier, CountContained(text, lex.intensifiers))
                * Pow(lex.softenerMultiplier, CountContained(text, lex.softeners))
    ensures (CountContained(text, lex.intensifiers) == 0 && CountContained(text, lex.softeners) == 0)
              ==> Multiplier(text, lex) == 1.0
  {
    var boost := ScaleBy(Presence(text, lex.intensifiers), |lex.intensifiers|, lex.intensifierMultiplier, 1.0);
    ScaleIsPower(Presence(text, lex.intensifiers), |lex.intensifiers|, lex.intensifierMultiplier, 1.0);
    ScaleIsPower(Presence(text, lex.softeners), |lex.softeners|, lex.softenerMultiplier, boost);
  }

  /** With positive factors the multiplier is positive, so it never flips the sign of the raw score. */
  lemma MultiplierPositive(text: string, lex: Lexicon)
    requires lex.intensifierMultiplier > 0.0 && lex.softenerMultiplier > 0.0
    ensures Multiplier(text, lex) > 0.0
  {
    MultiplierIsPowers(text, lex);
    PowPositive(lex.intensifierMultiplier, CountContained(text, lex.intensifiers));
    PowPositive(lex.softenerMultiplier, CountContained(text, lex.softeners));
  }

  /** Each positive match weighs positiveWeight, each negative match negativeWeight. */
  function BaseScore(positives: nat, negatives: nat, lex: Lexicon): real
  {
    positives as real * lex.positiveWeight + negatives as real * lex.negativeWeight
  }

  /** The result for the given matches and multiplier: the weighted score, scaled and clamped to the cap. */
  function Score(positive: seq<string>, negative: seq<string>, multiplier: real, lex: Lexicon): AnalysisResult
  {
    var raw := BaseScore(|positive|, |negative|, lex);
    AnalysisResult(Clamp(raw * multiplier, -Cap, Cap), Some(positive), Some(negative), raw)
  }

  /** Score assembled from its parts, as AnalyzeDoctorSpeech computes them step by step. */
  lemma ScoreOfParts(positive: seq<string>, negative: seq<string>, multiplier: real, lex: Lexicon, raw: real, delta: real)
    requires raw == BaseScore(|positive|, |negative|, lex)
    requires delta == Clamp(raw * multiplier, -Cap, Cap)
    ensures Score(positive, negative, multiplier, lex) == AnalysisResult(delta, Some(positive), Some(negative), raw)
  {
  }

  /** The analysis of an already lower-cased, non-empty utterance. */
  function Scored(text: string, lex: Lexicon): AnalysisResult
  {
    Score(Matched(text, lex.positiveWords), Matched(text, lex.negativeWords), Multiplier(text, lex), lex)
  }

  /** The result AnalyzeDoctorSpeech computes for a configuration and an utterance. */
  function Analysis(lex: Option<Lexicon>, speech: Option<string>): AnalysisResult
  {
    if IsNullOrEmpty(speech) || lex.None? then AnalysisResult(0.0, None, None, 0.0)
    else Scored(Lower(speech.value), lex.value)
  }

  class AnxietyAnalyzer {
    /** Assigned once, by the constructor; None stands for a missing configuration. */
    const keywords: Option<Lexicon>

    constructor (keywordConfig: Option<Lexicon>)
      ensures keywords == keywordConfig
    {
      keywords := keywordConfig;
    }

    /** Scores the doctor's utterance against the configured lexicon. */
    method AnalyzeDoctorSpeech(doctorSpeech: Option<string>) returns (r: AnalysisResult)
      ensures r == Analysis(keywords, doctorSpeech)
      ensures -Cap <= r.anxietyDelta <= Cap
      ensures r.matchedPositive.None? <==> IsNullOrEmpty(doctorSpeech) || keywords.None?
      ensures r.matchedNegative.None? <==> IsNullOrEmpty(doctorSpeech) || keywords.None?
      ensures IsNullOrEmpty(doctorSpeech) || keywords.None? ==> r.anxietyDelta == 0.0 && r.rawScore == 0.0
    {
      if IsNullOrEmpty(doctorSpeech) || keywords.None? {
        return AnalysisResult(0.0, None, None, 0.0);
      }
      var lex := keywords.value;
      var lowerSpeech := Lower(doctorSpeech.value);
      var positiveMatches := FindWords(lowerSpeech, lex.positiveWords);
      var negativeMatches := FindWords(lowerSpeech, lex.negativeWords);
      var intensifierMultiplier := GetIntensifierMultiplier(lowerSpeech);
      var baseScore := BaseScore(|positiveMatches|, |negativeMatches|, lex);
      var finalDelta := baseScore * intensifierMultiplier;
      finalDelta := Clamp(finalDelta, -Cap, Cap);
      r := AnalysisResult(finalDelta, Some(positiveMatches), Some(negativeMatches), baseScore);
      ScoreOfParts(positiveMatches, negativeMatches, intensifierMultiplier, lex, baseScore, finalDelta);
    }

    /** The entries of `wordList` found in `text` as whole words, each once, in list order. */
    static method FindWords(text: string, wordList: seq<string>) returns (matches: seq<string>)
      ensures matches == Matched(text, wordList)
    {
      matches := [];
      for i := 0 to |wordList|
        invariant matches == Select(wordList, WholeWordPresence(text, wordList), i)
      {
        var word := wordList[i];
        if ContainsWholeWord(text, Lower(word)) {
          matches := matches + [word];
        }
      }
    }

    /** The product of the intensifier and softener factors for the entries contained in `text`. */
    method GetIntensifierMultiplier(text: string) returns (multiplier: real)
      requires keywords.Some?
      ensures multiplier == Multiplier(text, keywords.value)
    {
      var lex := keywords.value;
      multiplier := 1.0;
      multiplier := ApplyFactors(text, lex.intensifiers, lex.intensifierMultiplier, multiplier);
      multiplier := ApplyFactors(text, lex.softeners, lex.softenerMultiplier, multiplier);
    }

    /** Multiplies `start` by `factor` for each entry of `entries` contained in `text`, in list order. */
    static method ApplyFactors(text: string, entries: seq<string>, factor: real, start: real) returns (multiplier: real)
      ensures multiplier == ScaleBy(Presence(text, entries), |entries|, factor, start)
    {
      multiplier := start;
      for i := 0 to |entries|
        invariant multiplier == ScaleBy(Presence(text, entries), i, factor, start)
      {
        if Contains(text, Lower(entries[i])) {
          multiplier := multiplier * factor;
        }
      }
    }

    /**
     * Weighted average of the service's delta and the lexical delta, boosted
     * by 20% when the two have the same Mathf.Sign (zero counting as
     * positive), then clamped to the cap.
     */
    static function CombineDeltas(llmDelta: real, keywordAnalysis: AnalysisResult,
                                  llmWeight: real := 0.7, keywordWeight: real := 0.3): (r: real)
      ensures -Cap <= r <= Cap
    {
      var combined := llmDelta * llmWeight + keywordAnalysis.anxietyDelta * keywordWeight;
      var boosted := if Sign(llmDelta) == Sign(keywordAnalysis.anxietyDelta) then combined * 1.2 else combined;
      Clamp(boosted, -Cap, Cap)
    }
  }

  /** With positive factors the delta has the sign of the raw score, or is zero with it. */
  lemma AnalysisSign(lex: Lexicon, speech: string)
    requires lex.intensifierMultiplier > 0.0 && lex.softenerMultiplier > 0.0
    ensures var r := Analysis(Some(lex), Some(speech));
            && (r.rawScore > 0.0 ==> r.anxietyDelta > 0.0)
            && (r.rawScore < 0.0 ==> r.anxietyDelta < 0.0)
            && (r.rawScore == 0.0 ==> r.anxietyDelta == 0.0)
  {
    if speech != [] {
      var text := Lower(speech);
      MultiplierPositive(text, lex);
      ProductSign(Scored(text, lex).rawScore, Multiplier(text, lex));
    }
  }

  lemma ProductSign(x: real, m: real)
    requires m > 0.0
    ensures x > 0.0 ==> x * m > 0.0
    ensures x < 0.0 ==> x * m < 0.0
    ensures x == 0.0 ==> x * m == 0.0
  {
  }

  /**
   * Under the default configuration, an utterance that matches only positive
   * words lowers anxiety and one that matches only negative words raises it.
   */
  lemma DefaultDirection(speech: string)
    requires speech != []
    ensures var text := Lower(speech);
            var r := Analysis(Some(Default), Some(speech));
            && (|Matched(text, Default.positiveWords)| > 0 && Matched(text, Default.negativeWords) == [] ==> r.anxietyDelta < 0.0)
            && (Matched(text, Default.positiveWords) == [] && |Matched(text, Default.negativeWords)| > 0 ==> r.anxietyDelta > 0.0)
  {
    DefaultWeights();
    AnalysisSign(Default, speech);
  }

  /**
   * The arithmetic of the worked example "This is very serious, I'm afraid it
   * might be cancer": two negative matches give raw 0.3, the one intensifier
   * scales it to 0.45, and the cap brings it back to 0.3.
   */
  lemma CappedExample()
    ensures Score([], ["serious", "cancer"], 1.5, Default) == AnalysisResult(0.3, Some([]), Some(["serious", "cancer"]), 0.3)
  {
  }

  /** The example utterance after ToLower, cut around the words it matches. */
  const ExampleFront: string := "this is " + "very" + " "
  const ExampleMiddle: string := ", i'm afraid it might be "
  const ExampleText: string := ExampleFront + "serious" + ExampleMiddle + "cancer"

  /** In the example "very" is contained, so the multiplier counts one intensifier. */
  lemma ExampleIntensifier()
    ensures Contains(ExampleText, "very")
  {
    var rest := " " + "serious" + ExampleMiddle + "cancer";
    Regroup4("this is ", "very", " ", "serious", ExampleMiddle, "cancer");
    ContainsInside("this is ", "very", rest);
  }

  lemma Regroup4(a: string, b: string, c: string, d: string, e: string, f: string)
    ensures a + b + c + d + e + f == a + b + (c + d + e + f)
  {
  }

  /** In the example "serious" is found as a whole word. */
  lemma ExampleSerious()
    ensures "serious" in Matched(ExampleText, Default.negativeWords)
  {
    SeriousAt13();
    SeriousListed();
    FoundAt(ExampleText, Default.negativeWords, 2, 13);
  }

  /** A listed word whose lower-case form matches as a whole word somewhere is reported. */
  lemma FoundAt(text: string, words: seq<string>, k: int, i: int)
    requires 0 <= k < |words| && WholeWordAt(text, Lower(words[k]), i)
    ensures words[k] in Matched(text, words)
  {
    ContainsWholeWordSpec(text, Lower(words[k]));
    MatchedMembers(text, words, words[k]);
  }

  lemma SeriousListed()
    ensures Default.negativeWords[2] == "serious" && Lower("serious") == "serious"
  {
    NegativeWordsLowercase();
    LowerOfLowercase(NegativeWords[2]);
  }

  lemma SeriousAt13()
    ensures WholeWordAt(ExampleText, "serious", 13)
  {
    assert ExampleText == ExampleFront + "serious" + (ExampleMiddle + "cancer");
    WholeWordBetween(ExampleFront, "serious", ExampleMiddle + "cancer");
  }

  /** In the example "cancer", at the very end, is found as a whole word. */
  lemma ExampleCancer()
    ensures "cancer" in Matched(ExampleText, Default.negativeWords)
  {
    CancerAt45();
    CancerListed();
    FoundAt(ExampleText, Default.negativeWords, 11, 45);
  }

  lemma CancerListed()
    ensures Default.negativeWords[11] == "cancer" && Lower("cancer") == "cancer"
  {
    NegativeWordsLowercase();
    LowerOfLowercase(NegativeWords[11]);
  }

  lemma CancerAt45()
    ensures WholeWordAt(ExampleText, "cancer", 45)
  {
    var front := ExampleFront + "serious" + ExampleMiddle;
    assert ExampleText == front + "cancer" + "";
    WholeWordBetween(front, "cancer", "");
  }

  /**
   * With the default weights the blend never decreases when the service's
   * delta grows: at zero the agreement test switches, and the switch only
   * ever adds the boost on the side of the larger value.
   */
  lemma CombineMonotone(llm1: real, llm2: real, keywordAnalysis: AnalysisResult)
    requires llm1 <= llm2
    ensures AnxietyAnalyzer.CombineDeltas(llm1, keywordAnalysis) <= AnxietyAnalyzer.CombineDeltas(llm2, keywordAnalysis)
  {
    var k := keywordAnalysis.anxietyDelta;
    var b1 := llm1 * 0.7 + k * 0.3;
    var b2 := llm2 * 0.7 + k * 0.3;
    var c1 := if Sign(llm1) == Sign(k) then b1 * 1.2 else b1;
    var c2 := if Sign(llm2) == Sign(k) then b2 * 1.2 else b2;
    assert c1 <= c2;
    ClampMonotone(c1, c2, -Cap, Cap);
  }

  /** When both deltas point the same strict way, so does the blend. */
  lemma CombineAgreeingSigns(llmDelta: real, keywordAnalysis: AnalysisResult)
    ensures llmDelta > 0.0 && keywordAnalysis.anxietyDelta >= 0.0 ==> AnxietyAnalyzer.CombineDeltas(llmDelta, keywordAnalysis) > 0.0
    ensures llmDelta < 0.0 && keywordAnalysis.anxietyDelta <= 0.0 ==> AnxietyAnalyzer.CombineDeltas(llmDelta, keywordAnalysis) < 0.0
  {
  }

  /**
   * Mathf.Sign counts zero as positive: a zero service delta is boosted
   * together with a positive keyword delta but not with a negative one.
   */
  lemma CombineZeroCountsAsPositive()
    ensures AnxietyAnalyzer.CombineDeltas(0.0, AnalysisResult(0.1, None, None, 0.0)) == 0.036
    ensures AnxietyAnalyzer.CombineDeltas(0.0, AnalysisResult(-0.1, None, None, 0.0)) == -0.03
  {
  }
}

/**
 * The keyword configuration the analyzer scores with (AnxietyKeywords):
 * four word lists and four weights, with the default values the asset is
 * created with.
 */
module Keywords {
  import opened Text

  datatype Lexicon = Lexicon(
    positiveWords: seq<string>,   // lower anxiety when mentioned
    negativeWords: seq<string>,   // raise anxiety when mentioned
    intensifiers: seq<string>,    // amplify the score
    softeners: seq<string>,       // dampen the score
    positiveWeight: real,         // contribution of each positive word
    negativeWeight: real,         // contribution of each negative word
    intensifierMultiplier: real,  // factor per intensifier present
    softenerMultiplier: real      // factor per softener present
  )

  /** The default word lists of the keyword asset. */
  const PositiveWords: seq<string> :=
    [ "good", "great", "easy", "relaxed", "yes", "clear",
      "reassuring", "fine", "better", "hope", "curable",
      "simple", "normal", "healthy", "recover", "improve" ]
  const NegativeWords: seq<string> :=
    [ "bad", "hard", "serious", "no", "die", "death",
      "terrible", "difficult", "wrong", "pain", "painful",
      "cancer", "tumor", "surgery", "chronic", "incurable",
      "severe", "emergency", "critical", "failure", "risk" ]
  const Intensifiers: seq<string> :=
    [ "very", "extremely", "absolutely", "terribly",
      "really", "so", "too", "completely", "totally" ]
  const Softeners: seq<string> :=
    [ "maybe", "possibly", "perhaps", "a little", "slightly",
      "somewhat", "kind of", "a bit", "relatively" ]

  /** The values the keyword asset is initialised with. */
  const Default: Lexicon := Lexicon(PositiveWords, NegativeWords, Intensifiers, Softeners, -0.1, 0.15, 1.5, 0.5)

  /** A word without capitals. */
  predicate IsLowercase(s: string)
  {
    forall i :: 0 <= i < |s| ==> !IsUpper(s[i])
  }

  /** Every entry of every list is already lower-case. */
  predicate AllLowercase(lex: Lexicon)
  {
    && (forall w :: w in lex.positiveWords ==> IsLowercase(w))
    && (forall w :: w in lex.negativeWords ==> IsLowercase(w))
    && (forall w :: w in lex.intensifiers ==> IsLowercase(w))
    && (forall w :: w in lex.softeners ==> IsLowercase(w))
  }

  /** Positive words lower anxiety, negative words raise it, intensifiers amplify, softeners dampen. */
  lemma DefaultWeights()
    ensures Default.positiveWeight < 0.0 < Default.negativeWeight
    ensures Default.intensifierMultiplier > 1.0
    ensures 0.0 < Default.softenerMultiplier < 1.0
  {
  }

  /** The default lists have 16 positive words, 21 negative words, 9 intensifiers and 9 softeners. */
  lemma DefaultSizes()
    ensures |Default.positiveWords| == 16 && |Default.negativeWords| == 21
    ensures |Default.intensifiers| == 9 && |Default.softeners| == 9
  {
  }

  /** No default word is both positive and negative. */
  lemma DefaultDisjoint()
    ensures forall w :: w in Default.positiveWords ==> w !in Default.negativeWords
  {
    PositivesNotNegative();
    forall w | w in Default.positiveWords
      ensures w !in Default.negativeWords
    {
      var i :| 0 <= i < |PositiveWords| && PositiveWords[i] == w;
    }
  }

  lemma PositivesNotNegative()
    ensures forall i :: 0 <= i < |PositiveWords| ==> PositiveWords[i] !in NegativeWords
  {
  }

  /** Each entry of `words` is lower-case, so ToLower leaves it as it is. */
  lemma LowercaseEntries(words: seq<string>)
    requires forall i :: 0 <= i < |words| ==> IsLowercase(words[i])
    ensures forall w :: w in words ==> IsLowercase(w) && Lower(w) == w
  {
    forall w | w in words
      ensures IsLowercase(w) && Lower(w) == w
    {
      var i :| 0 <= i < |words| && words[i] == w;
      LowerOfLowercase(w);
    }
  }

  /** The default entries are lower-case, so the analyzer's ToLower leaves each of them as it is. */
  lemma DefaultLowercase()
    ensures AllLowercase(Default)
    ensures forall w :: w in Default.positiveWords ==> Lower(w) == w
    ensures forall w :: w in Default.negativeWords ==> Lower(w) == w
    ensures forall w :: w in Default.intensifiers ==> Lower(w) == w
    ensures forall w :: w in Default.softeners ==> Lower(w) == w
  {
    PositiveWordsLowercase();
    NegativeWordsLowercase();
    IntensifiersLowercase();
    SoftenersLowercase();
    LowercaseEntries(PositiveWords);
    LowercaseEntries(NegativeWords);
    LowercaseEntries(Intensifiers);
    LowercaseEntries(Softeners);
  }

  lemma PositiveWordsLowercase()
    ensures forall i :: 0 <= i < |PositiveWords| ==> IsLowercase(PositiveWords[i])
  {
  }

  lemma NegativeWordsLowercase()
    ensures forall i :: 0 <= i < |NegativeWords| ==> IsLowercase(NegativeWords[i])
  {
  }

  lemma IntensifiersLowercase()
    ensures forall i :: 0 <= i < |Intensifiers| ==> IsLowercase(Intensifiers[i])
  {
  }

  lemma SoftenersLowercase()
    ensures forall i :: 0 <= i < |Softeners| ==> IsLowercase(Softeners[i])
  {
  }

  /** "a little", "kind of" and "a bit" are multi-word softeners: each holds a space. */
  lemma DefaultPhraseSofteners()
    ensures "a little" in Default.softeners && Contains("a little", " ")
    ensures "kind of" in Default.softeners && Contains("kind of", " ")
    ensures "a bit" in Default.softeners && Contains("a bit", " ")
  {
    assert OccursAt("a little", " ", 1);
    assert OccursAt("kind of", " ", 4);
    assert OccursAt("a bit", " ", 1);
  }
}

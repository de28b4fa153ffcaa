/** The text tests the router applies to a message: the command prefix, Python's
    `str.lower()` and the fixed token lists it compares the lowered text against. */
module Text {

  /** Lower-cases one character. Only the ASCII capitals are mapped; every other
      character is left as it is. */
  function LowerChar(c: char): char
  {
    if 'A' <= c <= 'Z' then (c as int - 'A' as int + 'a' as int) as char else c
  }

  /** The capital of an ASCII small letter; every other character is left as it is. */
  function Capital(c: char): char
  {
    if 'a' <= c <= 'z' then (c as int - 'a' as int + 'A' as int) as char else c
  }

  /** An ASCII-only stand-in for Python's `s.lower()`: the same length, each character
      lower-cased in place by `LowerChar`. It decides the router's two membership tests as
      `s.lower()` does. */
  function Lower(s: string): (r: string)
    ensures |r| == |s|
    ensures forall i :: 0 <= i < |s| ==> r[i] == LowerChar(s[i])
  {
    if s == [] then [] else [LowerChar(s[0])] + Lower(s[1..])
  }

  /** A word written in ASCII small letters only, as every token the router compares with is. */
  predicate IsSmallWord(word: string)
  {
    forall i :: 0 <= i < |word| ==> 'a' <= word[i] <= 'z'
  }

  /** Reference definition of a case-insensitive match: `t` spells `word` letter by letter,
      each letter either as written or as its capital. */
  predicate SpellsIgnoringCase(t: string, word: string)
  {
    |t| == |word| && forall i :: 0 <= i < |t| ==> t[i] == word[i] || t[i] == Capital(word[i])
  }

  /** `message.content.startswith("!")` (bot.py:178). */
  predicate IsCommand(text: string)
  {
    |text| > 0 && text[0] == '!'
  }

  /** The affirmative answers to the journaling offer (bot.py:196). */
  const JournalConfirmWords: seq<string> := ["yes", "y"]

  /** The affirmative answers to the exercise question (bot.py:219). */
  const ExerciseConfirmWords: seq<string> := ["yes", "exercises"]

  /** The mood labels after which the plain yes/no exercise question is asked (bot.py:207). */
  const NegativeMoods: seq<string> := ["Sad", "Stressed", "Anxious", "Frustrated", "Angry"]

  predicate IsJournalConfirm(text: string)
  {
    Lower(text) in JournalConfirmWords
  }

  predicate IsExerciseConfirm(text: string)
  {
    Lower(text) in ExerciseConfirmWords
  }

  /** The mood label is compared as produced, without lower-casing. */
  predicate IsNegativeMood(mood: string)
  {
    mood in NegativeMoods
  }

  lemma LowerCharMatches(c: char, w: char)
    requires 'a' <= w <= 'z'
    ensures LowerChar(c) == w <==> c == w || c == Capital(w)
  {
  }

  /** Lower-casing yields `word` exactly when the text spells `word` in any mix of cases. */
  lemma LowerEqualsIff(t: string, word: string)
    requires IsSmallWord(word)
    ensures Lower(t) == word <==> SpellsIgnoringCase(t, word)
  {
    if Lower(t) == word {
      forall i | 0 <= i < |t| ensures t[i] == word[i] || t[i] == Capital(word[i]) {
        LowerCharMatches(t[i], word[i]);
      }
    }
    if SpellsIgnoringCase(t, word) {
      forall i | 0 <= i < |t| ensures Lower(t)[i] == word[i] {
        LowerCharMatches(t[i], word[i]);
      }
    }
  }

  /** The journaling offer is accepted by "y" and "yes" in any mix of cases, and by nothing else. */
  lemma JournalConfirmSpellings(text: string)
    ensures IsJournalConfirm(text) <==> SpellsIgnoringCase(text, "yes") || SpellsIgnoringCase(text, "y")
  {
    LowerEqualsIff(text, "yes");
    LowerEqualsIff(text, "y");
  }

  /** The exercise question is accepted by "yes" and "exercises" in any mix of cases, and by nothing else. */
  lemma ExerciseConfirmSpellings(text: string)
    ensures IsExerciseConfirm(text) <==> SpellsIgnoringCase(text, "yes") || SpellsIgnoringCase(text, "exercises")
  {
    LowerEqualsIff(text, "yes");
    LowerEqualsIff(text, "exercises");
  }

  /** "yes" in any mix of cases answers both questions. */
  lemma YesAnswersBoth()
    ensures IsJournalConfirm("YeS") && IsExerciseConfirm("YeS")
  {
    var yes := Lower("YeS");
    assert yes == "yes" by {
      assert yes[0] == 'y' && yes[1] == 'e' && yes[2] == 's';
    }
  }

  /** "y" answers only the journaling offer, not the exercise question. */
  lemma YAnswersJournalOnly()
    ensures IsJournalConfirm("Y") && !IsExerciseConfirm("Y")
  {
    var y := Lower("Y");
    assert y == "y" by {
      assert y[0] == 'y';
    }
  }

  /** Surrounding blanks are not stripped: "yes " answers neither question. */
  lemma PaddedYesAnswersNeither()
    ensures !IsJournalConfirm("yes ") && !IsExerciseConfirm("yes ")
  {
    assert |Lower("yes ")| == 4;
  }
}

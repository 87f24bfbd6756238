/** The scoring engine of the tile board: the letter table of `calculateScore`,
    the `reduce` that sums a board, and the `join` that forms the submitted word. */
module Scoring {

  import opened Options

  /** Number of tile slots on the board. */
  const BoardSize: nat := 10

  // ---------------------------------------------------------------------------
  // Case mapping

  /** Upper case of one character, as far as it matters for the letter table:
      ASCII a-z become A-Z, dotless i (U+0131) becomes I and long s (U+017F)
      becomes S; every other character is left as it is. */
  function UpperChar(c: char): char
  {
    if 'a' <= c <= 'z' then (c as int - 32) as char
    else if c == '\U{0131}' then 'I'
    else if c == '\U{017F}' then 'S'
    else c
  }

  /** `toUpperCase` on a string, one character at a time. */
  function ToUpper(s: string): string
  {
    seq(|s|, i requires 0 <= i < |s| => UpperChar(s[i]))
  }

  // ---------------------------------------------------------------------------
  // The letter table

  /** The `letterScores` record: its 26 keys are the one-letter strings A..Z. */
  function LetterScores(key: string): Option<nat>
  {
    if |key| != 1 then None
    else
      match key[0]
      case 'A' => Some(1)  case 'E' => Some(1)  case 'I' => Some(1)
      case 'O' => Some(1)  case 'U' => Some(1)  case 'L' => Some(1)
      case 'N' => Some(1)  case 'S' => Some(1)  case 'T' => Some(1)
      case 'R' => Some(1)
      case 'D' => Some(2)  case 'G' => Some(2)
      case 'B' => Some(3)  case 'C' => Some(3)  case 'M' => Some(3)
      case 'P' => Some(3)
      case 'F' => Some(4)  case 'H' => Some(4)  case 'V' => Some(4)
      case 'W' => Some(4)  case 'Y' => Some(4)
      case 'K' => Some(6)
      case 'J' => Some(8)  case 'X' => Some(8)
      case 'Q' => Some(10) case 'Z' => Some(10)
      case _ => None
  }

  /** `calculateScore(letter)`: look the upper-cased string up in the table;
      a missing key (undefined) and any other falsy value give 0. The result
      is always one of the tile values, so in particular it is at most 10. */
  function CalculateScore(letter: string): (r: nat)
    ensures r in {0, 1, 2, 3, 4, 6, 8, 10}
    ensures r <= 10
  {
    match LetterScores(ToUpper(letter))
    case Some(v) => if v != 0 then v else 0
    case None => 0
  }

  /** Reference table, written the way the tile rules are usually stated:
      groups of capital letters sharing one value. */
  function TileValue(c: char): nat
  {
    if c in "AEIOULNSTR" then 1
    else if c in "DG" then 2
    else if c in "BCMP" then 3
    else if c in "FHVWY" then 4
    else if c == 'K' then 6
    else if c in "JX" then 8
    else if c in "QZ" then 10
    else 0
  }

  predicate IsAsciiUpper(c: char) { 'A' <= c <= 'Z' }

  function AsciiLower(c: char): char
    requires IsAsciiUpper(c)
  {
    (c as int + 32) as char
  }

  /** A character whose upper case is a table key. */
  predicate IsScoringChar(c: char)
  {
    IsAsciiUpper(c) || 'a' <= c <= 'z' || c == '\U{0131}' || c == '\U{017F}'
  }

  /** Every letter A-Z, in either case, scores its table value. */
  lemma CalculateScoreOfLetter(c: char)
    requires IsAsciiUpper(c)
    ensures CalculateScore([c]) == TileValue(c)
    ensures CalculateScore([AsciiLower(c)]) == TileValue(c)
    ensures TileValue(c) > 0
  {
    assert ToUpper([c]) == [c];
    assert ToUpper([AsciiLower(c)]) == [c];
  }

  /** The score is 0 exactly for strings that are not one scoring character:
      the empty string, strings of two or more characters, digits,
      punctuation and letters outside the table. */
  lemma CalculateScoreZeroIff(s: string)
    ensures CalculateScore(s) == 0 <==> !(|s| == 1 && IsScoringChar(s[0]))
  {
    if |s| == 1 {
      var u := UpperChar(s[0]);
      assert ToUpper(s) == [u];
      if IsScoringChar(s[0]) {
        assert IsAsciiUpper(u);
        CalculateScoreOfLetter(u);
        assert CalculateScore(s) == CalculateScore([u]);
      }
    }
  }

  /** The one-letter strings of the worked boards. */
  lemma LetterCases()
    ensures CalculateScore("Q") == 10 && CalculateScore("u") == 1
    ensures CalculateScore("I") == 1 && CalculateScore("z") == 10
    ensures CalculateScore("C") == 3 && CalculateScore("A") == 1 && CalculateScore("T") == 1
    ensures CalculateScore("") == 0
  {
    assert ToUpper("Q") == "Q";
    assert ToUpper("u") == "U";
    assert ToUpper("I") == "I";
    assert ToUpper("z") == "Z";
    assert ToUpper("C") == "C";
    assert ToUpper("A") == "A";
    assert ToUpper("T") == "T";
    assert ToUpper("") == "";
  }

  lemma EmptySlotScoresZero()
    ensures CalculateScore("") == 0
  {
    CalculateScoreZeroIff("");
  }

  // ---------------------------------------------------------------------------
  // Summing a board

  /** `slots.reduce((acc, cur) => acc + calculateScore(cur), acc)`: a left fold. */
  function FoldScores(acc: int, slots: seq<string>): int
    decreases |slots|
  {
    if slots == [] then acc
    else FoldScores(acc + CalculateScore(slots[0]), slots[1..])
  }

  /** The score of a board: the fold started at 0. */
  function TotalScore(slots: seq<string>): int
  {
    FoldScores(0, slots)
  }

  /** The sum of the slot values, the quantity the score must always equal. */
  function SumOfScores(slots: seq<string>): nat
  {
    if slots == [] then 0 else CalculateScore(slots[0]) + SumOfScores(slots[1..])
  }

  /** The fold computes the sum of the slot values, whatever the start value. */
  lemma {:induction false} FoldIsSum(acc: int, slots: seq<string>)
    ensures FoldScores(acc, slots) == acc + SumOfScores(slots)
    decreases |slots|
  {
    if slots != [] {
      FoldIsSum(acc + CalculateScore(slots[0]), slots[1..]);
    }
  }

  /** The board score is the sum of the slot values, and lies between 0 and
      10 per slot. */
  lemma TotalScoreIsSum(slots: seq<string>)
    ensures TotalScore(slots) == SumOfScores(slots)
    ensures 0 <= TotalScore(slots) <= 10 * |slots|
  {
    FoldIsSum(0, slots);
    SumOfScoresBound(slots);
  }

  lemma {:induction false} SumOfScoresBound(slots: seq<string>)
    ensures SumOfScores(slots) <= 10 * |slots|
  {
    if slots != [] {
      SumOfScoresBound(slots[1..]);
    }
  }

  /** A ten-slot board scores between 0 and 100. */
  lemma BoardScoreRange(slots: seq<string>)
    requires |slots| == BoardSize
    ensures 0 <= TotalScore(slots) <= 100
  {
    TotalScoreIsSum(slots);
  }

  /** Overwriting one slot changes the score by the difference of the old and
      the new slot value, and by nothing else. */
  lemma {:induction false} SumOfScoresUpdate(slots: seq<string>, i: nat, letter: string)
    requires i < |slots|
    ensures SumOfScores(slots[i := letter])
         == SumOfScores(slots) - CalculateScore(slots[i]) + CalculateScore(letter)
  {
    if i > 0 {
      assert slots[i := letter][1..] == slots[1..][i - 1 := letter];
      SumOfScoresUpdate(slots[1..], i - 1, letter);
    } else {
      assert slots[i := letter][1..] == slots[1..];
    }
  }

  lemma TotalScoreUpdate(slots: seq<string>, i: nat, letter: string)
    requires i < |slots|
    ensures TotalScore(slots[i := letter])
         == TotalScore(slots) - CalculateScore(slots[i]) + CalculateScore(letter)
  {
    TotalScoreIsSum(slots);
    TotalScoreIsSum(slots[i := letter]);
    SumOfScoresUpdate(slots, i, letter);
  }

  /** A board is positive exactly when some slot scores. */
  lemma {:induction false} SumOfScoresPositiveIff(slots: seq<string>)
    ensures SumOfScores(slots) > 0 <==> exists i :: 0 <= i < |slots| && CalculateScore(slots[i]) > 0
  {
    if slots != [] {
      SumOfScoresPositiveIff(slots[1..]);
      if SumOfScores(slots[1..]) > 0 {
        var i :| 0 <= i < |slots[1..]| && CalculateScore(slots[1..][i]) > 0;
        assert CalculateScore(slots[i + 1]) > 0;
      }
      if exists i :: 0 <= i < |slots| && CalculateScore(slots[i]) > 0 {
        var i :| 0 <= i < |slots| && CalculateScore(slots[i]) > 0;
        if i > 0 {
          assert CalculateScore(slots[1..][i - 1]) > 0;
        }
      }
    }
  }

  /** A slot that holds exactly one character of the table. */
  predicate IsScoringSlot(slot: string)
  {
    |slot| == 1 && IsScoringChar(slot[0])
  }

  /** The save guard `score > 0` holds exactly when some slot holds exactly
      one character whose upper case is a table key (A-Z, a-z, U+0131 or
      U+017F); a board of empties, digits or punctuation is never saved. */
  lemma ScorePositiveIff(slots: seq<string>)
    ensures TotalScore(slots) > 0 <==> exists i :: 0 <= i < |slots| && IsScoringSlot(slots[i])
  {
    TotalScoreIsSum(slots);
    SumOfScoresPositiveIff(slots);
    forall i | 0 <= i < |slots|
      ensures CalculateScore(slots[i]) > 0 <==> IsScoringSlot(slots[i])
    {
      CalculateScoreZeroIff(slots[i]);
    }
  }

  /** Empty slots, and only they, are what a cleared board holds. */
  function EmptyBoard(): seq<string>
  {
    seq(BoardSize, _ => "")
  }

  lemma {:induction false} AllEmptyScoresZero(slots: seq<string>)
    requires forall i :: 0 <= i < |slots| ==> slots[i] == ""
    ensures SumOfScores(slots) == 0
  {
    if slots != [] {
      EmptySlotScoresZero();
      AllEmptyScoresZero(slots[1..]);
    }
  }

  /** A cleared board scores 0. */
  lemma EmptyBoardScoresZero()
    ensures TotalScore(EmptyBoard()) == 0
  {
    TotalScoreIsSum(EmptyBoard());
    AllEmptyScoresZero(EmptyBoard());
  }

  // ---------------------------------------------------------------------------
  // The submitted word

  /** `slots.join("")`: the slots concatenated in order. */
  function Join(slots: seq<string>): string
  {
    if slots == [] then "" else slots[0] + Join(slots[1..])
  }

  lemma {:induction false} JoinAppend(a: seq<string>, b: seq<string>)
    ensures Join(a + b) == Join(a) + Join(b)
  {
    if a != [] {
      assert (a + b)[1..] == a[1..] + b;
      JoinAppend(a[1..], b);
    } else {
      assert a + b == b;
    }
  }

  /** Empty slots contribute nothing to the word: dropping them all gives the
      same word. */
  function NonEmpty(slots: seq<string>): seq<string>
  {
    if slots == [] then []
    else if slots[0] == "" then NonEmpty(slots[1..])
    else [slots[0]] + NonEmpty(slots[1..])
  }

  lemma {:induction false} JoinSkipsEmptySlots(slots: seq<string>)
    ensures Join(NonEmpty(slots)) == Join(slots)
  {
    if slots != [] {
      var rest := NonEmpty(slots[1..]);
      JoinSkipsEmptySlots(slots[1..]);
      assert Join(slots) == slots[0] + Join(slots[1..]);
      if slots[0] == "" {
        assert NonEmpty(slots) == rest;
        assert slots[0] + Join(slots[1..]) == Join(slots[1..]);
      } else {
        var kept := [slots[0]] + rest;
        assert NonEmpty(slots) == kept;
        assert kept[0] == slots[0] && kept[1..] == rest;
        assert Join(kept) == slots[0] + Join(rest);
      }
    }
  }

  /** With one character at most per slot (the input widget's limit), the word
      has one character per filled slot, so never more than the board has slots. */
  lemma {:induction false} JoinLength(slots: seq<string>)
    requires forall i :: 0 <= i < |slots| ==> |slots[i]| <= 1
    ensures |Join(slots)| == |NonEmpty(slots)| <= |slots|
  {
    if slots != [] {
      JoinLength(slots[1..]);
    }
  }

  /** The score of a word read letter by letter. */
  function WordScore(word: string): nat
  {
    if word == [] then 0 else CalculateScore([word[0]]) + WordScore(word[1..])
  }

  lemma {:induction false} WordScoreAppend(a: string, b: string)
    ensures WordScore(a + b) == WordScore(a) + WordScore(b)
  {
    if a != [] {
      assert (a + b)[1..] == a[1..] + b;
      WordScoreAppend(a[1..], b);
    } else {
      assert a + b == b;
    }
  }

  /** With one character at most per slot, the score submitted with a word is
      the score of that word letter by letter: the pair that is saved agrees
      with itself. */
  lemma {:induction false} SavedScoreIsWordScore(slots: seq<string>)
    requires forall i :: 0 <= i < |slots| ==> |slots[i]| <= 1
    ensures TotalScore(slots) == WordScore(Join(slots))
  {
    TotalScoreIsSum(slots);
    if slots != [] {
      SavedScoreIsWordScore(slots[1..]);
      TotalScoreIsSum(slots[1..]);
      WordScoreAppend(slots[0], Join(slots[1..]));
      if |slots[0]| == 1 {
        assert slots[0] == [slots[0][0]];
        assert WordScore(slots[0]) == CalculateScore(slots[0]);
      }
    }
  }

  // ---------------------------------------------------------------------------
  // Worked boards

  lemma {:induction false} SumOfScoresAppend(a: seq<string>, b: seq<string>)
    ensures SumOfScores(a + b) == SumOfScores(a) + SumOfScores(b)
  {
    if a != [] {
      assert (a + b)[1..] == a[1..] + b;
      SumOfScoresAppend(a[1..], b);
    } else {
      assert a + b == b;
    }
  }

  lemma {:induction false} AllEmptyJoinsEmpty(slots: seq<string>)
    requires forall i :: 0 <= i < |slots| ==> slots[i] == ""
    ensures Join(slots) == ""
  {
    if slots != [] {
      AllEmptyJoinsEmpty(slots[1..]);
    }
  }

  /** A board whose first slots are `filled` and whose other slots are empty
      scores and joins as `filled` alone. */
  lemma FilledPrefix(filled: seq<string>, rest: seq<string>)
    requires forall i :: 0 <= i < |rest| ==> rest[i] == ""
    ensures TotalScore(filled + rest) == SumOfScores(filled)
    ensures Join(filled + rest) == Join(filled)
  {
    FoldIsSum(0, filled + rest);
    SumOfScoresAppend(filled, rest);
    AllEmptyScoresZero(rest);
    JoinAppend(filled, rest);
    AllEmptyJoinsEmpty(rest);
  }

  lemma QuizScores22()
    ensures TotalScore(["Q", "U", "I", "Z", "", "", "", "", "", ""]) == 22
  {
    var filled := ["Q", "U", "I", "Z"];
    var rest := ["", "", "", "", "", ""];
    assert filled + rest == ["Q", "U", "I", "Z", "", "", "", "", "", ""];
    FilledPrefix(filled, rest);
    LetterCases();
    CalculateScoreOfLetter('U');
    assert SumOfScores(filled) == 22;
  }

  lemma CatWord()
    ensures Join(["C", "A", "T", "", "", "", "", "", "", ""]) == "CAT"
    ensures TotalScore(["C", "A", "T", "", "", "", "", "", "", ""]) == 5
  {
    var filled := ["C", "A", "T"];
    var rest := ["", "", "", "", "", "", ""];
    assert filled + rest == ["C", "A", "T", "", "", "", "", "", "", ""];
    FilledPrefix(filled, rest);
    LetterCases();
    assert SumOfScores(filled) == 5;
    assert Join(filled) == "CAT";
  }
}

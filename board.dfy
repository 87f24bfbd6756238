/** The state of the tile board and its four handlers: changing a tile,
    clearing the board, saving the word with its score, and loading the
    leaderboard. The two requests to the scoring service are not made here:
    each handler takes the outcome of its request as a parameter. */
module Board {

  import opened Options
  import opened Scoring
  import opened Focus

  /** One leaderboard row as the service returns it. */
  datatype TopScore = TopScore(word: string, score: int)

  /** The body of the save request. */
  datatype SaveRequest = SaveRequest(word: string, score: int)

  class App {
    /** The ten tile slots, in order. */
    var tiles: array<string>
    /** The displayed score. */
    var score: int
    /** The last leaderboard loaded. */
    var topScores: seq<TopScore>

    /** The board has ten slots and the score is the score of those slots. */
    ghost predicate Valid()
      reads this, tiles
    {
      tiles.Length == BoardSize && score == TotalScore(tiles[..])
    }

    /** Initial state: ten empty slots, score 0, no leaderboard. */
    constructor ()
      ensures Valid() && fresh(tiles)
      ensures tiles[..] == EmptyBoard() && score == 0 && topScores == []
    {
      tiles := new string[BoardSize](_ => "");
      score := 0;
      topScores := [];
      new;
      assert tiles[..] == EmptyBoard();
      EmptyBoardScoresZero();
    }

    /** `handleTileChange(letter, index)`: a copy of the board with slot
        `index` overwritten replaces the board, and the score is recomputed
        over the copy. The previous array is left as it was. */
    method HandleTileChange(letter: string, index: nat)
      requires Valid()
      requires index < tiles.Length
      modifies this
      ensures Valid() && fresh(tiles)
      ensures tiles[..] == old(tiles[..])[index := letter]
      ensures |tiles[..]| == |old(tiles[..])|
      ensures forall j :: 0 <= j < tiles.Length && j != index ==> tiles[j] == old(tiles[j])
      ensures score == old(score) - CalculateScore(old(tiles[index])) + CalculateScore(letter)
      ensures topScores == old(topScores)
    {
      var current := tiles[..];
      var newTiles := new string[tiles.Length](i requires 0 <= i < |current| => current[i]);
      newTiles[index] := letter;
      assert newTiles[..] == current[index := letter];
      tiles := newTiles;
      score := TotalScore(newTiles[..]);
      TotalScoreUpdate(current, index, letter);
    }

    /** `handleResetTiles`: ten empty slots and score 0, from any state. */
    method HandleResetTiles()
      modifies this
      ensures Valid() && fresh(tiles)
      ensures tiles[..] == EmptyBoard() && score == 0
      ensures topScores == old(topScores)
    {
      tiles := new string[BoardSize](_ => "");
      score := 0;
      assert tiles[..] == EmptyBoard();
      EmptyBoardScoresZero();
    }

    /** `handleSaveScore`: with a positive score, the request carries the
        slots joined in order and the score; `saved` says whether the request
        and the parse of its response succeeded. Only a request that succeeded
        clears the board; with a score of 0 or less no request is made. */
    method HandleSaveScore(saved: bool) returns (request: Option<SaveRequest>)
      requires Valid()
      modifies this
      ensures Valid()
      ensures request.Some? <==> old(score) > 0
      ensures request.Some? ==> request.value == SaveRequest(Join(old(tiles[..])), old(score))
      ensures request.Some? && saved ==> fresh(tiles) && tiles[..] == EmptyBoard() && score == 0
      ensures !(request.Some? && saved) ==>
                tiles == old(tiles) && tiles[..] == old(tiles[..]) && score == old(score)
      ensures topScores == old(topScores)
    {
      request := None;
      if score > 0 {
        request := Some(SaveRequest(Join(tiles[..]), score));
        if saved {
          HandleResetTiles();
        }
      }
    }

    /** `handleShowScores`: a parsed response replaces the leaderboard
        wholesale; a failed request or parse leaves it as it was. */
    method HandleShowScores(response: Option<seq<TopScore>>)
      modifies this`topScores
      ensures topScores == if response.Some? then response.value else old(topScores)
    {
      if response.Some? {
        topScores := response.value;
      }
    }

    /** The slot the auto-focus effect picks once the board is rendered. */
    method FocusTarget() returns (target: Option<nat>)
      requires Valid()
      ensures target.Some? ==> target.value < tiles.Length && tiles[target.value] == ""
      ensures target.Some? ==> forall j :: 0 <= j < target.value ==> tiles[j] != ""
      ensures target.None? <==> forall j :: 0 <= j < tiles.Length ==> tiles[j] != ""
    {
      FocusOnRenderedBoard(tiles[..]);
      target := FirstEmptySlot(Mounted(tiles[..]));
    }
  }

  /** The score invariant bounds the displayed score. */
  lemma ValidScoreRange(app: App)
    requires app.Valid()
    ensures 0 <= app.score <= 100
  {
    BoardScoreRange(app.tiles[..]);
  }

  // ---------------------------------------------------------------------------
  // Client scenarios: what a caller can conclude from the contracts alone.

  method QuizScenario()
  {
    var app := new App();
    app.HandleTileChange("Q", 0);
    app.HandleTileChange("u", 1);
    app.HandleTileChange("I", 2);
    app.HandleTileChange("z", 3);
    LetterCases();
    assert app.score == 22;
    var focus := app.FocusTarget();
    assert app.tiles[4] == "";
    assert focus == Some(4);
  }

  method NoSaveScenario()
  {
    var app := new App();
    var none := app.HandleSaveScore(true);
    assert none == None && app.score == 0;
    assert app.tiles[..] == EmptyBoard();
  }

  method SaveCatScenario()
  {
    var app := new App();
    app.HandleTileChange("C", 0);
    app.HandleTileChange("A", 1);
    app.HandleTileChange("T", 2);
    LetterCases();
    assert app.score == 5;
    assert app.tiles[..] == ["C", "A", "T", "", "", "", "", "", "", ""];
    CatWord();

    var failed := app.HandleSaveScore(false);
    assert failed == Some(SaveRequest("CAT", 5));
    assert app.score == 5 && app.tiles[..] == ["C", "A", "T", "", "", "", "", "", "", ""];

    var ok := app.HandleSaveScore(true);
    assert ok == Some(SaveRequest("CAT", 5));
    assert app.tiles[..] == EmptyBoard() && app.score == 0;
  }

  method LeaderboardScenario()
  {
    var app := new App();
    app.HandleShowScores(Some([TopScore("ZEBRA", 23)]));
    assert app.topScores == [TopScore("ZEBRA", 23)];
    app.HandleShowScores(None);
    assert app.topScores == [TopScore("ZEBRA", 23)];
  }

}

# Word-tile scoring form, modelled in Dafny

The system is a one-component browser form for a word-tile game (`App` in
`src/App.tsx`). The user types letters into ten ordered slots. The form scores
each letter by the usual tile values and shows the board's total. It can save
the word with its score to a scoring service, clear the board, and load a
leaderboard from the service. After every change of the tiles, input focus
moves to the first empty slot.

The model has four modules:

- `Options` (`options.dfy`): the `Option` datatype.
- `Scoring` (`scoring.dfy`, pure). It holds the letter table of
  `calculateScore`, the upper-casing it applies, the `reduce` that sums a
  board (`FoldScores`, `TotalScore`) and the `join` that forms the word
  (`Join`). Its lemmas relate these to independent reference definitions: the
  grouped tile table `TileValue`, the recursive sum `SumOfScores` and the
  per-letter word score `WordScore`.
- `Focus` (`focus.dfy`, pure). It models the `find` over the input references
  that picks the slot to focus.
- `Board` (`board.dfy`, imperative). Class `App` holds the `tiles` array and
  the `score` and `topScores` fields, and has one method per handler.
  `Valid()` is the invariant that the board has ten slots and the score is
  the score of those slots. Every handler keeps it. The scenario methods at
  the end (`QuizScenario`, `NoSaveScenario`, `SaveCatScenario`,
  `LeaderboardScenario`) show what a
  caller can conclude from the contracts alone.

The two requests to the scoring service are inputs to the model:

- `HandleSaveScore(saved)` takes whether the request *and* the JSON parse of
  its response succeeded.
- `HandleShowScores(response)` takes the parsed leaderboard, or `None` on
  failure.

`fetch` resolves on any HTTP status. In the code, only a network error or a
response body that is not JSON takes the failure path. A non-2xx reply with a
JSON body clears the board like a success. A non-2xx status is therefore not
a failure for this handler: `saved` is true exactly when the catch block is
not reached.

Upper-casing for the letter table covers ASCII `a`-`z`, dotless i (U+0131,
upper case `I`) and long s (U+017F, upper case `S`). We assume these are the
only single characters whose JavaScript `toUpperCase` is a one-letter table
key. Every other character keeps its value in the model. Its real upper case
is never a table key either, so the score is the same. Upper-casing never
turns a string of two or more characters into one character. That is why
`LetterScores` treats every key whose length is not 1 as absent.

## Model

| member | source | states |
|---|---|---|
| `Scoring.UpperChar` | src/App.tsx:48 | no contract of its own: the upper case of one character as far as the table is concerned (a-z, U+0131, U+017F); its meaning is stated by `CalculateScoreOfLetter` and `CalculateScoreZeroIff` |
| `Scoring.ToUpper` | src/App.tsx:48 | no contract of its own: `toUpperCase` applied character by character; its meaning is stated by `CalculateScoreOfLetter` and `CalculateScoreZeroIff` |
| `Scoring.LetterScores` | src/App.tsx:19-46 | no contract of its own: the 26-key `letterScores` record, with every other key absent; its values are stated by `CalculateScoreOfLetter` against the grouped table, and its absent keys by `CalculateScoreZeroIff` |
| `Scoring.CalculateScore` | src/App.tsx:18-49 | every score is one of the tile values 0, 1, 2, 3, 4, 6, 8, 10, so it lies between 0 and 10; it is total (no precondition) |
| `Scoring.CalculateScoreOfLetter` | src/App.tsx:19-48 | for every letter A-Z, the upper-case and the lower-case one-letter string both score that letter's value in the grouped tile table, and that value is positive |
| `Scoring.CalculateScoreZeroIff` | src/App.tsx:48 | the score is 0 exactly when the string is not a single scoring character: empty, longer, a digit, punctuation or a letter outside the table all give 0, and every table letter in either case gives more |
| `Scoring.EmptySlotScoresZero` | src/App.tsx:48 | an empty slot scores 0 |
| `Scoring.FoldScores` | src/App.tsx:56-59 | no contract of its own: the `reduce` left fold with an accumulator; its meaning is stated by `FoldIsSum` |
| `Scoring.TotalScore` | src/App.tsx:56-59 | no contract of its own: the fold started at 0; its meaning and bounds are stated by `TotalScoreIsSum`, `BoardScoreRange` and `TotalScoreUpdate` |
| `Scoring.FoldIsSum` | src/App.tsx:56-59 | the `reduce` left fold from any start value is that start value plus the sum of the slot scores |
| `Scoring.TotalScoreIsSum` | src/App.tsx:56-59 | the score the handler computes equals the sum of the slot scores, and lies between 0 and 10 times the number of slots |
| `Scoring.SumOfScoresBound` | src/App.tsx:19-48 | the sum of the slot scores is at most 10 per slot |
| `Scoring.BoardScoreRange` | src/App.tsx:6 | a ten-slot board scores between 0 and 100 |
| `Scoring.SumOfScoresUpdate` | src/App.tsx:52-59 | overwriting slot `i` changes the sum by exactly the new slot's score minus the old one's |
| `Scoring.TotalScoreUpdate` | src/App.tsx:51-60 | the same for the folded score: after a tile change it differs from before only by the changed slot's difference |
| `Scoring.SumOfScoresPositiveIff` | src/App.tsx:56-59 | the sum is positive if and only if some slot scores a positive value |
| `Scoring.ScorePositiveIff` | src/App.tsx:69 | the save guard `score > 0` holds if and only if some slot holds exactly one character whose upper case is a table key (A-Z, a-z, U+0131 dotless i, U+017F long s) |
| `Scoring.AllEmptyScoresZero` | src/App.tsx:63-66 | a board of empty slots sums to 0 |
| `Scoring.EmptyBoardScoresZero` | src/App.tsx:63-66 | the cleared board's folded score is 0, so the reset pair (empty tiles, score 0) meets the score invariant |
| `Scoring.Join` | src/App.tsx:71 | no contract of its own: `tiles.join("")`, the slots concatenated in order; its meaning is stated by `JoinAppend`, `JoinSkipsEmptySlots` and `JoinLength` |
| `Scoring.JoinAppend` | src/App.tsx:71 | joining two runs of slots is the concatenation of their joins |
| `Scoring.JoinSkipsEmptySlots` | src/App.tsx:71 | empty slots contribute nothing to the word: joining only the non-empty slots, in order, gives the same word |
| `Scoring.JoinLength` | src/App.tsx:71 | with at most one character per slot, the word has exactly one character per filled slot, so it is never longer than the board |
| `Scoring.SavedScoreIsWordScore` | src/App.tsx:56-73 | with at most one character per slot, the score sent with the word equals the word's score counted letter by letter |
| `Scoring.QuizScores22` | src/App.tsx:56-60 | the board Q, U, I, Z followed by six empties scores 22 |
| `Scoring.CatWord` | src/App.tsx:70-73 | the board C, A, T followed by seven empties joins to "CAT" and scores 5 |
| `Focus.FirstEmptySlot` | src/App.tsx:11-16 | the chosen index is the least index of a mounted input with an empty value; the result is `None` exactly when no such input exists |
| `Focus.FocusOnRenderedBoard` | src/App.tsx:11-16 | on a rendered board, the focus goes to the least empty tile, and to none exactly when every tile is filled |
| `Board.App.constructor` | src/App.tsx:6-8 | initial state: ten empty slots, score 0, an empty leaderboard, and the score invariant holds |
| `Board.App.HandleTileChange` | src/App.tsx:51-61 | a fresh copy of the board with slot `index` set to the letter replaces it; other slots, the length and the leaderboard are unchanged; the score invariant holds; the score moves by the new slot's score minus the old one's |
| `Board.App.HandleResetTiles` | src/App.tsx:63-66 | from any state, the result is ten empty slots with score 0; the leaderboard is unchanged and the invariant is re-established |
| `Board.App.HandleSaveScore` | src/App.tsx:68-93 | a request is made if and only if the score is positive; it carries the in-order join of the slots and the score; only a successful request clears the board; a failure or no request leaves board and score as they were; the leaderboard is untouched |
| `Board.App.HandleShowScores` | src/App.tsx:95-106 | a parsed response replaces the leaderboard wholesale; a failure leaves it as it was |
| `Board.App.FocusTarget` | src/App.tsx:11-16 | the slot the effect focuses on the current board is its least empty slot, and it is `None` exactly when all ten slots are filled |
| `Board.ValidScoreRange` | src/App.tsx:56-60 | whenever the invariant holds, the displayed score is between 0 and 100 |

## Left out

- The HTTP requests (`fetch` to the save-score and top-scores endpoints), JSON encoding and parsing, and `console.log`. These are I/O. Each request's outcome is a parameter.
- Asynchrony: the awaits in the two network handlers, and completions arriving out of order. The model applies a handler's effect at once, as one step. The code has no guard against a stale response. If two leaderboard loads overlap, the later completion wins. If a save completes after the user has typed more letters, it still clears the board. The model does not capture those interleavings.
- React mechanics: rendering, `useState` batching, and handlers that read the `tiles` of the render they were created in. Two tile changes within one render are therefore not modelled. The model treats every handler as seeing the latest state.
- The DOM `focus()` call and the timing of the effect. Only the choice of slot is modelled.
- The `maxLength={1}` limit of the input widget. The browser enforces it, not the code. `HandleTileChange` accepts any string. The lemmas that need the limit (`JoinLength`, `SavedScoreIsWordScore`) state it as a precondition.
- Full Unicode case mapping. Only ASCII letters, U+0131 and U+017F are upper-cased (see above). This is an assumption about `toUpperCase`, not something proved.
- The `Letter`, `Score` and `TopScore` types from `./types` are not part of this model. The model uses `string`, `int` and a `TopScore(word, score)` record.
- `HandleShowScores`: a response body that parses as JSON but is not a list of `{word, score}` records is not modelled. The model's response is a sequence of `TopScore` records.
- The display of the leaderboard: the table is rendered only when it is non-empty. This is UI.

# Hangman game state, in Dafny

This project models the state machine behind a browser hangman game for a
host and several guessers. A session runs through these steps:

- choosing a screen;
- creating the game, with the roster and the guess budgets;
- the host choosing a word and a hint;
- playing: guessers take turns guessing letters.

A correct letter scores a point for the guesser and may complete the word.
A wrong letter costs a letter from the guesser's budget, scores a point for
the host and passes the turn. When nobody is left to take the turn, the host
wins the round and banks the letters still hidden plus the host's round
points in the game's cumulative ledger.

The project is in six files:

- `wrappers.dfy`: `Option` and `Result`.
- `strings.dfy`: the string operations the reducer relies on. These are
  upper-casing, for the Latin-1 range, and substring containment.
- `core.dfy`:
  - the state, the action and the roster types;
  - turn resolution (`NextPlayer`) and the per-round resets;
  - the reducer as a total function `Transition`, whose thrown errors become
    `Failure` values;
  - the letter-guess rule as the pure function `LetterGuessed`;
  - the imperative version of that rule, which edits a mutable draft
    (`Draft`, `GuessLetterRecipe`) and is proved equal to `LetterGuessed`;
  - `Reducer`, proved equal to `Transition`.
- `core_properties.dfy`:
  - the shape invariant `Valid`, kept by every transition;
  - the budget bounds, kept by every transition;
  - repeated guesses are no-ops;
  - worked rounds of a two-player game;
  - the five-player case where the turn does not follow seat order.
- `schema.dfy`: the validation rules of the three forms. This includes
  JavaScript's `parseInt`, which the budget fields use to coerce text.
- `utils.dfy`: the player lookup and the class-name helper.

Player ids are taken as given strings; the model does not generate them.

Some behaviours of the code that are easy to miss, and that the model keeps:

- Spaces in the word count as characters still to be guessed.
- A player is skipped for the turn only when the letter budget is exactly 0.
  The word budget plays no part.
- Nothing stops guessing once a round has a winner.
- Ending a round restores every budget to the game maximum. This includes the
  budget of the guesser whose miss lost it.
- Player names are not trimmed. Only empty names are dropped.

The turn index is kept as written: the turn holder's position in the full
roster, plus one, modulo the number of eligible players.

## Model

| member | source | states |
|---|---|---|
| Strings.ToUpper | src/core.tsx:253 | ASCII lower-case letters move down 32 code points; no result is an ASCII lower-case letter; characters that are not lower-case letters are unchanged |
| Strings.Upper | src/core.tsx:235-236 | the upper-cased string has the same length, and each character is the upper case of the original |
| Strings.UpperIdempotent | src/core.tsx:253 | upper-casing an upper-cased string changes nothing |
| Strings.Includes | src/core.tsx:271 | true exactly when the needle occurs at some position of the word |
| Strings.IncludesChar | src/core.tsx:271 | for a one-character needle, containment is membership of that character |
| Core.IndexOf | src/core.tsx:168 | -1 exactly when no player has the id; otherwise the first position whose player has it |
| Core.Eligible | src/core.tsx:143-165 | the filter's test: not the host; while playing, also not the turn holder, with a known budget whose letters are not exactly 0 (stated through `AvailableAmong` and `NextPlayer`) |
| Core.AvailableAmong | src/core.tsx:143-165 | keeps exactly the eligible players; its first element is the first eligible player |
| Core.AvailableAppend | src/core.tsx:143-165 | the filter keeps roster order: filtering two parts of a roster one after the other is filtering the whole |
| Core.AvailableSingle | src/core.tsx:143-165 | a single player is kept exactly when eligible |
| Core.NextPlayer | src/core.tsx:138-174 | never the host; while playing, never the turn holder and never a player whose letter budget is 0; `None` exactly when nobody is eligible; while selecting the word, the first eligible player |
| Core.ResetPoints | src/core.tsx:176-184 | the keys are exactly the roster ids, each mapped to 0 |
| Core.ResetGuesses | src/core.tsx:186-197 | the keys are exactly the roster ids, each mapped to the game's full letter and word budgets |
| Core.FullBudgets | src/core.tsx:187-196 | the keys are exactly the roster ids, each mapped to the given budgets |
| Core.Remaining | src/core.tsx:267-269 | at most the word length, and 0 exactly when every character of the word is guessed; with `RemainingSingle` and `RemainingAppend`, it is exactly the number of unguessed positions |
| Core.RemainingSingle | src/core.tsx:267-269 | one character counts 1 exactly when it is not guessed, and 0 otherwise |
| Core.RemainingAppend | src/core.tsx:267-269 | the count is taken position by position: the count of a concatenation is the sum of the counts of its parts |
| Core.RemainingIgnoresAbsent | src/core.tsx:265-269 | marking a guess that does not occur in the word leaves the count of hidden characters unchanged |
| Core.Ignored | src/core.tsx:255-263 | the two guards: the upper-cased letter was guessed before, or the turn holder's letter budget is at most 0 (stated through `LetterGuessed` and `RepeatedLetterIsNoOp`) |
| Core.WithWinner | src/core.tsx:246-251 | `setWinner` on values: the winner recorded, both guess records cleared, every budget restored (stated through `Draft.SetWinner`, `CorrectGuess` and `HostWins`) |
| Core.Spend | src/core.tsx:286 | one letter spent, the word budget kept (stated through `PassTurn`: the letter budget drops by exactly one) |
| Core.LetterGuessed | src/core.tsx:253-300 | a repeated letter, or a turn holder with no letters left, leaves the state unchanged; any other guess changes it; word, hint and host never change, and the game changes at most in its ledger |
| Core.CorrectGuess | src/core.tsx:265-283 | the turn holder gains exactly one round point and keeps the turn; when nothing is left hidden, the turn holder wins, the guesses are cleared and every budget is restored; otherwise the letter is marked |
| Core.WrongGuess | src/core.tsx:286-299 | the host gains exactly one round point; the game changes at most in its ledger; the round is won by the host exactly when no next player exists, and the winner is untouched otherwise |
| Core.PassTurn | src/core.tsx:286-294 | the letter is marked; the turn holder's letter budget drops by exactly one and stays at least 0; the word budget is unchanged; the turn passes to the next player, who is neither the previous turn holder nor the host |
| Core.HostWins | src/core.tsx:286-299 | the host wins; the game is unchanged except for the ledger, whose host entry grows by the hidden characters plus the host's round points after the miss; guesses are cleared and every budget is restored |
| Core.CreatedGame | src/core.tsx:200-217 | the `createGame` branch, shared by `Transition` and `Reducer` (stated through `Transition`) |
| Core.WordChosen | src/core.tsx:220-242 | the `selectWord` branch, shared by `Transition` and `Reducer` (stated through `Transition`) |
| Core.Transition | src/core.tsx:199-308 | creating a game fails exactly on an empty roster, and otherwise zeroes every ledger entry and makes the first player host; choosing a word fails exactly when no next player exists, and otherwise starts a round with the word and hint upper-cased, no guesses, no winner, zero points, full budgets and the next player on turn; a letter guess applies the letter rule; every other pair leaves the state unchanged |
| Core.Draft.constructor | src/core.tsx:245 | the draft starts as a copy of the playing state's game and round |
| Core.Draft.SetWinner | src/core.tsx:246-251 | records the winner, clears both guess records, restores every budget and leaves the game untouched |
| Core.GuessLetterRecipe | src/core.tsx:244-300 | after the step-by-step edits, the draft is the state the letter rule specifies |
| Core.ScoreCorrect | src/core.tsx:275-283 | the draft after a correct letter is the state the correct-letter rule specifies |
| Core.ScoreWrong | src/core.tsx:286-299 | the draft after a wrong letter is the state the wrong-letter rule specifies |
| Core.HostTakesRound | src/core.tsx:296-299 | the draft after the host banks the round and wins it is the state the host-wins rule specifies |
| Core.Reducer | src/core.tsx:199-308 | the imperative reducer returns what the transition function specifies |
| CoreProperties.TransitionPreservesValid | src/core.tsx:199-308 | every successful transition keeps the shape invariant: the host and the turn holder are on the roster, the host never holds the turn, and every roster id has points and budgets |
| CoreProperties.TransitionKeepsBudgetsInRange | src/core.tsx:260-263 | every letter budget stays between 0 and the game maximum, and every word budget stays at the maximum |
| CoreProperties.RepeatedLetterIsNoOp | src/core.tsx:255-258 | unless the first guess ended the round, guessing the same letter again changes nothing |
| CoreProperties.CorrectLetterReveals | src/core.tsx:265-278 | a correct, new one-character guess strictly lowers the count of hidden characters |
| CoreProperties.MarkingNeverAddsRemaining | src/core.tsx:265-269 | marking a guess never raises the count of hidden characters |
| CoreProperties.TwoPlayerResets | src/core.tsx:176-197 | for the roster H, G: the reset points and budgets are the two-entry maps |
| CoreProperties.UpperCatPet | src/core.tsx:235-236 | "cat" and "pet" upper-case to "CAT" and "PET" |
| CoreProperties.StartOfCatRound | src/core.tsx:200-241 | creating the H, G game and choosing "cat" gives G, the only non-host, the first turn, with full budgets and zero points |
| CoreProperties.CatOccurrences | src/core.tsx:271 | "CAT" contains "C" and "T" but not "X" |
| CoreProperties.CatRemaining | src/core.tsx:267-269 | with only "C" marked, two characters of "CAT" are hidden; with all three marked, none is |
| CoreProperties.CatRoundHitScores | src/core.tsx:255-276 | the guess "c" in the fresh round passes both guards and is scored as a correct letter |
| CoreProperties.RemainingAN | src/core.tsx:267-269 | the hidden count of "AN" is one per unguessed position |
| CoreProperties.RemainingBanana | src/core.tsx:267-269 | the hidden count of "BANANA" has one term per position, so the repeated letters count each time |
| CoreProperties.BananaRemaining | src/core.tsx:267-269 | with "B" guessed, 5 characters of "BANANA" are hidden, not 2 distinct letters; with "A" also guessed, 2 |
| CoreProperties.CatRoundHit | src/core.tsx:265-283 | G's correct "c" marks "C", gives G one point and keeps G on turn |
| CoreProperties.CatRoundNobodyNext | src/core.tsx:143-165 | in the two-player round nobody can take the turn from G |
| CoreProperties.CatRoundMissLoses | src/core.tsx:286-291 | G's miss "x" passes the guards, is not in the word, finds no next player and so ends the round for the host |
| CoreProperties.CatRoundLost | src/core.tsx:286-299 | after the miss, the host is the winner with one round point |
| CoreProperties.CatRoundLostLedger | src/core.tsx:296-299 | the host banks the two hidden characters plus one round point, 3 in all, and G's letter budget is back at the maximum |
| CoreProperties.WinnerDoesNotBlockGuesses | src/core.tsx:244-283 | after G completes "CAT" with "t", the guesses are cleared, so a second "t" scores again: a winner does not stop the round |
| CoreProperties.TurnSkipsSeatOrder | src/core.tsx:167-170 | with host H and A, B, C, D seated in that order, A on turn and B, C, D eligible, the turn goes to D and not to B |
| CoreProperties.FivePlayerAvailable | src/core.tsx:143-165 | in that round the eligible players are exactly B, C, D in seat order |
| CoreProperties.FivePlayerTail | src/core.tsx:143-165 | B, C and D are each eligible in that round |
| Schema.IsJsSpace | src/core.tsx:44 | the white-space and line-terminator characters `parseInt` skips (stated through `TrimStart` and `ParseIntSkipsSpace`) |
| Schema.ValueOf | src/core.tsx:44 | the value of a digit string, most significant digit first (stated through `ValueOfDigits`, `ParseIntDecimal` and `HexOneA`) |
| Schema.ParseInt | src/core.tsx:44 | blank text is NaN, and a negative result needs a leading minus sign; its round trip and hexadecimal reading are stated by `ParseIntDecimal`, `ParseIntNumeral` and `ParseIntHex` |
| Schema.TrimStart | src/core.tsx:44 | the result is a suffix of the text that does not start with white space, and everything removed is white space |
| Schema.DigitValue | src/core.tsx:44 | a value of at most 36, and below 10 exactly for the decimal digits |
| Schema.LeadingDigits | src/core.tsx:44 | the length of the longest prefix of digits of the radix: all before it are digits, the next character is not |
| Schema.SplitSign | src/core.tsx:44 | the text after an optional sign is the text itself or the text without its first character |
| Schema.SplitRadix | src/core.tsx:44 | radix 16 exactly when the text starts with `0x` or `0X`, and then those two characters are dropped; otherwise radix 10 with the text untouched |
| Schema.ReadDigits | src/core.tsx:44 | NaN exactly when the text does not start with a digit of the radix |
| Schema.Digits | src/core.tsx:44 | a decimal numeral has at least one character, all of them decimal digits |
| Schema.Decimal | src/core.tsx:44 | a numeral starts with a minus sign exactly when the number is negative |
| Schema.ParseIntNumeral | src/core.tsx:44 | the numeral of any integer parses back to that integer whatever non-digit text follows it |
| Schema.ParseIntDecimal | src/core.tsx:44 | the numeral of any integer parses back to that integer |
| Schema.ReadHexDigits | src/core.tsx:44 | a hexadecimal run followed by a non-digit is read exactly to its end |
| Schema.HexPrefix | src/core.tsx:44 | text starting with `0x` or `0X` is neither trimmed nor signed, and is read in radix 16 after the prefix |
| Schema.ParseIntHex | src/core.tsx:44 | after a `0x` or `0X` prefix, the longest run of hexadecimal digits is read in radix 16, whatever non-digit text follows |
| Schema.HexOneA | src/core.tsx:44 | the digits "1A" are worth 26 in radix 16 |
| Schema.ParseIntHexExample | src/core.tsx:44 | "0x1A" parses as 26 |
| Schema.ParseIntSkipsSpace | src/core.tsx:44 | leading white space never changes the parse |
| Schema.ParseIntRejects | src/core.tsx:44 | text starting with neither white space, a sign nor a decimal digit is NaN |
| Schema.Names | src/core.tsx:16-19 | a raw list is read as names exactly when every entry is a string, and the names are those strings in order |
| Schema.NonEmpty | src/core.tsx:20 | the kept names are exactly the non-empty ones |
| Schema.NonEmptyAppend | src/core.tsx:20 | dropping empty names keeps order: it distributes over concatenation |
| Schema.EmptyNameIgnored | src/core.tsx:14-37 | adding an empty name to the roster form changes nothing |
| Schema.Enrol | src/core.tsx:20-23 | one player per kept name, in order, with the identifier generated for that position |
| Schema.ValidatePlayers | src/core.tsx:14-37 | the roster passes exactly when it is a list of strings with at least two non-empty names; empty names are dropped; every player has a non-empty name; a value that is not a list of strings is reported as a missing list, and a short roster with the two-player message |
| Schema.ValidateBudget | src/core.tsx:42-60 | a budget passes exactly when it is a number or text that parses as an integer; a number is taken as it is, text as its parse; anything else reports the invalid-option message |
| Schema.BudgetFromText | src/core.tsx:42-47 | a budget typed as the numeral of an integer reads back as that integer |
| Schema.ValidateId | src/core.tsx:40 | the id passes exactly when it is a string; a missing id is reported as required |
| Schema.ValidateText | src/core.tsx:71-72 | a word or hint passes exactly when it is a string of at least 3 characters; the empty string reports both the field's own message and the minimum-length message; 1 or 2 characters report only the minimum length |
| Schema.ValidateGame | src/core.tsx:39-68 | the game form passes exactly when all four fields pass; otherwise it reports the issues of every field, in field order |
| Schema.ValidateWordSelection | src/core.tsx:70-73 | the word form passes exactly when word and hint both have at least 3 characters; otherwise it reports the issues of both fields |
| Schema.ValidatedGameStarts | src/core.tsx:200-217 | whatever passes the game form can be created: the first validated player becomes host, and the roster has at least two players |
| Utils.GetPlayer | src/utils.ts:31-39 | succeeds exactly when some player has the id; the result has the id, is on the roster and is the first such player; a missing id is an error naming the id |
| Utils.GetPlayerSkipsOthers | src/utils.ts:32 | players listed before the first holder of the id never change what the lookup finds |
| Utils.IndexOfSkips | src/utils.ts:32 | positions shift by the length of a prefix that does not hold the id |
| Utils.Render | src/utils.ts:44 | a truthy argument is written as non-empty text |
| Utils.Truthies | src/utils.ts:44 | keeps exactly the truthy arguments |
| Utils.TruthiesAppend | src/utils.ts:44 | filtering keeps relative order: it distributes over concatenation |
| Utils.Join | src/utils.ts:44 | a join starts with its first part |
| Utils.JoinAppend | src/utils.ts:44 | joining two non-empty lists puts exactly one separator between their joins |
| Utils.RenderAll | src/utils.ts:44 | one text per argument, each the argument as joining writes it |
| Utils.Kept | src/utils.ts:44 | one non-empty text per truthy argument |
| Utils.Cn | src/utils.ts:41-45 | the class string is empty exactly when no argument is truthy |
| Utils.CnAppend | src/utils.ts:41-45 | the class string of two lists with truthy arguments is their two class strings joined by one space |
| Utils.Split | src/utils.ts:44 | splitting on single spaces always yields at least one piece |
| Utils.SplitJoin | src/utils.ts:44 | splitting a space-joined list of space-free pieces gives the pieces back |
| Utils.CnSplits | src/utils.ts:41-45 | when no truthy text holds a space, the class string splits back into exactly the rendered truthy arguments, in order |

## Left out

- The provider that keeps tabs in sync over a broadcast channel, with JSON encoding and alerts, is left out; it is I/O.
- The React hooks and components are left out; they render only.
- The sound helper and the logging calls are left out; they are window events and console output.
- The generic validation wrapper is not modelled. Only the rules of the three schemas are, not the validation library that runs them.
- Random UUID generation is not modelled. Player ids are given as a function from position to id. Game ids are taken as given strings.
- Schema.ValidateId: does not check the UUID format of game and player ids, because those ids come from the browser's UUID generator.
- Actions the reducer has no branch for are not modelled individually. They reach the final no-op, as `Unhandled`.
- Schema.ValidateBudget: only integer numbers are modelled. Floating-point budgets, NaN and Infinity passed in as numbers are not. Nor is the rounding of very long numerals.
- Strings.ToUpper: follows the Latin-1 range only; characters beyond U+00FF, and 'ß' becoming "SS", are not modelled.
- Schema.ValidateText: measures length in code points; JavaScript counts UTF-16 code units.
- Core.Remaining: counts the word's code points, where splitting a JavaScript string yields UTF-16 code units. A character beyond U+FFFF therefore counts once here and twice in the source, and so adds one less to the host's bank when a round is lost.
- Core.Transition: requires every playing state, whatever the action, to hold the map keys the letter rule reads; this includes a word guess and a repeated letter, where the source reads none of them. In the source a missing budget for the turn holder throws a TypeError, and a missing points or ledger entry becomes NaN. No such state is reachable from a fresh game (`TransitionPreservesValid`).
- Core.NextPlayer: demands the budgets of every player it examines; the source would fail on a missing one.

/**
 * What the reducer guarantees across transitions: the shape invariant, the
 * budget bounds, repeated guesses, and the worked rounds of a two-player game.
 */
module CoreProperties {
  import opened Wrappers
  import opened Strings
  import opened Core

  /** Every budget lies between 0 and the game's maximum; word budgets never move. */
  predicate BudgetsInRange(s: State)
  {
    match s
    case SelectingWord(_, game, _) => game.maxLetterGuesses >= 0
    case Playing(_, game, r) =>
      && game.maxLetterGuesses >= 0
      && forall id :: id in r.playerGuesses ==>
           && 0 <= r.playerGuesses[id].letters <= game.maxLetterGuesses
           && r.playerGuesses[id].words == game.maxWordGuesses
    case _ => true
  }

  /** The guess that completes the word or loses the round. */
  predicate EndsRound(s: State, L: string)
    requires s.Playing? && Lookups(s)
  {
    && !Ignored(s, L)
    && if Includes(s.round.word, L)
       then Remaining(s.round.word, s.round.lettersGuessed[L := true]) == 0
       else NextPlayer(s).None?
  }

  /** The reducer keeps the shape invariant; in particular the host never holds the turn. */
  lemma {:induction false} TransitionPreservesValid(s: State, a: Action)
    requires Valid(s)
    ensures Transition(s, a).Success? ==> Valid(Transition(s, a).value)
  {
    var r := Transition(s, a);
    if r.Success? {
      var t := r.value;
      if a.SelectWord? && s.SelectingWord? {
        var next := NextPlayer(s).value;
        assert next.id in Ids(s.game.players);
      } else if a.GuessLetter? && s.Playing? {
        var L := Upper(a.letter);
        if !Ignored(s, L) {
          if Includes(s.round.word, L) {
            assert t == CorrectGuess(s, L);
          } else {
            var next := NextPlayer(s);
            if next.Some? {
              assert t == PassTurn(s, L, next.value);
              assert next.value.id in Ids(s.game.players);
            } else {
              assert t == HostWins(s, L);
            }
          }
        }
      } else if a.CreateGame? && s.CreatingGame? {
        assert a.setup.players[0] in a.setup.players;
      }
    }
  }

  /**
   * Budgets never leave [0, maxLetterGuesses] and the word budget never
   * changes, provided the game was created with a non-negative letter budget.
   */
  lemma {:induction false} TransitionKeepsBudgetsInRange(s: State, a: Action)
    requires Lookups(s) && BudgetsInRange(s)
    requires a.CreateGame? ==> a.setup.maxLetterGuesses >= 0
    ensures Transition(s, a).Success? ==> BudgetsInRange(Transition(s, a).value)
  {
    var r := Transition(s, a);
    if r.Success? && a.GuessLetter? && s.Playing? {
      var t := r.value;
      var L := Upper(a.letter);
      if !Ignored(s, L) {
        if Includes(s.round.word, L) {
          assert t == CorrectGuess(s, L);
        } else {
          var next := NextPlayer(s);
          if next.Some? {
            assert t == PassTurn(s, L, next.value);
            forall id | id in t.round.playerGuesses
              ensures 0 <= t.round.playerGuesses[id].letters <= t.game.maxLetterGuesses
              ensures t.round.playerGuesses[id].words == t.game.maxWordGuesses
            {
              if id != s.round.turn {
                assert t.round.playerGuesses[id] == s.round.playerGuesses[id];
              }
            }
          } else {
            assert t == HostWins(s, L);
          }
        }
      }
    }
  }

  /**
   * Guessing the same letter twice in a row: unless the first guess ended the
   * round, the second changes nothing.
   */
  lemma {:induction false} RepeatedLetterIsNoOp(s: State, letter: string)
    requires s.Playing? && Valid(s)
    requires !EndsRound(s, Upper(letter))
    ensures Valid(LetterGuessed(s, letter))
    ensures LetterGuessed(LetterGuessed(s, letter), letter) == LetterGuessed(s, letter)
  {
    TransitionPreservesValid(s, GuessLetter(letter));
    var L := Upper(letter);
    var t := LetterGuessed(s, letter);
    if !Ignored(s, L) {
      if Includes(s.round.word, L) {
        assert t == CorrectGuess(s, L);
      } else {
        assert t == PassTurn(s, L, NextPlayer(s).value);
      }
      assert IsGuessed(t.round.lettersGuessed, L);
    }
  }

  /** A correct one-character guess reveals at least one more character. */
  lemma {:induction false} CorrectLetterReveals(word: string, guessed: map<string, bool>, c: char)
    requires c in word && !IsGuessed(guessed, [c])
    ensures Remaining(word, guessed[[c] := true]) < Remaining(word, guessed)
  {
    if word[0] == c {
      MarkingNeverAddsRemaining(word[1..], guessed, [c]);
    } else {
      CorrectLetterReveals(word[1..], guessed, c);
    }
  }

  lemma {:induction false} MarkingNeverAddsRemaining(word: string, guessed: map<string, bool>, key: string)
    ensures Remaining(word, guessed[key := true]) <= Remaining(word, guessed)
  {
    if word != [] {
      MarkingNeverAddsRemaining(word[1..], guessed, key);
    }
  }

  // ----- concrete rounds -----

  const H := Player("h", "Host")
  const G := Player("g", "Guesser")

  /** A playing state for the two-player game H (host) and G, word "CAT", one letter each. */
  function CatRound(guessed: map<string, bool>, letters: int, points: map<Id, int>): State
  {
    Playing(HostScreen,
      Game("game", 0, 1, [H, G], map["h" := 0, "g" := 0]),
      Round("CAT", guessed, map[], "PET", "h", "g", points, None,
            map["h" := Guesses(0, 1), "g" := Guesses(0, letters)]))
  }

  lemma DistinctIds()
    ensures "h" != "g"
  {
    assert "h"[0] != "g"[0];
  }

  lemma TwoPlayerResets()
    ensures ResetPoints([H, G]) == map["h" := 0, "g" := 0]
    ensures FullBudgets([H, G], Guesses(0, 1)) == map["h" := Guesses(0, 1), "g" := Guesses(0, 1)]
  {
    assert [H, G][..1] == [H] && [H][..0] == [];
  }

  lemma UpperCatPet()
    ensures Upper("cat") == "CAT" && Upper("pet") == "PET"
    ensures Upper("c") == "C" && Upper("x") == "X" && Upper("t") == "T"
  {
  }

  /**
   * Creating the game and choosing the word gives G, the only non-host, the
   * first turn, with every budget full and every point at zero.
   */
  lemma StartOfCatRound()
    ensures
      var created := Transition(CreatingGame(HostScreen), CreateGame(Setup("game", 0, 1, [H, G])));
      && created == Success(SelectingWord(HostScreen, Game("game", 0, 1, [H, G], map["h" := 0, "g" := 0]), "h"))
      && Transition(created.value, SelectWord("cat", "pet"))
         == Success(CatRound(map[], 1, map["h" := 0, "g" := 0]))
  {
    TwoPlayerResets();
    UpperCatPet();
    var s := SelectingWord(HostScreen, Game("game", 0, 1, [H, G], map["h" := 0, "g" := 0]), "h");
    assert NextPlayer(s) == Some(G) by {
      assert Eligible(s, G) && !Eligible(s, H);
      assert [H, G][1..] == [G] && [G][1..] == [];
    }
  }

  lemma CatOccurrences()
    ensures Includes("CAT", "C") && Includes("CAT", "T") && !Includes("CAT", "X")
  {
    assert OccursAt("CAT", "C", 0);
    assert OccursAt("CAT", "T", 2);
    IncludesChar("CAT", 'X');
  }

  lemma CatRemaining()
    ensures Remaining("CAT", map["C" := true]) == 2
    ensures Remaining("CAT", map["T" := true]) == 2
    ensures Remaining("CAT", map["C" := true, "A" := true, "T" := true]) == 0
  {
    assert "CAT"[1..] == "AT" && "AT"[1..] == "T" && "T"[1..] == [];
    assert ["CAT"[0]] == "C" && ["CAT"[1]] == "A" && ["CAT"[2]] == "T";
  }

  /** The hidden count of "AN" under a guess record. */
  lemma RemainingAN(g: map<string, bool>)
    ensures Remaining("AN", g) == (if IsGuessed(g, "A") then 0 else 1) + (if IsGuessed(g, "N") then 0 else 1)
  {
    assert "AN" == ['A'] + ['N'];
    RemainingAppend(['A'], ['N'], g);
    RemainingSingle('A', g);
    RemainingSingle('N', g);
  }

  /** The hidden count of "BANANA" under a guess record, one term per position. */
  lemma RemainingBanana(g: map<string, bool>)
    ensures Remaining("BANANA", g)
            == (if IsGuessed(g, "B") then 0 else 1) + 2 * Remaining("AN", g) + (if IsGuessed(g, "A") then 0 else 1)
  {
    assert "BANANA" == ['B'] + "AN" + "AN" + ['A'];
    RemainingAppend(['B'] + "AN" + "AN", ['A'], g);
    RemainingAppend(['B'] + "AN", "AN", g);
    RemainingAppend(['B'], "AN", g);
    RemainingSingle('B', g);
    RemainingSingle('A', g);
  }

  /** A repeated letter counts at each of its positions, not once. */
  lemma BananaRemaining()
    ensures Remaining("BANANA", map["B" := true]) == 5
    ensures Remaining("BANANA", map["B" := true, "A" := true]) == 2
  {
    RemainingBanana(map["B" := true]);
    RemainingAN(map["B" := true]);
    RemainingBanana(map["B" := true, "A" := true]);
    RemainingAN(map["B" := true, "A" := true]);
  }

  /** G guesses "c": one point to G, and "C" is marked. */
  lemma CatRoundHit()
    ensures LetterGuessed(CatRound(map[], 1, map["h" := 0, "g" := 0]), "c")
            == CatRound(map["C" := true], 1, map["h" := 0, "g" := 1])
  {
    CatRoundHitScores();
    CatRemaining();
  }

  /** The guess "c" in the fresh CAT round is scored as a correct letter. */
  lemma CatRoundHitScores()
    ensures
      var s := CatRound(map[], 1, map["h" := 0, "g" := 0]);
      && !Ignored(s, "C")
      && LetterGuessed(s, "c") == CorrectGuess(s, "C")
  {
    UpperCatPet();
    CatOccurrences();
  }

  /** After G's hit, nobody but G could take the turn, and G holds it. */
  lemma CatRoundNobodyNext()
    ensures NextPlayer(CatRound(map["C" := true], 1, map["h" := 0, "g" := 1])).None?
  {
    var s := CatRound(map["C" := true], 1, map["h" := 0, "g" := 1]);
    assert !Eligible(s, H) && !Eligible(s, G);
    assert NoneEligible(s);
  }

  /**
   * G then guesses "x", a miss: nobody else can guess, so H wins, with the
   * one round point the miss gave H.
   */
  lemma CatRoundLost()
    ensures
      var afterX := LetterGuessed(CatRound(map["C" := true], 1, map["h" := 0, "g" := 1]), "x");
      && afterX.round.winner == Some("h")
      && "h" in afterX.round.points && afterX.round.points["h"] == 1
  {
    DistinctIds();
    CatRoundMissLoses();
  }

  /**
   * The lost round's ledger: H banks the two hidden characters plus H's one
   * round point, and G's letter budget is restored to the maximum.
   */
  lemma CatRoundLostLedger()
    ensures
      var afterX := LetterGuessed(CatRound(map["C" := true], 1, map["h" := 0, "g" := 1]), "x");
      && "h" in afterX.game.playerPoints && afterX.game.playerPoints["h"] == 3
      && "g" in afterX.round.playerGuesses && afterX.round.playerGuesses["g"].letters == 1
  {
    var s := CatRound(map["C" := true], 1, map["h" := 0, "g" := 1]);
    DistinctIds();
    CatRoundMissLoses();
    TwoPlayerResets();
    CatRemaining();
    assert HostWins(s, "X").round.playerGuesses == ResetGuesses(s.game);
  }

  lemma CatRoundMissLoses()
    ensures
      var s := CatRound(map["C" := true], 1, map["h" := 0, "g" := 1]);
      && Lookups(s)
      && !Ignored(s, "X") && !Includes(s.round.word, "X") && NextPlayer(s).None?
      && LetterGuessed(s, "x") == HostWins(s, "X")
  {
    var s := CatRound(map["C" := true], 1, map["h" := 0, "g" := 1]);
    UpperCatPet();
    CatOccurrences();
    CatRoundNobodyNext();
    assert !Ignored(s, "X");
  }

  /**
   * A winner does not stop the round: after G completes "CAT" with "t", the
   * guesses are cleared, so guessing "t" again scores a second time.
   */
  lemma WinnerDoesNotBlockGuesses()
    ensures
      var before := CatRound(map["C" := true, "A" := true], 1, map["h" := 0, "g" := 2]);
      var won := LetterGuessed(before, "t");
      && EndsRound(before, "T")
      && won.round.winner == Some("g")
      && won.round.lettersGuessed == map[]
      && "g" in won.round.points && won.round.points["g"] == 3
      && var again := LetterGuessed(won, "t");
      && "g" in again.round.points && again.round.points["g"] == 4
  {
    var before := CatRound(map["C" := true, "A" := true], 1, map["h" := 0, "g" := 2]);
    UpperCatPet();
    TwoPlayerResets();
    CatOccurrences();
    CatRemaining();
    assert before.round.lettersGuessed["T" := true] == map["C" := true, "A" := true, "T" := true];
    assert !Ignored(before, "T");
    var won := LetterGuessed(before, "t");
    assert won == CorrectGuess(before, "T");
    assert !Ignored(won, "T");
    assert won.round.lettersGuessed["T" := true] == map["T" := true];
    assert LetterGuessed(won, "t") == CorrectGuess(won, "T");
  }

  const A := Player("a", "A")
  const B := Player("b", "B")
  const C := Player("c", "C")
  const D := Player("d", "D")

  /** Host H, then A, B, C, D in seat order; A holds the turn; everyone has a letter left. */
  function FivePlayerRound(): State
  {
    var full := Guesses(0, 1);
    Playing(GameScreen,
      Game("game", 0, 1, [H, A, B, C, D], map[]),
      Round("WORD", map[], map[], "HINT", "h", "a", map[], None,
            map["a" := full, "b" := full, "c" := full, "d" := full]))
  }

  /**
   * The turn order is not seat order: when A misses, the turn goes to D and
   * not to B, because A's roster position (1) plus one is taken modulo the
   * three players left eligible (B, C, D).
   */
  lemma TurnSkipsSeatOrder()
    ensures NextPlayer(FivePlayerRound()) == Some(D)
  {
    var s := FivePlayerRound();
    FivePlayerAvailable();
    assert IndexOf([H, A, B, C, D], "a") == 1;
  }

  /** B, C and D are eligible; the host H and the turn holder A are not. */
  lemma FivePlayerAvailable()
    ensures AvailableAmong(FivePlayerRound(), [H, A, B, C, D]) == [B, C, D]
  {
    var s := FivePlayerRound();
    var ps := [H, A, B, C, D];
    assert !Eligible(s, H) && !Eligible(s, A);
    assert ps[1..] == [A, B, C, D] && ps[1..][1..] == [B, C, D];
    FivePlayerTail();
  }

  lemma FivePlayerTail()
    ensures AvailableAmong(FivePlayerRound(), [B, C, D]) == [B, C, D]
  {
    var s := FivePlayerRound();
    assert Eligible(s, B);
    assert [B, C, D][1..] == [C, D];
    assert AvailableAmong(s, [C, D]) == [C, D] by {
      assert Eligible(s, C) && Eligible(s, D);
      assert [C, D][1..] == [D] && [D][1..] == [];
    }
  }
}

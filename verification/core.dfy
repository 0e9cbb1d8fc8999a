/**
 * The hangman game state machine: its step-tagged state, turn resolution,
 * the per-round resets and the reducer.
 */
module Core {
  import opened Wrappers
  import opened Strings

  /** Player ids are opaque strings (random UUIDs in the running game). */
  type Id = string

  /** Which screen a tab shows: `"host"` or `"game"`. */
  datatype ScreenType = HostScreen | GameScreen

  datatype Player = Player(id: Id, name: string)

  /** What a `createGame` action carries: a game without its score ledger. */
  datatype Setup = Setup(id: Id, maxWordGuesses: int, maxLetterGuesses: int, players: seq<Player>)

  /** A game session; `playerPoints` is the cumulative score ledger. */
  datatype Game = Game(
    id: Id,
    maxWordGuesses: int,
    maxLetterGuesses: int,
    players: seq<Player>,
    playerPoints: map<Id, int>)

  /** A player's remaining guess budget in the current round. */
  datatype Guesses = Guesses(words: int, letters: int)

  /** The round being played; `points` are this round's points. */
  datatype Round = Round(
    word: string,
    lettersGuessed: map<string, bool>,
    wordsGuessed: map<string, bool>,
    hint: string,
    host: Id,
    turn: Id,
    points: map<Id, int>,
    winner: Option<Id>,
    playerGuesses: map<Id, Guesses>)

  /** The state, tagged by step; each step carries exactly its own fields. */
  datatype State =
    | SelectingScreenType
    | CreatingGame(screen: ScreenType)
    | SelectingWord(screen: ScreenType, game: Game, host: Id)
    | Playing(screen: ScreenType, game: Game, round: Round)
  {
    /** The player who picks the word (and does not guess) this round. */
    function Host(): Id
      requires SelectingWord? || Playing?
    {
      if SelectingWord? then host else round.host
    }
  }

  /**
   * The actions the reducer receives. `Unhandled` stands for every action
   * type the user interface dispatches that this reducer has no branch for.
   */
  datatype Action =
    | CreateGame(setup: Setup)
    | SelectWord(word: string, hint: string)
    | GuessWord(guess: string)
    | GuessLetter(letter: string)
    | Unhandled(kind: string)

  /** The errors the reducer throws. */
  datatype Fault =
    | EmptyRoster   // the first player of an empty roster is read
    | NoNextPlayer  // "unable to find next player, invalid game"

  function Ids(players: seq<Player>): set<Id>
  {
    set p | p in players :: p.id
  }

  /** The first roster position whose player has `id`, or -1 when there is none. */
  function IndexOf(players: seq<Player>, id: Id): (i: int)
    ensures -1 <= i < |players|
    ensures i == -1 <==> id !in Ids(players)
    ensures 0 <= i ==> players[i].id == id && forall j :: 0 <= j < i ==> players[j].id != id
  {
    if players == [] then -1
    else if players[0].id == id then 0
    else
      var k := IndexOf(players[1..], id);
      assert Ids(players) == {players[0].id} + Ids(players[1..]) by {
        assert forall p :: p in players <==> p == players[0] || p in players[1..];
      }
      if k == -1 then -1 else k + 1
  }

  // ----- turn resolution -----

  /**
   * The filter of `getNextPlayer`: never the host; while playing, also not the
   * turn holder and not a player whose letter budget is exactly 0.
   */
  predicate Eligible(s: State, p: Player)
    requires s.SelectingWord? || s.Playing?
  {
    && p.id != s.Host()
    && (s.Playing? ==>
          && p.id != s.round.turn
          && p.id in s.round.playerGuesses
          && s.round.playerGuesses[p.id].letters != 0)
  }

  /** While playing, `getNextPlayer` reads the budget of every player it does not skip first. */
  predicate RosterBudgetsKnown(s: State)
    requires s.Playing?
  {
    forall p :: p in s.game.players && p.id != s.round.host && p.id != s.round.turn ==>
      p.id in s.round.playerGuesses
  }

  /** `ps[i]` is eligible and every player before it is not. */
  predicate FirstEligibleAt(s: State, ps: seq<Player>, i: int)
    requires s.SelectingWord? || s.Playing?
  {
    && 0 <= i < |ps|
    && Eligible(s, ps[i])
    && forall j :: 0 <= j < i ==> !Eligible(s, ps[j])
  }

  /** Nobody on the roster is eligible. */
  predicate NoneEligible(s: State)
    requires s.SelectingWord? || s.Playing?
  {
    forall p :: p in s.game.players ==> !Eligible(s, p)
  }

  /** `p` is the first eligible player in roster order. */
  ghost predicate FirstEligible(s: State, p: Player)
    requires s.SelectingWord? || s.Playing?
  {
    exists i :: FirstEligibleAt(s, s.game.players, i) && s.game.players[i] == p
  }

  /** The eligible players of `ps`, in the order of `ps`. */
  function AvailableAmong(s: State, ps: seq<Player>): (r: seq<Player>)
    requires s.SelectingWord? || s.Playing?
    ensures |r| <= |ps|
    ensures forall p :: p in r <==> p in ps && Eligible(s, p)
    ensures r != [] ==> exists i :: FirstEligibleAt(s, ps, i) && ps[i] == r[0]
  {
    if ps == [] then []
    else
      var rest := AvailableAmong(s, ps[1..]);
      assert forall p :: p in ps <==> p == ps[0] || p in ps[1..];
      if Eligible(s, ps[0]) then
        assert FirstEligibleAt(s, ps, 0);
        [ps[0]] + rest
      else
        assert rest != [] ==> exists i :: FirstEligibleAt(s, ps, i) && ps[i] == rest[0] by {
          if rest != [] {
            var i :| FirstEligibleAt(s, ps[1..], i) && ps[1..][i] == rest[0];
            assert FirstEligibleAt(s, ps, i + 1);
          }
        }
        rest
  }

  /**
   * The filter keeps roster order: filtering a roster split in two is
   * filtering each part, in the same order.
   */
  lemma {:induction false} AvailableAppend(s: State, a: seq<Player>, b: seq<Player>)
    requires s.SelectingWord? || s.Playing?
    ensures AvailableAmong(s, a + b) == AvailableAmong(s, a) + AvailableAmong(s, b)
    decreases |a|
  {
    if a == [] {
      assert a + b == b;
    } else {
      assert (a + b)[0] == a[0];
      assert (a + b)[1..] == a[1..] + b;
      AvailableAppend(s, a[1..], b);
      if Eligible(s, a[0]) {
        assert [a[0]] + (AvailableAmong(s, a[1..]) + AvailableAmong(s, b))
               == ([a[0]] + AvailableAmong(s, a[1..])) + AvailableAmong(s, b);
      }
    }
  }

  /** A single player is kept exactly when eligible. */
  lemma AvailableSingle(s: State, p: Player)
    requires s.SelectingWord? || s.Playing?
    ensures AvailableAmong(s, [p]) == if Eligible(s, p) then [p] else []
  {
    assert [p][1..] == [];
  }

  /**
   * `getNextPlayer`. While playing, the turn holder's position in the FULL
   * roster, plus one, is taken modulo the number of eligible players and used
   * as an index into the eligible list. While selecting the word, the first
   * eligible player is chosen. `None` when nobody is eligible.
   */
  function NextPlayer(s: State): (r: Option<Player>)
    requires s.SelectingWord? || s.Playing?
    requires s.Playing? ==> RosterBudgetsKnown(s)
    ensures r.Some? ==> r.value in s.game.players && Eligible(s, r.value)
    ensures r.Some? ==> r.value.id != s.Host()
    ensures s.Playing? && r.Some? ==>
      r.value.id != s.round.turn && s.round.playerGuesses[r.value.id].letters != 0
    ensures r.None? <==> NoneEligible(s)
    ensures s.SelectingWord? && r.Some? ==> FirstEligible(s, r.value)
  {
    var available := AvailableAmong(s, s.game.players);
    if available == [] then
      None
    else if s.Playing? then
      var current := IndexOf(s.game.players, s.round.turn);
      Some(available[(current + 1) % |available|])
    else
      Some(available[0])
  }

  // ----- per-round resets -----

  lemma IdsSnoc(players: seq<Player>)
    requires players != []
    ensures Ids(players) == Ids(players[..|players| - 1]) + {players[|players| - 1].id}
  {
    var n := |players| - 1;
    assert forall p :: p in players <==> p in players[..n] || p == players[n];
  }

  /** `resetPoints`: every roster id scores 0, and no other key is present. */
  function ResetPoints(players: seq<Player>): (m: map<Id, int>)
    ensures m.Keys == Ids(players)
    ensures forall id :: id in m ==> m[id] == 0
  {
    if players == [] then map[]
    else
      IdsSnoc(players);
      ResetPoints(players[..|players| - 1])[players[|players| - 1].id := 0]
  }

  /** `resetGuesses`: every roster id gets the game's full budgets. */
  function ResetGuesses(game: Game): (m: map<Id, Guesses>)
    ensures m.Keys == Ids(game.players)
    ensures forall id :: id in m ==> m[id] == Guesses(game.maxWordGuesses, game.maxLetterGuesses)
  {
    FullBudgets(game.players, Guesses(game.maxWordGuesses, game.maxLetterGuesses))
  }

  function FullBudgets(players: seq<Player>, full: Guesses): (m: map<Id, Guesses>)
    ensures m.Keys == Ids(players)
    ensures forall id :: id in m ==> m[id] == full
  {
    if players == [] then map[]
    else
      IdsSnoc(players);
      FullBudgets(players[..|players| - 1], full)[players[|players| - 1].id := full]
  }

  // ----- letters -----

  /** A key of `lettersGuessed` is guessed when present with a truthy value. */
  predicate IsGuessed(guessed: map<string, bool>, key: string)
  {
    key in guessed && guessed[key]
  }

  /** Every character of `word`, as a one-character key, is guessed. */
  predicate AllGuessed(word: string, guessed: map<string, bool>)
  {
    forall i :: 0 <= i < |word| ==> IsGuessed(guessed, [word[i]])
  }

  /** How many characters of `word` (spaces included) are not yet guessed. */
  function Remaining(word: string, guessed: map<string, bool>): (n: nat)
    ensures n <= |word|
    ensures n == 0 <==> AllGuessed(word, guessed)
  {
    if word == [] then 0
    else
      var rest := Remaining(word[1..], guessed);
      assert forall i :: 1 <= i < |word| ==> [word[i]] == [word[1..][i - 1]];
      (if IsGuessed(guessed, [word[0]]) then 0 else 1) + rest
  }

  /** A single character counts once exactly when it is not guessed. */
  lemma RemainingSingle(c: char, guessed: map<string, bool>)
    ensures Remaining([c], guessed) == if IsGuessed(guessed, [c]) then 0 else 1
  {
    assert [c][1..] == [];
  }

  /** The count is taken position by position: it adds up over concatenation. */
  lemma {:induction false} RemainingAppend(a: string, b: string, guessed: map<string, bool>)
    ensures Remaining(a + b, guessed) == Remaining(a, guessed) + Remaining(b, guessed)
    decreases |a|
  {
    if a == [] {
      assert a + b == b;
    } else {
      assert (a + b)[0] == a[0];
      assert (a + b)[1..] == a[1..] + b;
      RemainingAppend(a[1..], b, guessed);
    }
  }

  /** Marking a guess that does not occur in the word leaves the count unchanged. */
  lemma {:induction false} RemainingIgnoresAbsent(word: string, guessed: map<string, bool>, key: string)
    requires !Includes(word, key)
    ensures Remaining(word, guessed[key := true]) == Remaining(word, guessed)
  {
    if word != [] {
      assert !OccursAt(word, key, 0);
      assert word[..1] == [word[0]];
      assert forall i :: OccursAt(word[1..], key, i) ==> OccursAt(word, key, i + 1);
      RemainingIgnoresAbsent(word[1..], guessed, key);
    }
  }

  // ----- the reducer -----

  /**
   * The lookups the reducer performs while playing must find their key:
   * the turn holder's budget and points, the host's points in the round and
   * in the ledger, and the budgets `getNextPlayer` reads.
   */
  predicate Lookups(s: State)
  {
    s.Playing? ==>
      && RosterBudgetsKnown(s)
      && s.round.turn in s.round.playerGuesses
      && s.round.turn in s.round.points
      && s.round.host in s.round.points
      && s.round.host in s.game.playerPoints
  }

  /**
   * The shape of every state the reducer builds: its lookups succeed, the
   * host (and, while playing, the turn holder) is on the roster, the turn
   * holder is not the host, and every per-player map has an entry for each
   * roster id.
   */
  predicate Valid(s: State)
  {
    && Lookups(s)
    && match s
    case SelectingWord(_, game, host) =>
      && host in Ids(game.players)
      && Ids(game.players) <= game.playerPoints.Keys
    case Playing(_, game, r) =>
      && r.host in Ids(game.players)
      && r.turn in Ids(game.players)
      && r.turn != r.host
      && Ids(game.players) <= game.playerPoints.Keys
      && Ids(game.players) <= r.playerGuesses.Keys
      && Ids(game.players) <= r.points.Keys
    case _ => true
  }

  /** `setWinner`: record the winner, clear the guesses, restore all budgets. */
  function WithWinner(r: Round, id: Id, game: Game): Round
  {
    r.(winner := Some(id), lettersGuessed := map[], wordsGuessed := map[],
       playerGuesses := ResetGuesses(game))
  }

  /** The guard of `guessLetter`: the letter was guessed before, or the turn holder has no letters left. */
  predicate Ignored(s: State, letter: string)
    requires s.Playing? && Lookups(s)
  {
    IsGuessed(s.round.lettersGuessed, letter) || s.round.playerGuesses[s.round.turn].letters <= 0
  }

  /**
   * The `guessLetter` branch, applied to a playing state: what the draft
   * recipe leaves behind. The letter is upper-cased first.
   */
  function LetterGuessed(s: State, letter: string): (t: State)
    requires s.Playing? && Lookups(s)
    ensures t.Playing? && t.screen == s.screen
    ensures t.game.players == s.game.players
    ensures t.game.maxLetterGuesses == s.game.maxLetterGuesses
    ensures t.game.maxWordGuesses == s.game.maxWordGuesses
    ensures t.round.word == s.round.word && t.round.hint == s.round.hint
    ensures t.round.host == s.round.host
    ensures t.game == s.game.(playerPoints := t.game.playerPoints)
    // a repeated letter or an exhausted budget changes nothing
    ensures Ignored(s, Upper(letter)) ==> t == s
    ensures !Ignored(s, Upper(letter)) ==> t != s
  {
    var L := Upper(letter);
    if Ignored(s, L) then s
    else if Includes(s.round.word, L) then CorrectGuess(s, L)
    else WrongGuess(s, L)
  }

  /**
   * A letter that occurs in the word: one point to the turn holder, who keeps
   * the turn; when no character is left unguessed the turn holder wins.
   */
  function CorrectGuess(s: State, L: string): (t: State)
    requires s.Playing? && Lookups(s)
    requires !Ignored(s, L) && Includes(s.round.word, L)
    ensures t.Playing? && t.screen == s.screen && t.game == s.game
    ensures t.round.word == s.round.word && t.round.hint == s.round.hint
    ensures t.round.host == s.round.host && t.round.turn == s.round.turn
    ensures t.round.points == s.round.points[s.round.turn := s.round.points[s.round.turn] + 1]
    ensures Remaining(s.round.word, s.round.lettersGuessed[L := true]) == 0 ==>
      && t.round.winner == Some(s.round.turn)
      && t.round.lettersGuessed == map[] && t.round.wordsGuessed == map[]
      && t.round.playerGuesses == ResetGuesses(s.game)
    ensures Remaining(s.round.word, s.round.lettersGuessed[L := true]) != 0 ==>
      && IsGuessed(t.round.lettersGuessed, L)
      && t.round.lettersGuessed == s.round.lettersGuessed[L := true]
      && t.round.wordsGuessed == s.round.wordsGuessed
      && t.round.playerGuesses == s.round.playerGuesses
      && t.round.winner == s.round.winner
  {
    var r := s.round;
    var marked := r.lettersGuessed[L := true];
    var points := r.points[r.turn := r.points[r.turn] + 1];
    if Remaining(r.word, marked) == 0 then s.(round := WithWinner(r.(points := points), r.turn, s.game))
    else s.(round := r.(lettersGuessed := marked, points := points))
  }

  /**
   * A letter that does not occur in the word: the host gains one point and
   * the turn passes on (`PassTurn`) or, when `NextPlayer` finds nobody in the
   * state before the guess, the host wins the round (`HostWins`).
   */
  function WrongGuess(s: State, L: string): (t: State)
    requires s.Playing? && Lookups(s)
    requires !Ignored(s, L) && !Includes(s.round.word, L)
    ensures t.Playing? && t.screen == s.screen
    ensures t.game.players == s.game.players
    ensures t.game.maxLetterGuesses == s.game.maxLetterGuesses
    ensures t.game.maxWordGuesses == s.game.maxWordGuesses
    ensures t.round.word == s.round.word && t.round.hint == s.round.hint
    ensures t.round.host == s.round.host
    ensures t.game == s.game.(playerPoints := t.game.playerPoints)
    ensures t.round.points == s.round.points[s.round.host := s.round.points[s.round.host] + 1]
    ensures t.round.winner == if NextPlayer(s).Some? then s.round.winner else Some(s.round.host)
  {
    var next := NextPlayer(s);
    if next.Some? then PassTurn(s, L, next.value) else HostWins(s, L)
  }

  /**
   * A miss while someone else can still guess: the turn holder spends one
   * letter, the host gains one point, the letter is marked and the turn moves
   * to `next`.
   */
  function PassTurn(s: State, L: string, next: Player): (t: State)
    requires s.Playing? && Lookups(s)
    requires !Ignored(s, L) && !Includes(s.round.word, L)
    requires NextPlayer(s) == Some(next)
    ensures t.Playing? && t.screen == s.screen && t.game == s.game
    ensures t.round.word == s.round.word && t.round.hint == s.round.hint
    ensures t.round.host == s.round.host && t.round.winner == s.round.winner
    ensures t.round.turn == next.id && t.round.turn != s.round.turn && t.round.turn != s.round.host
    ensures t.round.points == s.round.points[s.round.host := s.round.points[s.round.host] + 1]
    ensures IsGuessed(t.round.lettersGuessed, L)
    ensures t.round.lettersGuessed == s.round.lettersGuessed[L := true]
    ensures t.round.wordsGuessed == s.round.wordsGuessed
    ensures t.round.playerGuesses == s.round.playerGuesses[s.round.turn := Spend(s.round.playerGuesses[s.round.turn])]
    ensures t.round.playerGuesses[s.round.turn].words == s.round.playerGuesses[s.round.turn].words
    ensures 0 <= t.round.playerGuesses[s.round.turn].letters == s.round.playerGuesses[s.round.turn].letters - 1
  {
    var r := s.round;
    s.(round := r.(lettersGuessed := r.lettersGuessed[L := true],
                   playerGuesses := r.playerGuesses[r.turn := Spend(r.playerGuesses[r.turn])],
                   points := r.points[r.host := r.points[r.host] + 1],
                   turn := next.id))
  }

  /**
   * A miss when nobody else can guess: the round is lost. The host gains one
   * round point, banks the characters still unguessed plus the host's round
   * points in the ledger, and becomes the winner; guesses are cleared and the
   * budgets restored.
   */
  function HostWins(s: State, L: string): (t: State)
    requires s.Playing? && Lookups(s)
    requires !Ignored(s, L) && !Includes(s.round.word, L)
    requires NextPlayer(s).None?
    ensures t.Playing? && t.screen == s.screen
    ensures t.game.players == s.game.players
    ensures t.game.maxLetterGuesses == s.game.maxLetterGuesses
    ensures t.game.maxWordGuesses == s.game.maxWordGuesses
    ensures t.round.word == s.round.word && t.round.hint == s.round.hint
    ensures t.round.host == s.round.host && t.round.turn == s.round.turn
    ensures t.game == s.game.(playerPoints := t.game.playerPoints)
    ensures t.round.points == s.round.points[s.round.host := s.round.points[s.round.host] + 1]
    ensures t.round.winner == Some(s.round.host)
    ensures t.game.playerPoints == s.game.playerPoints[s.round.host :=
              s.game.playerPoints[s.round.host]
              + Remaining(s.round.word, s.round.lettersGuessed)
              + s.round.points[s.round.host] + 1]
    ensures t.round.lettersGuessed == map[] && t.round.wordsGuessed == map[]
    ensures t.round.playerGuesses == ResetGuesses(s.game)
  {
    var r := s.round;
    var marked := r.lettersGuessed[L := true];
    RemainingIgnoresAbsent(r.word, r.lettersGuessed, L);
    var points := r.points[r.host := r.points[r.host] + 1];
    var ledger := s.game.playerPoints[r.host := s.game.playerPoints[r.host] + Remaining(r.word, marked) + points[r.host]];
    Playing(s.screen, s.game.(playerPoints := ledger),
            WithWinner(r.(lettersGuessed := marked,
                          playerGuesses := r.playerGuesses[r.turn := Spend(r.playerGuesses[r.turn])],
                          points := points),
                       r.host, s.game))
  }

  /** One letter guess spent. */
  function Spend(g: Guesses): Guesses
  {
    Guesses(g.words, g.letters - 1)
  }

  /** The `createGame` branch: the ledger zeroed and the first player as host. */
  function CreatedGame(s: State, setup: Setup): Result<State, Fault>
    requires s.CreatingGame?
  {
    var players := setup.players;
    if players == [] then Failure(EmptyRoster)
    else
      var game := Game(setup.id, setup.maxWordGuesses, setup.maxLetterGuesses,
                       players, ResetPoints(players));
      Success(SelectingWord(s.screen, game, players[0].id))
  }

  /** The `selectWord` branch: a fresh round with the next player on turn. */
  function WordChosen(s: State, word: string, hint: string): Result<State, Fault>
    requires s.SelectingWord?
  {
    match NextPlayer(s)
    case None => Failure(NoNextPlayer)
    case Some(next) =>
      Success(Playing(s.screen, s.game, Round(
        word := Upper(word),
        lettersGuessed := map[],
        wordsGuessed := map[],
        hint := Upper(hint),
        host := s.host,
        turn := next.id,
        points := ResetPoints(s.game.players),
        winner := None,
        playerGuesses := ResetGuesses(s.game))))
  }

  /**
   * The reducer as a total function of (state, action). Every pair it has no
   * branch for, and `guessWord`, leave the state as it is.
   */
  function Transition(s: State, a: Action): (r: Result<State, Fault>)
    requires Lookups(s)
    // createGame
    ensures a.CreateGame? && s.CreatingGame? ==>
      && (r.Failure? <==> a.setup.players == [])
      && (r.Success? ==>
            && r.value.SelectingWord?
            && r.value.screen == s.screen
            && r.value.host == a.setup.players[0].id
            && var g := r.value.game;
            && g.id == a.setup.id && g.players == a.setup.players
            && g.maxWordGuesses == a.setup.maxWordGuesses
            && g.maxLetterGuesses == a.setup.maxLetterGuesses
            && g.playerPoints.Keys == Ids(a.setup.players)
            && forall p :: p in a.setup.players ==> g.playerPoints[p.id] == 0)
    // selectWord
    ensures a.SelectWord? && s.SelectingWord? ==>
      && (r.Failure? <==> NextPlayer(s).None?)
      && (r.Success? ==>
            && r.value.Playing?
            && r.value.screen == s.screen && r.value.game == s.game
            && var rd := r.value.round;
            && rd.host == s.host
            && rd.word == Upper(a.word) && rd.hint == Upper(a.hint)
            && rd.lettersGuessed == map[] && rd.wordsGuessed == map[]
            && rd.winner == None
            && rd.turn == NextPlayer(s).value.id
            && rd.points.Keys == rd.playerGuesses.Keys == Ids(s.game.players)
            && forall p :: p in s.game.players ==>
                 && rd.points[p.id] == 0
                 && rd.playerGuesses[p.id] == Guesses(s.game.maxWordGuesses, s.game.maxLetterGuesses))
    // guessLetter
    ensures a.GuessLetter? && s.Playing? ==> r == Success(LetterGuessed(s, a.letter))
    // guessWord, and everything without a branch
    ensures (!(a.CreateGame? && s.CreatingGame?) && !(a.SelectWord? && s.SelectingWord?)
             && !(a.GuessLetter? && s.Playing?)) ==> r == Success(s)
  {
    if a.CreateGame? && s.CreatingGame? then
      CreatedGame(s, a.setup)
    else if a.SelectWord? && s.SelectingWord? then
      WordChosen(s, a.word, a.hint)
    else if a.GuessLetter? && s.Playing? then
      Success(LetterGuessed(s, a.letter))
    else if a.GuessWord? && s.Playing? then
      Success(s)
    else
      Success(s)
  }

  // ----- the guessLetter recipe, run against a mutable draft -----

  /** The mutable copy of a playing state that the `guessLetter` recipe edits. */
  class Draft {
    var game: Game
    var round: Round

    constructor (game: Game, round: Round)
      ensures this.game == game && this.round == round
    {
      this.game := game;
      this.round := round;
    }

    /** `setWinner`: overwrites the winner, both guess records and all budgets. */
    method SetWinner(id: Id)
      modifies this
      ensures game == old(game)
      ensures round == WithWinner(old(round), id, game)
    {
      round := round.(winner := Some(id));
      round := round.(lettersGuessed := map[]);
      round := round.(wordsGuessed := map[]);
      round := round.(playerGuesses := ResetGuesses(game));
    }
  }

  /**
   * The `guessLetter` recipe: reads the guards from the untouched state,
   * marks the letter on the draft, then scores the guess.
   */
  method GuessLetterRecipe(state: State, letter: string, draft: Draft)
    requires state.Playing? && Lookups(state)
    requires draft.game == state.game && draft.round == state.round
    modifies draft
    ensures Playing(state.screen, draft.game, draft.round) == LetterGuessed(state, letter)
  {
    var L := Upper(letter);
    if IsGuessed(state.round.lettersGuessed, L) {
      return;
    }
    if state.round.playerGuesses[state.round.turn].letters <= 0 {
      return;
    }
    draft.round := draft.round.(lettersGuessed := draft.round.lettersGuessed[L := true]);
    var remaining := Remaining(draft.round.word, draft.round.lettersGuessed);
    var hasLetter := Includes(draft.round.word, L);
    if hasLetter {
      ScoreCorrect(state, L, remaining, draft);
    } else {
      ScoreWrong(state, L, remaining, draft);
    }
  }

  /** The recipe from `hasLetter` on: a point to the turn holder, and the win if nothing is left. */
  method ScoreCorrect(state: State, L: string, remaining: nat, draft: Draft)
    requires state.Playing? && Lookups(state)
    requires !Ignored(state, L) && Includes(state.round.word, L)
    requires remaining == Remaining(state.round.word, state.round.lettersGuessed[L := true])
    requires draft.game == state.game
    requires draft.round == state.round.(lettersGuessed := state.round.lettersGuessed[L := true])
    modifies draft
    ensures Playing(state.screen, draft.game, draft.round) == CorrectGuess(state, L)
  {
    var turn := draft.round.turn;
    draft.round := draft.round.(points := draft.round.points[turn := draft.round.points[turn] + 1]);
    if remaining == 0 {
      draft.SetWinner(draft.round.turn);
    }
  }

  /**
   * The recipe after a miss: one letter less for the turn holder, a point to
   * the host, then the turn passes on or the host wins the round.
   */
  method ScoreWrong(state: State, L: string, remaining: nat, draft: Draft)
    requires state.Playing? && Lookups(state)
    requires !Ignored(state, L) && !Includes(state.round.word, L)
    requires remaining == Remaining(state.round.word, state.round.lettersGuessed[L := true])
    requires draft.game == state.game
    requires draft.round == state.round.(lettersGuessed := state.round.lettersGuessed[L := true])
    modifies draft
    ensures Playing(state.screen, draft.game, draft.round) == WrongGuess(state, L)
  {
    ghost var r := state.round;
    ghost var marked := r.lettersGuessed[L := true];
    var turn := draft.round.turn;
    var before := draft.round.playerGuesses[turn];
    draft.round := draft.round.(playerGuesses := draft.round.playerGuesses[turn := Guesses(before.words, before.letters - 1)]);
    ghost var budgets := r.playerGuesses[r.turn := Spend(r.playerGuesses[r.turn])];
    assert draft.round == r.(lettersGuessed := marked, playerGuesses := budgets);
    var host := draft.round.host;
    draft.round := draft.round.(points := draft.round.points[host := draft.round.points[host] + 1]);
    ghost var points := r.points[r.host := r.points[r.host] + 1];
    assert draft.round == r.(lettersGuessed := marked, playerGuesses := budgets, points := points);
    var nextPlayer := NextPlayer(state);
    if nextPlayer.Some? {
      draft.round := draft.round.(turn := nextPlayer.value.id);
      assert draft.game == state.game;
      return;
    }
    HostTakesRound(state, L, remaining, draft);
  }

  /** The recipe when nobody can take the turn: the host banks the round and wins it. */
  method HostTakesRound(state: State, L: string, remaining: nat, draft: Draft)
    requires state.Playing? && Lookups(state)
    requires !Ignored(state, L) && !Includes(state.round.word, L) && NextPlayer(state).None?
    requires remaining == Remaining(state.round.word, state.round.lettersGuessed[L := true])
    requires draft.game == state.game
    requires
      var r := state.round;
      draft.round == r.(lettersGuessed := r.lettersGuessed[L := true],
                        playerGuesses := r.playerGuesses[r.turn := Spend(r.playerGuesses[r.turn])],
                        points := r.points[r.host := r.points[r.host] + 1])
    modifies draft
    ensures Playing(state.screen, draft.game, draft.round) == HostWins(state, L)
  {
    ghost var before := draft.round;
    var ledger := draft.game.playerPoints;
    draft.game := draft.game.(playerPoints := ledger[state.round.host :=
      ledger[state.round.host] + remaining + draft.round.points[draft.round.host]]);
    draft.SetWinner(draft.round.host);
    assert draft.round == WithWinner(before, state.round.host, state.game);
  }

  /** `reducer`: builds the new state, running `guessLetter` against a draft. */
  method Reducer(state: State, action: Action) returns (r: Result<State, Fault>)
    requires Lookups(state)
    ensures r == Transition(state, action)
  {
    if action.CreateGame? && state.CreatingGame? {
      return CreatedGame(state, action.setup);
    }
    if action.SelectWord? && state.SelectingWord? {
      return WordChosen(state, action.word, action.hint);
    }
    if action.GuessLetter? && state.Playing? {
      var draft := new Draft(state.game, state.round);
      GuessLetterRecipe(state, action.letter, draft);
      return Success(Playing(state.screen, draft.game, draft.round));
    }
    if action.GuessWord? && state.Playing? {
      return Success(state);
    }
    return Success(state);
  }
}

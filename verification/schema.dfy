/**
 * The validation rules the forms apply before an action reaches the
 * reducer: the roster schema, the game-options schema (with the budgets
 * coerced from text by JavaScript's `parseInt`) and the word/hint schema.
 * Only the rules are modelled; the validation library that runs them is not.
 */
module Schema {
  import opened Wrappers
  import opened Core

  /** An untyped form value, as the schemas receive it. */
  datatype Raw =
    | Str(s: string)
    | Num(n: int)
    | Arr(items: seq<Raw>)
    | Null
    | Absent

  /** What a rejected field reports. */
  datatype Message =
    | Custom(text: string)          // a message written into the schema
    | TooSmall(minimum: nat)        // the library's default "at least n" message
    | InvalidType(expected: string) // the value has the wrong type
    | Required                      // the field is missing

  datatype Field = IdField | MaxWordGuessesField | MaxLetterGuessesField | PlayersField | WordField | HintField

  datatype Issue = Issue(field: Field, message: Message)

  const TooFewPlayers := "Um jogo precisa de pelo menos 2 jogadores"
  const InvalidOption := "Opção inválida"
  const ChooseWord := "Escolha uma palavra"
  const ChooseHint := "Escolha uma dica"

  // ---------------------------------------------------------------------
  // parseInt
  // ---------------------------------------------------------------------

  /** The characters JavaScript's string trimming treats as white space or line terminators. */
  predicate IsJsSpace(c: char)
  {
    c == '\t' || c == '\n' || c == '\U{000B}' || c == '\U{000C}' || c == '\r' || c == ' '
    || c == '\U{00A0}' || c == '\U{1680}' || ('\U{2000}' <= c <= '\U{200A}')
    || c == '\U{2028}' || c == '\U{2029}' || c == '\U{202F}' || c == '\U{205F}'
    || c == '\U{3000}' || c == '\U{FEFF}'
  }

  /** The string with its leading white space removed. */
  function TrimStart(s: string): (r: string)
    ensures |r| <= |s| && r == s[|s| - |r|..]
    ensures r == [] || !IsJsSpace(r[0])
    ensures forall i :: 0 <= i < |s| - |r| ==> IsJsSpace(s[i])
  {
    if s != [] && IsJsSpace(s[0]) then TrimStart(s[1..]) else s
  }

  /** The value of a digit in any radix up to 36; 36 for a character that is no digit. */
  function DigitValue(c: char): (d: nat)
    ensures d <= 36
    ensures d < 10 <==> '0' <= c <= '9'
  {
    if '0' <= c <= '9' then c as int - '0' as int
    else if 'a' <= c <= 'z' then c as int - 'a' as int + 10
    else if 'A' <= c <= 'Z' then c as int - 'A' as int + 10
    else 36
  }

  /** The length of the longest prefix of `s` made of digits of `radix`. */
  function LeadingDigits(s: string, radix: nat): (n: nat)
    ensures n <= |s|
    ensures forall i :: 0 <= i < n ==> DigitValue(s[i]) < radix
    ensures n < |s| ==> DigitValue(s[n]) >= radix
  {
    if s != [] && DigitValue(s[0]) < radix then 1 + LeadingDigits(s[1..], radix) else 0
  }

  /** The number a digit string denotes in `radix`, most significant digit first. */
  function ValueOf(ds: string, radix: nat): nat
  {
    if ds == [] then 0 else ValueOf(ds[..|ds| - 1], radix) * radix + DigitValue(ds[|ds| - 1])
  }

  /** A leading sign: whether it is a minus, and the text after it. */
  function SplitSign(t: string): (r: (bool, string))
    ensures r.1 == t || (t != [] && r.1 == t[1..])
  {
    if t != [] && t[0] == '-' then (true, t[1..])
    else if t != [] && t[0] == '+' then (false, t[1..])
    else (false, t)
  }

  /** A leading `0x` or `0X` selects radix 16 and is dropped; otherwise radix 10. */
  function SplitRadix(u: string): (r: (nat, string))
    ensures r.0 == 10 || r.0 == 16
    ensures r.0 == 16 <==> |u| >= 2 && u[0] == '0' && (u[1] == 'x' || u[1] == 'X')
    ensures r.0 == 16 ==> r.1 == u[2..]
    ensures r.0 == 10 ==> r.1 == u
  {
    if |u| >= 2 && u[0] == '0' && (u[1] == 'x' || u[1] == 'X') then (16, u[2..]) else (10, u)
  }

  /** The value of the longest run of digits at the start of `body`; `None` when the run is empty. */
  function ReadDigits(body: string, radix: nat): (r: Option<nat>)
    ensures r.None? <==> body == [] || DigitValue(body[0]) >= radix
  {
    var n := LeadingDigits(body, radix);
    if n == 0 then None else Some(ValueOf(body[..n], radix))
  }

  /**
   * JavaScript's `parseInt` without a radix argument: skip leading white
   * space, read an optional sign, switch to radix 16 after a `0x`/`0X`
   * prefix, and read the longest run of digits; `None` stands for NaN,
   * the result when that run is empty. Trailing characters are ignored.
   */
  function ParseInt(s: string): (r: Option<int>)
    ensures TrimStart(s) == [] ==> r == None
    ensures r.Some? && r.value < 0 ==> TrimStart(s)[0] == '-'
  {
    var (negative, u) := SplitSign(TrimStart(s));
    var (radix, body) := SplitRadix(u);
    match ReadDigits(body, radix)
    case None => None
    case Some(v) => Some(if negative then -(v as int) else v as int)
  }

  /** One decimal digit as a character. */
  function DigitChar(d: nat): (c: char)
    requires d < 10
    ensures '0' <= c <= '9' && DigitValue(c) == d
  {
    ('0' as int + d) as char
  }

  /** The decimal numeral of a natural number, without leading zeros. */
  function Digits(n: nat): (s: string)
    ensures |s| >= 1
    ensures forall i :: 0 <= i < |s| ==> '0' <= s[i] <= '9'
    ensures n >= 10 ==> |s| >= 2
  {
    if n < 10 then [DigitChar(n)] else Digits(n / 10) + [DigitChar(n % 10)]
  }

  /** How a number is written into a text field: an optional minus sign and its decimal digits. */
  function Decimal(n: int): (s: string)
    ensures |s| >= 1 && (s[0] == '-' <==> n < 0)
  {
    if n < 0 then "-" + Digits(-n) else Digits(n)
  }

  lemma {:induction false} ValueOfDigits(n: nat)
    ensures LeadingDigits(Digits(n), 10) == |Digits(n)|
    ensures ValueOf(Digits(n), 10) == n
    decreases n
  {
    var s := Digits(n);
    if n >= 10 {
      ValueOfDigits(n / 10);
      assert s[..|s| - 1] == Digits(n / 10);
      assert DigitValue(s[|s| - 1]) == n % 10;
    }
  }

  /** What may follow a numeral without being read as part of it. */
  predicate EndsNumeral(t: string)
  {
    t == [] || (DigitValue(t[0]) >= 10 && t[0] != 'x' && t[0] != 'X')
  }

  /** A run of digits followed by a non-digit is read exactly to its end. */
  lemma {:induction false} LeadingDigitsAppend(d: string, t: string, radix: nat)
    requires forall i :: 0 <= i < |d| ==> DigitValue(d[i]) < radix
    requires t == [] || DigitValue(t[0]) >= radix
    ensures LeadingDigits(d + t, radix) == |d|
    decreases |d|
  {
    if d == [] {
      assert d + t == t;
    } else {
      assert (d + t)[0] == d[0];
      assert (d + t)[1..] == d[1..] + t;
      LeadingDigitsAppend(d[1..], t, radix);
    }
  }

  /** The digits of a numeral are read in full, in radix 10, up to the text that follows. */
  lemma ReadDigitsOfNumeral(m: nat, t: string)
    requires EndsNumeral(t)
    ensures SplitRadix(Digits(m) + t) == (10, Digits(m) + t)
    ensures ReadDigits(Digits(m) + t, 10) == Some(m)
  {
    var d := Digits(m);
    ValueOfDigits(m);
    LeadingDigitsAppend(d, t, 10);
    assert (d + t)[..|d|] == d;
    assert (d + t)[0] == d[0] && d[0] != 'x';
    if |d| == 1 {
      assert t != [] ==> (d + t)[1] == t[0];
    } else {
      assert (d + t)[1] == d[1];
    }
  }

  /** A numeral starts with a minus sign or a digit, never with white space. */
  lemma NumeralUntrimmed(n: int, t: string)
    ensures TrimStart(Decimal(n) + t) == Decimal(n) + t
  {
    var s := Decimal(n) + t;
    var c := Decimal(n)[0];
    assert c == '-' || '0' <= c <= '9' by {
      if n >= 0 { assert c == Digits(n)[0]; }
    }
    assert !IsJsSpace(c);
    assert s[0] == c;
  }

  /** A numeral carries a sign exactly when it is negative. */
  lemma SignOfNumeral(n: int, t: string)
    ensures SplitSign(TrimStart(Decimal(n) + t)) == (n < 0, Digits(if n < 0 then -n else n) + t)
  {
    NumeralUntrimmed(n, t);
    var s := Decimal(n) + t;
    assert s[0] == Decimal(n)[0];
    if n < 0 {
      assert s[1..] == Digits(-n) + t;
    } else {
      assert s == Digits(n) + t;
      assert s[0] != '-' && s[0] != '+';
    }
  }

  /**
   * Reading back the numeral of any integer gives that integer, whatever
   * non-digit text follows it (`parseInt("12px")` is 12).
   */
  lemma ParseIntNumeral(n: int, t: string)
    requires EndsNumeral(t)
    ensures ParseInt(Decimal(n) + t) == Some(n)
  {
    SignOfNumeral(n, t);
    ReadDigitsOfNumeral(if n < 0 then -n else n, t);
  }

  /** Reading back the numeral of any integer gives that integer. */
  lemma ParseIntDecimal(n: int)
    ensures ParseInt(Decimal(n)) == Some(n)
  {
    ParseIntNumeral(n, []);
    assert Decimal(n) + [] == Decimal(n);
  }

  /** A hexadecimal run followed by a non-digit is read exactly to its end. */
  lemma ReadHexDigits(h: string, t: string)
    requires h != [] && forall i :: 0 <= i < |h| ==> DigitValue(h[i]) < 16
    requires t == [] || DigitValue(t[0]) >= 16
    ensures ReadDigits(h + t, 16) == Some(ValueOf(h, 16))
  {
    LeadingDigitsAppend(h, t, 16);
    assert (h + t)[..|h|] == h;
  }

  /** Text that starts with `0x` is neither trimmed nor signed, and is read in radix 16. */
  lemma HexPrefix(x: char, rest: string)
    requires x == 'x' || x == 'X'
    ensures SplitSign(TrimStart(['0', x] + rest)) == (false, ['0', x] + rest)
    ensures SplitRadix(['0', x] + rest) == (16, rest)
  {
    var s := ['0', x] + rest;
    assert s[0] == '0' && s[1] == x;
    assert !IsJsSpace(s[0]);
    assert s[2..] == rest;
  }

  /**
   * After a `0x` prefix the longest run of hexadecimal digits is read in
   * radix 16, whatever non-digit text follows it (`parseInt("0x1A")` is 26).
   */
  lemma ParseIntHex(x: char, h: string, t: string)
    requires x == 'x' || x == 'X'
    requires h != [] && forall i :: 0 <= i < |h| ==> DigitValue(h[i]) < 16
    requires t == [] || DigitValue(t[0]) >= 16
    ensures ParseInt(['0', x] + (h + t)) == Some(ValueOf(h, 16))
  {
    HexPrefix(x, h + t);
    ReadHexDigits(h, t);
  }

  /** The digits "1A" are worth 26 in radix 16. */
  lemma HexOneA()
    ensures ValueOf("1A", 16) == 26
  {
    assert "1A"[..1] == "1" && "1"[..0] == [];
  }

  /** `parseInt("0x1A")` is 26. */
  lemma ParseIntHexExample()
    ensures ParseInt("0x1A") == Some(26)
  {
    assert "0x1A" == ['0', 'x'] + ("1A" + []);
    assert DigitValue("1A"[0]) < 16 && DigitValue("1A"[1]) < 16;
    ParseIntHex('x', "1A", []);
    HexOneA();
  }

  /** Leading white space never changes what `parseInt` reads. */
  lemma ParseIntSkipsSpace(c: char, s: string)
    requires IsJsSpace(c)
    ensures ParseInt([c] + s) == ParseInt(s)
  {
    assert ([c] + s)[1..] == s;
  }

  /** Text that starts with neither white space, a sign nor a decimal digit is NaN. */
  lemma ParseIntRejects(s: string)
    requires s != [] ==> !IsJsSpace(s[0]) && s[0] != '-' && s[0] != '+' && DigitValue(s[0]) >= 10
    ensures ParseInt(s) == None
  {
    assert TrimStart(s) == s;
  }

  // ---------------------------------------------------------------------
  // Field rules
  // ---------------------------------------------------------------------

  /** The names of a raw list whose every entry is a string, or `None`. */
  function Names(items: seq<Raw>): (r: Option<seq<string>>)
    ensures r.Some? <==> forall i :: 0 <= i < |items| ==> items[i].Str?
    ensures r.Some? ==> |r.value| == |items| && forall i :: 0 <= i < |items| ==> r.value[i] == items[i].s
  {
    if items == [] then Some([])
    else if !items[0].Str? then None
    else match Names(items[1..])
      case None => None
      case Some(rest) => Some([items[0].s] + rest)
  }

  /** The names that survive the truthiness filter: every non-empty one, in order. */
  function NonEmpty(names: seq<string>): (r: seq<string>)
    ensures |r| <= |names|
    ensures forall x :: x in r <==> x in names && x != []
  {
    if names == [] then []
    else if names[0] == [] then NonEmpty(names[1..])
    else [names[0]] + NonEmpty(names[1..])
  }

  /** The filter keeps the relative order of the names: it distributes over concatenation. */
  lemma {:induction false} NonEmptyAppend(a: seq<string>, b: seq<string>)
    ensures NonEmpty(a + b) == NonEmpty(a) + NonEmpty(b)
    decreases |a|
  {
    if a == [] {
      assert a + b == b;
    } else {
      assert (a + b)[0] == a[0];
      assert (a + b)[1..] == a[1..] + b;
      NonEmptyAppend(a[1..], b);
      if a[0] != [] {
        assert [a[0]] + (NonEmpty(a[1..]) + NonEmpty(b)) == ([a[0]] + NonEmpty(a[1..])) + NonEmpty(b);
      }
    }
  }

  /** An empty name added to the roster form changes nothing. */
  lemma EmptyNameIgnored(items: seq<Raw>, idFor: nat -> Id)
    ensures ValidatePlayers(Arr(items + [Str("")]), idFor) == ValidatePlayers(Arr(items), idFor)
  {
    var more := items + [Str("")];
    assert forall i :: 0 <= i < |items| ==> more[i] == items[i];
    if Names(items).Some? {
      assert more[|items|].Str?;
      assert Names(more).value == Names(items).value + [""];
      NonEmptyAppend(Names(items).value, [""]);
      assert NonEmpty([""]) == [];
      assert NonEmpty(Names(items).value) + [] == NonEmpty(Names(items).value);
    }
  }

  /** Each surviving name gets the identifier generated for its position. */
  function Enrol(names: seq<string>, idFor: nat -> Id): (ps: seq<Player>)
    ensures |ps| == |names|
    ensures forall i :: 0 <= i < |ps| ==> ps[i] == Player(idFor(i), names[i])
  {
    seq(|names|, i requires 0 <= i < |names| => Player(idFor(i), names[i]))
  }

  /**
   * The roster rule: a list of strings loses its empty names, each survivor
   * becomes a player with a fresh identifier, and at least two players must
   * remain; anything but a list of strings is reported as a missing list.
   */
  function ValidatePlayers(raw: Raw, idFor: nat -> Id): (r: Result<seq<Player>, seq<Message>>)
    ensures r.Success? <==> raw.Arr? && Names(raw.items).Some? && |NonEmpty(Names(raw.items).value)| >= 2
    ensures r.Success? ==> r.value == Enrol(NonEmpty(Names(raw.items).value), idFor)
    ensures r.Success? ==> |r.value| >= 2 && forall i :: 0 <= i < |r.value| ==> r.value[i].name != []
    ensures !(raw.Arr? && Names(raw.items).Some?) ==> r == Failure([InvalidType("array")])
    ensures raw.Arr? && Names(raw.items).Some? && r.Failure? ==> r.error == [Custom(TooFewPlayers)]
  {
    if !raw.Arr? then Failure([InvalidType("array")])
    else match Names(raw.items)
      case None => Failure([InvalidType("array")])
      case Some(names) =>
        var kept := NonEmpty(names);
        assert forall i :: 0 <= i < |kept| ==> kept[i] in kept;
        if |kept| < 2 then Failure([Custom(TooFewPlayers)]) else Success(Enrol(kept, idFor))
  }

  /** A guess budget: a number as it is, text through `parseInt`, NaN rejected. */
  function ValidateBudget(raw: Raw): (r: Result<int, seq<Message>>)
    ensures r.Success? <==> raw.Num? || (raw.Str? && ParseInt(raw.s).Some?)
    ensures raw.Num? ==> r == Success(raw.n)
    ensures raw.Str? && ParseInt(raw.s).Some? ==> r == Success(ParseInt(raw.s).value)
    ensures r.Failure? ==> r.error == [Custom(InvalidOption)]
  {
    match raw
    case Num(n) => Success(n)
    case Str(s) =>
      (match ParseInt(s)
       case Some(n) => Success(n)
       case None => Failure([Custom(InvalidOption)]))
    case _ => Failure([Custom(InvalidOption)])
  }

  /** A budget typed into a text field as a numeral is read back unchanged. */
  lemma BudgetFromText(n: int)
    ensures ValidateBudget(Str(Decimal(n))) == Success(n)
  {
    ParseIntDecimal(n);
  }

  /** A string field: present, of string type; the format of game identifiers is not modelled. */
  function ValidateId(raw: Raw): (r: Result<string, seq<Message>>)
    ensures r.Success? <==> raw.Str?
    ensures raw.Str? ==> r.value == raw.s
    ensures raw.Absent? ==> r == Failure([Required])
  {
    match raw
    case Str(s) => Success(s)
    case Absent => Failure([Required])
    case _ => Failure([InvalidType("string")])
  }

  /**
   * The word and the hint: a string of at least one character (with the
   * field's own message) and of at least three (with the default message);
   * both checks run, so the empty string reports both.
   */
  function ValidateText(raw: Raw, choose: string): (r: Result<string, seq<Message>>)
    ensures r.Success? <==> raw.Str? && |raw.s| >= 3
    ensures r.Success? ==> r.value == raw.s
    ensures raw == Str("") ==> r == Failure([Custom(choose), TooSmall(3)])
    ensures raw.Str? && 1 <= |raw.s| < 3 ==> r == Failure([TooSmall(3)])
    ensures raw.Absent? ==> r == Failure([Required])
  {
    match raw
    case Str(s) =>
      if |s| < 1 then Failure([Custom(choose), TooSmall(3)])
      else if |s| < 3 then Failure([TooSmall(3)])
      else Success(s)
    case Absent => Failure([Required])
    case _ => Failure([InvalidType("string")])
  }

  /** The issues a field contributes to its form: none when it passed. */
  function IssuesOf<T>(field: Field, r: Result<T, seq<Message>>): (issues: seq<Issue>)
    ensures issues == [] <==> r.Success? || r.error == []
    ensures r.Failure? ==> |issues| == |r.error| && forall i :: 0 <= i < |issues| ==> issues[i] == Issue(field, r.error[i])
  {
    if r.Success? then [] else seq(|r.error|, i requires 0 <= i < |r.error| => Issue(field, r.error[i]))
  }

  /**
   * The game-options form: every field is checked and the issues of all of
   * them are reported together, in the order the fields are declared.
   */
  function ValidateGame(id: Raw, maxWord: Raw, maxLetter: Raw, players: Raw, idFor: nat -> Id): (r: Result<Setup, seq<Issue>>)
    ensures r.Success? <==>
      ValidateId(id).Success? && ValidateBudget(maxWord).Success?
      && ValidateBudget(maxLetter).Success? && ValidatePlayers(players, idFor).Success?
    ensures r.Success? ==> r.value == Setup(ValidateId(id).value, ValidateBudget(maxWord).value,
                                            ValidateBudget(maxLetter).value, ValidatePlayers(players, idFor).value)
    ensures r.Failure? ==> r.error == IssuesOf(IdField, ValidateId(id)) + IssuesOf(MaxWordGuessesField, ValidateBudget(maxWord))
                                      + IssuesOf(MaxLetterGuessesField, ValidateBudget(maxLetter))
                                      + IssuesOf(PlayersField, ValidatePlayers(players, idFor))
  {
    var i := ValidateId(id);
    var w := ValidateBudget(maxWord);
    var l := ValidateBudget(maxLetter);
    var p := ValidatePlayers(players, idFor);
    if i.Success? && w.Success? && l.Success? && p.Success? then
      Success(Setup(i.value, w.value, l.value, p.value))
    else
      Failure(IssuesOf(IdField, i) + IssuesOf(MaxWordGuessesField, w)
              + IssuesOf(MaxLetterGuessesField, l) + IssuesOf(PlayersField, p))
  }

  /** The word-selection form: word and hint are checked together. */
  function ValidateWordSelection(word: Raw, hint: Raw): (r: Result<(string, string), seq<Issue>>)
    ensures r.Success? <==> word.Str? && |word.s| >= 3 && hint.Str? && |hint.s| >= 3
    ensures r.Success? ==> r.value == (word.s, hint.s)
    ensures r.Failure? ==> r.error == IssuesOf(WordField, ValidateText(word, ChooseWord))
                                      + IssuesOf(HintField, ValidateText(hint, ChooseHint))
  {
    var w := ValidateText(word, ChooseWord);
    var h := ValidateText(hint, ChooseHint);
    if w.Success? && h.Success? then Success((w.value, h.value))
    else Failure(IssuesOf(WordField, w) + IssuesOf(HintField, h))
  }

  /**
   * Whatever passes the game-options form can start a game: the reducer's
   * `createGame` step never meets an empty roster.
   */
  lemma ValidatedGameStarts(screen: ScreenType, id: Raw, maxWord: Raw, maxLetter: Raw, players: Raw, idFor: nat -> Id)
    requires ValidateGame(id, maxWord, maxLetter, players, idFor).Success?
    ensures
      var setup := ValidateGame(id, maxWord, maxLetter, players, idFor).value;
      var r := Transition(CreatingGame(screen), CreateGame(setup));
      && r.Success? && r.value.SelectingWord?
      && r.value.host == setup.players[0].id
      && |r.value.game.players| >= 2
  {
  }
}

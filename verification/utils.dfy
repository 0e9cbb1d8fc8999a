/**
 * The two lookup helpers the screens share: finding a player by id, and
 * building a CSS class string from optional parts.
 */
module Utils {
  import opened Wrappers
  import opened Core

  datatype LookupError = PlayerNotFound(id: Id)

  /**
   * The first player in the roster with the given id; a missing id is an
   * error (the helper throws).
   */
  function GetPlayer(players: seq<Player>, id: Id): (r: Result<Player, LookupError>)
    ensures r.Success? <==> id in Ids(players)
    ensures r.Success? ==> r.value.id == id && r.value in players
    ensures r.Success? ==>
      exists i :: 0 <= i < |players| && players[i] == r.value && forall j :: 0 <= j < i ==> players[j].id != id
    ensures r.Failure? ==> r.error == PlayerNotFound(id)
  {
    var i := IndexOf(players, id);
    if i < 0 then Failure(PlayerNotFound(id)) else Success(players[i])
  }

  /** Positions shift by the length of a prefix that does not hold the id. */
  lemma {:induction false} IndexOfSkips(others: seq<Player>, players: seq<Player>, id: Id)
    requires id !in Ids(others)
    ensures IndexOf(others + players, id)
            == if IndexOf(players, id) == -1 then -1 else |others| + IndexOf(players, id)
    decreases |others|
  {
    if others == [] {
      assert others + players == players;
    } else {
      assert others[0] in others;
      assert (others + players)[0] == others[0];
      assert (others + players)[1..] == others[1..] + players;
      assert Ids(others[1..]) <= Ids(others) by {
        assert forall p :: p in others[1..] ==> p in others;
      }
      IndexOfSkips(others[1..], players, id);
    }
  }

  /** Players listed before the first holder of an id never change what the lookup finds. */
  lemma GetPlayerSkipsOthers(others: seq<Player>, players: seq<Player>, id: Id)
    requires id !in Ids(others)
    ensures GetPlayer(others + players, id) == GetPlayer(players, id)
  {
    IndexOfSkips(others, players, id);
    var all := others + players;
    var k := IndexOf(players, id);
    if k >= 0 {
      assert all[|others| + k] == players[k];
      assert GetPlayer(all, id) == Success(all[|others| + k]);
    } else {
      assert IndexOf(all, id) == -1;
    }
  }

  // ----- class names -----

  /** One argument of the class-name helper. */
  datatype ClassArg = Text(s: string) | Flag(b: bool) | Null | Undefined

  /** JavaScript truthiness of an argument: a non-empty string or `true`. */
  predicate Truthy(c: ClassArg)
  {
    match c
    case Text(s) => s != []
    case Flag(b) => b
    case _ => false
  }

  /** How joining turns an argument into text; `true` is written out as "true". */
  function Render(c: ClassArg): (t: string)
    ensures Truthy(c) ==> t != []
  {
    match c
    case Text(s) => s
    case Flag(b) => if b then "true" else "false"
    case _ => ""
  }

  /** The truthy arguments, in their original order. */
  function Truthies(cs: seq<ClassArg>): (r: seq<ClassArg>)
    ensures |r| <= |cs|
    ensures forall c :: c in r <==> c in cs && Truthy(c)
  {
    if cs == [] then []
    else if Truthy(cs[0]) then [cs[0]] + Truthies(cs[1..])
    else Truthies(cs[1..])
  }

  /** Filtering keeps relative order: it distributes over concatenation. */
  lemma {:induction false} TruthiesAppend(a: seq<ClassArg>, b: seq<ClassArg>)
    ensures Truthies(a + b) == Truthies(a) + Truthies(b)
    decreases |a|
  {
    if a == [] {
      assert a + b == b;
    } else {
      assert (a + b)[0] == a[0];
      assert (a + b)[1..] == a[1..] + b;
      TruthiesAppend(a[1..], b);
      if Truthy(a[0]) {
        assert [a[0]] + (Truthies(a[1..]) + Truthies(b)) == ([a[0]] + Truthies(a[1..])) + Truthies(b);
      }
    }
  }

  /** The parts separated by `sep`, as arrays are joined: nothing for no parts. */
  function Join(parts: seq<string>, sep: string): (r: string)
    ensures parts != [] ==> |parts[0]| <= |r| && r[..|parts[0]|] == parts[0]
  {
    if parts == [] then ""
    else if |parts| == 1 then parts[0]
    else
      var r := parts[0] + sep + Join(parts[1..], sep);
      assert r[..|parts[0]|] == parts[0];
      r
  }

  /** Joining two non-empty lists puts one separator between their joins. */
  lemma {:induction false} JoinAppend(p: seq<string>, q: seq<string>, sep: string)
    requires p != [] && q != []
    ensures Join(p + q, sep) == Join(p, sep) + sep + Join(q, sep)
    decreases |p|
  {
    assert (p + q)[0] == p[0];
    assert (p + q)[1..] == p[1..] + q;
    if |p| > 1 {
      JoinAppend(p[1..], q, sep);
    } else {
      assert p[1..] + q == q;
    }
  }

  /** Each argument as joining writes it. */
  function RenderAll(ts: seq<ClassArg>): (parts: seq<string>)
    ensures |parts| == |ts|
    ensures forall i :: 0 <= i < |ts| ==> parts[i] == Render(ts[i])
  {
    seq(|ts|, i requires 0 <= i < |ts| => Render(ts[i]))
  }

  /** Rendering distributes over concatenation. */
  lemma RenderAllAppend(x: seq<ClassArg>, y: seq<ClassArg>)
    ensures RenderAll(x + y) == RenderAll(x) + RenderAll(y)
  {
    assert forall i :: 0 <= i < |x| ==> (x + y)[i] == x[i];
    assert forall i :: |x| <= i < |x| + |y| ==> (x + y)[i] == y[i - |x|];
  }

  /** The rendered truthy arguments; none of them is empty. */
  function Kept(cs: seq<ClassArg>): (parts: seq<string>)
    ensures |parts| == |Truthies(cs)|
    ensures forall i :: 0 <= i < |parts| ==> parts[i] != []
  {
    var t := Truthies(cs);
    assert forall i :: 0 <= i < |t| ==> t[i] in t;
    RenderAll(t)
  }

  /** The class-name helper: the truthy arguments joined with single spaces. */
  function Cn(cs: seq<ClassArg>): (r: string)
    ensures r == [] <==> forall c :: c in cs ==> !Truthy(c)
  {
    var parts := Kept(cs);
    assert parts == [] <==> forall c :: c in cs ==> !Truthy(c) by {
      if parts != [] {
        assert Truthies(cs)[0] in Truthies(cs);
      }
    }
    Join(parts, " ")
  }

  /** Rendering the kept arguments distributes over concatenation. */
  lemma KeptAppend(a: seq<ClassArg>, b: seq<ClassArg>)
    ensures Kept(a + b) == Kept(a) + Kept(b)
  {
    TruthiesAppend(a, b);
    RenderAllAppend(Truthies(a), Truthies(b));
  }

  /** Class strings compose: the helper on two lists is the two results joined by a space. */
  lemma CnAppend(a: seq<ClassArg>, b: seq<ClassArg>)
    requires exists c :: c in a && Truthy(c)
    requires exists c :: c in b && Truthy(c)
    ensures Cn(a + b) == Cn(a) + " " + Cn(b)
  {
    KeptAppend(a, b);
    var ta := Truthies(a);
    var tb := Truthies(b);
    var c :| c in a && Truthy(c);
    var d :| d in b && Truthy(d);
    assert c in ta && d in tb;
    JoinAppend(Kept(a), Kept(b), " ");
  }

  /** `split(" ")`: the pieces between single spaces; the empty string is one empty piece. */
  function Split(s: string): (r: seq<string>)
    ensures |r| >= 1
  {
    if s == [] then [""]
    else
      var rest := Split(s[1..]);
      if s[0] == ' ' then [""] + rest else [[s[0]] + rest[0]] + rest[1..]
  }

  /** A piece without spaces is read as the start of the first piece. */
  lemma {:induction false} SplitWord(w: string, t: string)
    requires ' ' !in w
    ensures Split(w + t) == [w + Split(t)[0]] + Split(t)[1..]
    decreases |w|
  {
    if w == [] {
      assert w + t == t;
      assert w + Split(t)[0] == Split(t)[0];
      assert Split(t) == [Split(t)[0]] + Split(t)[1..];
    } else {
      assert (w + t)[0] == w[0] && w[0] in w;
      assert (w + t)[1..] == w[1..] + t;
      SplitWord(w[1..], t);
      assert [w[0]] + (w[1..] + Split(t)[0]) == w + Split(t)[0];
    }
  }

  /** Splitting a space-joined list of space-free pieces gives the pieces back. */
  lemma {:induction false} SplitJoin(ws: seq<string>)
    requires ws != []
    requires forall i :: 0 <= i < |ws| ==> ' ' !in ws[i]
    ensures Split(Join(ws, " ")) == ws
    decreases |ws|
  {
    if |ws| == 1 {
      SplitWord(ws[0], "");
      assert ws[0] + "" == ws[0];
    } else {
      var rest := Join(ws[1..], " ");
      SplitJoin(ws[1..]);
      assert ws[0] + " " + rest == ws[0] + (" " + rest);
      assert (" " + rest)[1..] == rest;
      SplitWord(ws[0], " " + rest);
      assert ws[0] + "" == ws[0];
    }
  }

  /**
   * When no truthy text argument holds a space, the class string splits back
   * into exactly the rendered truthy arguments.
   */
  lemma CnSplits(cs: seq<ClassArg>)
    requires exists c :: c in cs && Truthy(c)
    requires forall c :: c in cs && c.Text? ==> ' ' !in c.s
    ensures Split(Cn(cs)) == RenderAll(Truthies(cs))
  {
    var t := Truthies(cs);
    assert forall i :: 0 <= i < |t| ==> t[i] in t;
    assert ' ' !in "true";
    SplitJoin(Kept(cs));
  }
}

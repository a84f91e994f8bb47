/** The `/roll` command's own logic: reading "NdS" from the command text, rolling the
    dice, and the message that announces the result. */
module DiceRoll {
  import opened Wrappers
  import opened Text
  import opened PyInt
  import opened Chat
  import opened Rand

  const MaxDice := 10
  const MaxSides := 20

  /** N dice with S sides each. */
  datatype RollSpec = RollSpec(count: int, sides: int)

  predicate ValidRoll(spec: RollSpec) {
    1 <= spec.count <= MaxDice && 1 <= spec.sides <= MaxSides
  }

  /** The text is lower-cased, split on "d" into exactly two parts, both parts are read with
      `int()`, and the counts are range-checked; `None` wherever the handler's `try` block
      raises `ValueError`. */
  function ParseRoll(text: string): (r: Option<RollSpec>)
    ensures r.Some? ==> ValidRoll(r.value)
  {
    var parts := Split(Lower(text), 'd');
    if |parts| != 2 then None else CheckRoll(ParseInt(parts[0]), ParseInt(parts[1]))
  }

  /** The range checks, on the results of `int()` on the two parts. */
  function CheckRoll(count: Option<int>, sides: Option<int>): (r: Option<RollSpec>)
    ensures r.Some? ==> ValidRoll(r.value)
  {
    match (count, sides)
    case (Some(n), Some(s)) =>
      if n <= 0 || n > MaxDice then None
      else if s <= 0 || s > MaxSides then None
      else Some(RollSpec(n, s))
    case _ => None
  }

  /** `l` holds exactly one "d", at index i. */
  ghost predicate SplitsOnceAt(l: string, i: int) {
    0 <= i < |l| && l[i] == 'd' && 'd' !in l[..i] && 'd' !in l[i + 1..]
  }

  lemma SplitAtSingleD(l: string, i: int)
    requires SplitsOnceAt(l, i)
    ensures Split(l, 'd') == [l[..i], l[i + 1..]]
  {
    assert l == l[..i] + ['d'] + l[i + 1..];
    assert [l[..i], l[i + 1..]][1..] == [l[i + 1..]];
    SplitJoin([l[..i], l[i + 1..]], 'd');
  }

  lemma TwoPartsSplitOnce(l: string)
    requires |Split(l, 'd')| == 2
    ensures SplitsOnceAt(l, |Split(l, 'd')[0]|)
    ensures Split(l, 'd')[0] == l[..|Split(l, 'd')[0]|]
    ensures Split(l, 'd')[1] == l[|Split(l, 'd')[0]| + 1..]
  {
    var parts := Split(l, 'd');
    assert parts[1..] == [parts[1]];
    assert l == parts[0] + ['d'] + parts[1];
  }

  /** The acceptance rule of `/roll`, both ways: a text is read as N dice of S sides exactly
      when its lower-cased form has a single "d", the text before it reads as the integer N,
      the text after it as S, and 1 <= N <= 10 and 1 <= S <= 20. */
  lemma RollAcceptance(text: string, n: int, s: int)
    ensures ParseRoll(text) == Some(RollSpec(n, s)) <==>
      && 1 <= n <= MaxDice && 1 <= s <= MaxSides
      && exists i :: SplitsOnceAt(Lower(text), i)
                     && ParseInt(Lower(text)[..i]) == Some(n)
                     && ParseInt(Lower(text)[i + 1..]) == Some(s)
  {
    if ParseRoll(text) == Some(RollSpec(n, s)) {
      AcceptedHasOneD(text, n, s);
    }
    if && 1 <= n <= MaxDice && 1 <= s <= MaxSides
       && exists i :: SplitsOnceAt(Lower(text), i)
                      && ParseInt(Lower(text)[..i]) == Some(n)
                      && ParseInt(Lower(text)[i + 1..]) == Some(s)
    {
      OneDIsAccepted(text, n, s);
    }
  }

  lemma AcceptedHasOneD(text: string, n: int, s: int)
    requires ParseRoll(text) == Some(RollSpec(n, s))
    ensures 1 <= n <= MaxDice && 1 <= s <= MaxSides
    ensures exists i :: SplitsOnceAt(Lower(text), i)
                        && ParseInt(Lower(text)[..i]) == Some(n)
                        && ParseInt(Lower(text)[i + 1..]) == Some(s)
  {
    var l := Lower(text);
    TwoPartsSplitOnce(l);
    var i := |Split(l, 'd')[0]|;
    assert SplitsOnceAt(l, i) && ParseInt(l[..i]) == Some(n) && ParseInt(l[i + 1..]) == Some(s);
  }

  lemma OneDIsAccepted(text: string, n: int, s: int)
    requires 1 <= n <= MaxDice && 1 <= s <= MaxSides
    requires exists i :: SplitsOnceAt(Lower(text), i)
                         && ParseInt(Lower(text)[..i]) == Some(n)
                         && ParseInt(Lower(text)[i + 1..]) == Some(s)
    ensures ParseRoll(text) == Some(RollSpec(n, s))
  {
    var l := Lower(text);
    var i :| SplitsOnceAt(l, i) && ParseInt(l[..i]) == Some(n) && ParseInt(l[i + 1..]) == Some(s);
    SplitAtSingleD(l, i);
    ParseRollOfParts(text, l[..i], l[i + 1..]);
  }

  /** On "NdS" written with plain decimal numbers, `/roll` accepts exactly the counts in range. */
  lemma RollOfNumerals(n: nat, s: nat)
    ensures ParseRoll(NatStr(n) + "d" + NatStr(s)) ==
      if 1 <= n <= MaxDice && 1 <= s <= MaxSides then Some(RollSpec(n, s)) else None
  {
    var t := NatStr(n) + "d" + NatStr(s);
    NumeralsSplit(n, s);
    ParseIntOfRepr(n);
    ParseIntOfRepr(s);
    assert IntRepr(n) == NatStr(n) && IntRepr(s) == NatStr(s);
    ParseRollOfParts(t, NatStr(n), NatStr(s));
  }

  lemma NumeralsSplit(n: nat, s: nat)
    ensures Split(Lower(NatStr(n) + "d" + NatStr(s)), 'd') == [NatStr(n), NatStr(s)]
  {
    var a, b := NatStr(n), NatStr(s);
    var t := a + "d" + b;
    NumeralsLower(a, b);
    assert t[..|a|] == a && t[|a| + 1..] == b;
    assert SplitsOnceAt(t, |a|);
    SplitAtSingleD(t, |a|);
  }

  lemma NumeralsLower(a: string, b: string)
    requires forall i :: 0 <= i < |a| ==> IsDigit(a[i])
    requires forall i :: 0 <= i < |b| ==> IsDigit(b[i])
    ensures Lower(a + "d" + b) == a + "d" + b
  {
    LowerOfNoUpper(a);
    LowerOfNoUpper(b);
    LowerOfNoUpper("d");
    LowerConcat(a, "d");
    LowerConcat(a + "d", b);
  }

  lemma ParseRollOfParts(text: string, a: string, b: string)
    requires Split(Lower(text), 'd') == [a, b]
    ensures ParseRoll(text) == CheckRoll(ParseInt(a), ParseInt(b))
  {
  }

  /** `/roll` does not see letter case: texts equal up to case are read the same way. */
  lemma RollIgnoresCase(t: string, u: string)
    requires |t| == |u|
    requires forall i :: 0 <= i < |t| ==> LowerChar(t[i]) == LowerChar(u[i])
    ensures ParseRoll(t) == ParseRoll(u)
  {
    assert Lower(t) == Lower(u);
  }

  /** Texts the handler rejects: more than one "d", no "d" at all, and counts out of range. */
  lemma RollRejections()
    ensures ParseRoll("1d2d3") == None
    ensures ParseRoll("3x5") == None
    ensures ParseRoll("abc") == None
    ensures ParseRoll("") == None
    ensures ParseRoll("0d5") == None
    ensures ParseRoll("11d5") == None
    ensures ParseRoll("3d21") == None
    ensures ParseRoll("\U{1C}3d6") == None
  {
    RejectsTwoDs();
    RejectsNoD();
    RejectsWord();
    RejectsEmpty();
    RejectsZeroDice();
    RejectsElevenDice();
    RejectsTwentyOneSides();
    RejectsSeparatorPad();
  }

  /** `int()` does not skip the separator character 0x1C, so neither does `/roll`. */
  lemma RejectsSeparatorPad()
    ensures ParseRoll("\U{1C}3d6") == None
  {
    var t := "\U{1C}3d6";
    LowerOfNoUpper(t);
    assert t == "\U{1C}3" + ['d'] + "6";
    CutAt("\U{1C}3", 'd', "6");
    assert Split("6", 'd') == ["6"];
    ParseIntKeepsSeparators();
  }

  lemma RejectsTwoDs()
    ensures ParseRoll("1d2d3") == None
  {
    assert Lower("1d2d3") == "1d2d3";
    assert "1d2d3" == "1" + ['d'] + "2d3";
    CutAt("1", 'd', "2d3");
    assert "2d3" == "2" + ['d'] + "3";
    CutAt("2", 'd', "3");
    assert |Split("3", 'd')| == 1;
  }

  lemma RejectsNoD()
    ensures ParseRoll("3x5") == None
  {
    assert 'd' !in Lower("3x5");
  }

  lemma RejectsWord()
    ensures ParseRoll("abc") == None
  {
    assert 'd' !in Lower("abc");
  }

  lemma RejectsEmpty()
    ensures ParseRoll("") == None
  {
    assert Lower("") == "";
  }

  lemma RejectsZeroDice()
    ensures ParseRoll("0d5") == None
  {
    RollOfNumerals(0, 5);
    assert NatStr(0) + "d" + NatStr(5) == "0d5";
  }

  lemma RejectsElevenDice()
    ensures ParseRoll("11d5") == None
  {
    RollOfNumerals(11, 5);
    assert NatStr(11) + "d" + NatStr(5) == "11d5";
  }

  lemma RejectsTwentyOneSides()
    ensures ParseRoll("3d21") == None
  {
    RollOfNumerals(3, 21);
    assert NatStr(3) + "d" + NatStr(21) == "3d21";
  }

  /** Texts the handler accepts; upper-case "D" works as well. */
  lemma RollAcceptances()
    ensures ParseRoll("2d6") == Some(RollSpec(2, 6))
    ensures ParseRoll("3D6") == ParseRoll("3d6") == Some(RollSpec(3, 6))
  {
    AcceptsTwoD6();
    AcceptsThreeD6();
    AcceptsUpperD();
  }

  lemma AcceptsUpperD()
    ensures ParseRoll("3D6") == ParseRoll("3d6")
  {
    RollIgnoresCase("3D6", "3d6");
  }

  lemma AcceptsTwoD6()
    ensures ParseRoll("2d6") == Some(RollSpec(2, 6))
  {
    RollOfNumerals(2, 6);
    assert NatStr(2) + "d" + NatStr(6) == "2d6";
  }

  lemma AcceptsThreeD6()
    ensures ParseRoll("3d6") == Some(RollSpec(3, 6))
  {
    RollOfNumerals(3, 6);
    assert NatStr(3) + "d" + NatStr(6) == "3d6";
  }

  /** The dice of a roll: the i-th die is `randint(1, sides + 1)` on the i-th draw from `first` on. */
  function Dice(entropy: nat -> nat, first: nat, count: nat, sides: int): (dice: seq<int>)
    requires sides >= 0
    ensures |dice| == count
    ensures forall j :: 0 <= j < count ==> 1 <= dice[j] <= sides + 1
  {
    var dice := seq(count, j requires 0 <= j < count => Pick(1, sides + 1, entropy(first + j)));
    assert forall j :: 0 <= j < count ==> dice[j] == Pick(1, sides + 1, entropy(first + j));
    dice
  }

  /** The bound sides + 1 is reached: a D6 can show 7, as the handler's `randint(1, typedice + 1)` allows. */
  lemma DiceReachTopFace(sides: int)
    requires sides >= 0
    ensures Dice(_ => sides, 0, 1, sides) == [sides + 1]
  {
    PickCovers(1, sides + 1, sides + 1);
  }

  /** The loop that builds `dice` by appending one `randint(1, sides + 1)` per iteration. */
  method RollDice(rng: Random, spec: RollSpec) returns (dice: seq<int>)
    requires ValidRoll(spec)
    modifies rng
    ensures dice == Dice(rng.entropy, old(rng.draws), spec.count, spec.sides)
    ensures rng.draws == old(rng.draws) + spec.count
  {
    dice := [];
    for i := 0 to spec.count
      invariant rng.draws == old(rng.draws) + i
      invariant dice == Dice(rng.entropy, old(rng.draws), i, spec.sides)
    {
      var v := rng.RandInt(1, spec.sides + 1);
      dice := dice + [v];
    }
  }

  const UsageText: string :=
    "Sorry, I didn't understand your input. "
    + "Should be XDYY where X is the number of dice, and YY is the number of sides"

  /** "<@U> Rolled N DS: [d1, d2, ...]". */
  function RollMessage(user: string, spec: RollSpec, dice: seq<int>): (m: string)
    ensures Mention(user) + " Rolled " <= m
    ensures m[|m| - 1] == ']'
  {
    var head := Mention(user) + " Rolled ";
    var m := head + IntRepr(spec.count) + " D" + IntRepr(spec.sides) + ": " + ListRepr(dice);
    assert m[..|head|] == head;
    m
  }

  /** Reads a roll announcement back into the user, the roll and the dice. */
  function ParseRollMessage(m: string): Option<(string, RollSpec, seq<int>)> {
    var mention :- ParseMention(m);
    var body :- StripPrefix(" Rolled ", mention.1);
    var roll :- ParseRollBody(body);
    Some((mention.0, roll.0, roll.1))
  }

  /** Reads "N DS: [d1, d2, ...]". */
  function ParseRollBody(m: string): Option<(RollSpec, seq<int>)> {
    var countPart :- Cut(m, ' ');
    var n :- ParseInt(countPart.0);
    var rest :- ParseSidesAndDice(countPart.1);
    Some((RollSpec(n, rest.0), rest.1))
  }

  /** Reads "DS: [d1, d2, ...]". */
  function ParseSidesAndDice(m: string): Option<(int, seq<int>)> {
    var afterD :- StripPrefix("D", m);
    var sidesPart :- Cut(afterD, ':');
    var list :- StripPrefix(" ", sidesPart.1);
    var s :- ParseInt(sidesPart.0);
    var dice :- ParseIntList(list);
    Some((s, dice))
  }

  /** The announcement carries the user, N, S and every die: it is read back exactly. */
  lemma RollMessageRoundTrip(user: string, spec: RollSpec, dice: seq<int>)
    requires '>' !in user
    ensures ParseRollMessage(RollMessage(user, spec, dice)) == Some((user, spec, dice))
  {
    var body := IntRepr(spec.count) + " D" + IntRepr(spec.sides) + ": " + ListRepr(dice);
    MessageShape(Mention(user), IntRepr(spec.count), IntRepr(spec.sides), ListRepr(dice));
    MentionRoundTrip(user, " Rolled " + body);
    RollBodyRoundTrip(spec, dice);
  }

  lemma MessageShape(mention: string, n: string, s: string, list: string)
    ensures mention + " Rolled " + n + " D" + s + ": " + list
            == mention + (" Rolled " + (n + " D" + s + ": " + list))
  {
  }

  lemma RollBodyRoundTrip(spec: RollSpec, dice: seq<int>)
    ensures ParseRollBody(IntRepr(spec.count) + " D" + IntRepr(spec.sides) + ": " + ListRepr(dice))
            == Some((spec, dice))
  {
    var rest := "D" + IntRepr(spec.sides) + ": " + ListRepr(dice);
    SpaceBeforeSides(IntRepr(spec.count), IntRepr(spec.sides), ListRepr(dice));
    CountThenRest(spec.count, rest);
    SidesAndDiceRoundTrip(spec.sides, dice);
  }

  lemma SpaceBeforeSides(n: string, s: string, list: string)
    ensures n + " D" + s + ": " + list == n + [' '] + ("D" + s + ": " + list)
  {
    assert " D" == [' '] + "D";
  }

  lemma CountThenRest(count: int, rest: string)
    ensures ParseRollBody(IntRepr(count) + [' '] + rest)
            == match ParseSidesAndDice(rest)
               case None => None
               case Some(sd) => Some((RollSpec(count, sd.0), sd.1))
  {
    var n := IntRepr(count);
    assert ' ' !in n;
    CutAt(n, ' ', rest);
    ParseIntOfRepr(count);
  }

  lemma SidesAndDiceRoundTrip(sides: int, dice: seq<int>)
    ensures ParseSidesAndDice("D" + IntRepr(sides) + ": " + ListRepr(dice)) == Some((sides, dice))
  {
    SidesShape(IntRepr(sides), ListRepr(dice));
    SidesThenList(sides, " " + ListRepr(dice));
    ListRoundTrip(dice);
  }

  lemma SidesShape(s: string, list: string)
    ensures "D" + s + ": " + list == "D" + (s + [':'] + (" " + list))
  {
    assert ": " == [':'] + " ";
  }

  lemma SidesThenList(sides: int, rest: string)
    ensures ParseSidesAndDice("D" + (IntRepr(sides) + [':'] + rest))
            == match StripPrefix(" ", rest)
               case None => None
               case Some(list) => match ParseIntList(list)
                 case None => None
                 case Some(dice) => Some((sides, dice))
  {
    var s := IntRepr(sides);
    assert ':' !in s;
    CutAt(s, ':', rest);
    ParseIntOfRepr(sides);
  }

  /** `m` announces a roll of `spec` by `user`: it reads back as that user and roll, with
      exactly N dice, each in [1, S + 1]. */
  predicate AnnouncesRoll(m: string, user: string, spec: RollSpec) {
    match ParseRollMessage(m)
    case None => false
    case Some(t) =>
      && t.0 == user && t.1 == spec
      && |t.2| == spec.count
      && forall j :: 0 <= j < |t.2| ==> 1 <= t.2[j] <= spec.sides + 1
  }

  /** A message for dice of the right number and range announces the roll. */
  lemma RollMessageAnnounces(user: string, spec: RollSpec, dice: seq<int>)
    requires '>' !in user
    requires |dice| == spec.count
    requires forall j :: 0 <= j < |dice| ==> 1 <= dice[j] <= spec.sides + 1
    ensures AnnouncesRoll(RollMessage(user, spec, dice), user, spec)
  {
    RollMessageRoundTrip(user, spec, dice);
  }
}

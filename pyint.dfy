/** Python's `int(text)` on decimal text, and `str`/`repr` of integers and of lists of integers. */
module PyInt {
  import opened Wrappers
  import opened Text

  predicate IsDigit(c: char) {
    '0' <= c <= '9'
  }

  /** The body of a decimal integer as `int()` accepts it: ASCII digits, where a single
      underscore may stand between two digits. */
  predicate IsDigitGroups(s: string) {
    && |s| > 0
    && IsDigit(s[0])
    && IsDigit(s[|s| - 1])
    && (forall i :: 0 <= i < |s| ==> IsDigit(s[i]) || s[i] == '_')
    && (forall i :: 0 < i < |s| && s[i] == '_' ==> IsDigit(s[i - 1]))
  }

  /** The number the digits of `s` spell, underscores skipped. */
  function DigitsValue(s: string): nat {
    if s == [] then 0
    else if IsDigit(s[|s| - 1]) then DigitsValue(s[..|s| - 1]) * 10 + (s[|s| - 1] as int - '0' as int)
    else DigitsValue(s[..|s| - 1])
  }

  /** Python's `int(s)`: `None` where Python raises `ValueError`. Surrounding white space is
      ignored and one leading sign is allowed. */
  function ParseInt(s: string): (r: Option<int>)
    ensures r.Some? ==> Strip(s) != [] && IsDigit(Strip(s)[|Strip(s)| - 1])
    ensures r.Some? ==> forall i :: 0 <= i < |Strip(s)| ==> IsNumeralChar(Strip(s)[i])
  {
    ParseSigned(Strip(s))
  }

  /** A character that may occur in text `int()` accepts, once white space is stripped. */
  predicate IsNumeralChar(c: char) {
    IsDigit(c) || c == '_' || c == '+' || c == '-'
  }

  /** `int()` on text without surrounding white space. Only the first character may be a
      sign, the text ends in a digit, and the sign decides the sign of the number. */
  function ParseSigned(t: string): (r: Option<int>)
    ensures r.Some? ==> t != [] && IsDigit(t[|t| - 1])
    ensures r.Some? ==> forall i :: 0 < i < |t| ==> IsDigit(t[i]) || t[i] == '_'
    ensures r.Some? ==> forall i :: 0 <= i < |t| ==> IsNumeralChar(t[i])
    ensures r.Some? && t[0] == '-' ==> r.value <= 0
    ensures r.Some? && t[0] != '-' ==> r.value >= 0
  {
    if t != [] && (t[0] == '+' || t[0] == '-') then
      if IsDigitGroups(t[1..]) then
        var v: int := DigitsValue(t[1..]);
        Some(if t[0] == '-' then -v else v)
      else None
    else if IsDigitGroups(t) then Some(DigitsValue(t))
    else None
  }

  function Digit(d: nat): (c: char)
    requires d < 10
    ensures IsDigit(c) && c as int - '0' as int == d
  {
    ('0' as int + d) as char
  }

  /** `str(n)` for a natural number: its decimal digits. */
  function NatStr(n: nat): (r: string)
    ensures r != []
    ensures forall i :: 0 <= i < |r| ==> IsDigit(r[i])
    ensures DigitsValue(r) == n
  {
    if n < 10 then [Digit(n)]
    else
      var r := NatStr(n / 10) + [Digit(n % 10)];
      assert r[..|r| - 1] == NatStr(n / 10);
      r
  }

  /** `str(i)` for any integer: a minus sign in front of negative numbers. */
  function IntRepr(i: int): (r: string)
    ensures r != [] && IsDigit(r[|r| - 1])
    ensures forall j :: 0 <= j < |r| ==> IsDigit(r[j]) || r[j] == '-'
  {
    if i < 0 then "-" + NatStr(-i) else NatStr(i)
  }

  /** `int()` reads back what `str()` wrote, also with white space in front of it. */
  lemma ParseIntRoundTrip(pad: string, i: int)
    requires forall j :: 0 <= j < |pad| ==> IsSpace(pad[j])
    ensures ParseInt(pad + IntRepr(i)) == Some(i)
  {
    var t := IntRepr(i);
    assert Strip(pad + t) == t by {
      assert !IsSpace(t[0]) && !IsSpace(t[|t| - 1]);
      StripPadded(pad, t, "");
      assert pad + t + "" == pad + t;
    }
    ParseSignedRoundTrip(i);
  }

  /** `int()` reads `str(i)` back with white space on both sides of it. */
  lemma ParseIntPadded(pad: string, i: int, pad2: string)
    requires forall j :: 0 <= j < |pad| ==> IsSpace(pad[j])
    requires forall j :: 0 <= j < |pad2| ==> IsSpace(pad2[j])
    ensures ParseInt(pad + IntRepr(i) + pad2) == Some(i)
  {
    var t := IntRepr(i);
    assert Strip(pad + t + pad2) == t by {
      assert !IsSpace(t[0]) && !IsSpace(t[|t| - 1]);
      StripPadded(pad, t, pad2);
    }
    ParseSignedRoundTrip(i);
  }

  /** `int()` does not skip the separator characters 0x1C to 0x1F, although `str.isspace()`
      holds of them: "\x1c3" is not a number. */
  lemma ParseIntKeepsSeparators()
    ensures ParseInt("\U{1C}3") == None
  {
    assert StripLeft("\U{1C}3") == "\U{1C}3";
    assert StripRight("\U{1C}3") == "\U{1C}3";
  }

  /** `int(str(i)) == i`. */
  lemma ParseIntOfRepr(i: int)
    ensures ParseInt(IntRepr(i)) == Some(i)
  {
    ParseIntRoundTrip("", i);
    assert "" + IntRepr(i) == IntRepr(i);
  }

  lemma ParseSignedRoundTrip(i: int)
    ensures ParseSigned(IntRepr(i)) == Some(i)
  {
    var t := IntRepr(i);
    if i < 0 {
      assert t[1..] == NatStr(-i);
      NatStrIsDigitGroups(-i);
    } else {
      NatStrIsDigitGroups(i);
    }
  }

  lemma NatStrIsDigitGroups(n: nat)
    ensures IsDigitGroups(NatStr(n))
  {
  }

  /** The items of a Python list repr, separated by ", ". */
  function Items(xs: seq<int>): (r: string)
    ensures r == [] <==> xs == []
    ensures forall i :: 0 <= i < |r| ==> IsItemsChar(r[i])
  {
    if xs == [] then ""
    else if |xs| == 1 then IntRepr(xs[0])
    else
      var h, t := IntRepr(xs[0]), Items(xs[1..]);
      var r := h + ", " + t;
      assert forall i :: |h| + 2 <= i < |r| ==> r[i] == t[i - |h| - 2];
      r
  }

  /** The characters of the items of a list of integers: digits, minus signs and the ", " between items. */
  predicate IsItemsChar(c: char) {
    IsDigit(c) || c == '-' || c == ',' || c == ' '
  }

  /** `str(xs)` for a list of integers, e.g. "[3, 1, 6]": the items, and no other brackets
      than the enclosing pair. */
  function ListRepr(xs: seq<int>): (r: string)
    ensures |r| >= 2 && r[0] == '[' && r[|r| - 1] == ']'
    ensures forall i :: 0 < i < |r| - 1 ==> IsItemsChar(r[i])
    ensures r == "[]" <==> xs == []
  {
    var items := Items(xs);
    var r := "[" + items + "]";
    assert forall i :: 0 < i < |r| - 1 ==> r[i] == items[i - 1];
    r
  }

  /** Reads every part with `int()`; `None` as soon as one is not an integer. */
  function ParseAll(parts: seq<string>): (r: Option<seq<int>>)
    ensures r.Some? ==> |r.value| == |parts|
  {
    if parts == [] then Some([])
    else
      var x :- ParseInt(parts[0]);
      var rest :- ParseAll(parts[1..]);
      Some([x] + rest)
  }

  /** Reads a list of integers in the form `ListRepr` writes. */
  function ParseIntList(s: string): Option<seq<int>> {
    if |s| < 2 || s[0] != '[' || s[|s| - 1] != ']' then None
    else
      var inner := s[1..|s| - 1];
      if inner == [] then Some([]) else ParseAll(Split(inner, ','))
  }

  lemma {:induction false} ItemsRoundTrip(pad: string, xs: seq<int>)
    requires xs != []
    requires forall j :: 0 <= j < |pad| ==> IsSpace(pad[j])
    ensures ParseAll(Split(pad + Items(xs), ',')) == Some(xs)
    decreases |xs|
  {
    if |xs| == 1 {
      SingleItemRoundTrip(pad, xs[0]);
      assert [xs[0]] == xs;
    } else {
      SplitItems(pad, xs);
      ParseIntRoundTrip(pad, xs[0]);
      ItemsRoundTrip(" ", xs[1..]);
      ParseAllCons(pad + IntRepr(xs[0]), Split(" " + Items(xs[1..]), ','), xs[0], xs[1..]);
      assert [xs[0]] + xs[1..] == xs;
    }
  }

  lemma SingleItemRoundTrip(pad: string, x: int)
    requires forall j :: 0 <= j < |pad| ==> IsSpace(pad[j])
    ensures ParseAll(Split(pad + Items([x]), ',')) == Some([x])
  {
    SplitItems(pad, [x]);
    ParseIntRoundTrip(pad, x);
    ParseAllCons(pad + IntRepr(x), [], x, []);
    assert [pad + IntRepr(x)] + [] == [pad + IntRepr(x)];
    assert [x] + [] == [x];
  }

  /** The first item of a list repr is the first piece of its split on commas. */
  lemma SplitItems(pad: string, xs: seq<int>)
    requires xs != []
    requires forall j :: 0 <= j < |pad| ==> IsSpace(pad[j])
    ensures |xs| == 1 ==> Split(pad + Items(xs), ',') == [pad + IntRepr(xs[0])]
    ensures |xs| > 1 ==> Split(pad + Items(xs), ',') == [pad + IntRepr(xs[0])] + Split(" " + Items(xs[1..]), ',')
  {
    var head := pad + IntRepr(xs[0]);
    NoCommaInPaddedRepr(pad, xs[0]);
    if |xs| == 1 {
      assert pad + Items(xs) == head;
      SplitJoin([head], ',');
    } else {
      assert Items(xs) == IntRepr(xs[0]) + ", " + Items(xs[1..]);
      Regroup(pad, IntRepr(xs[0]), Items(xs[1..]));
      CutAt(head, ',', " " + Items(xs[1..]));
    }
  }

  lemma Regroup(pad: string, h: string, rest: string)
    ensures pad + (h + ", " + rest) == (pad + h) + [','] + (" " + rest)
  {
    assert ", " == [','] + [' '];
  }

  lemma ParseAllCons(head: string, rest: seq<string>, x: int, ys: seq<int>)
    requires ParseInt(head) == Some(x) && ParseAll(rest) == Some(ys)
    ensures ParseAll([head] + rest) == Some([x] + ys)
  {
    assert ([head] + rest)[1..] == rest;
  }

  lemma NoCommaInPaddedRepr(pad: string, x: int)
    requires forall j :: 0 <= j < |pad| ==> IsSpace(pad[j])
    ensures ',' !in pad + IntRepr(x)
  {
    var head := pad + IntRepr(x);
    forall j | 0 <= j < |head| ensures head[j] != ',' {
      if j >= |pad| { assert head[j] == IntRepr(x)[j - |pad|]; }
    }
  }

  /** A list of integers is read back from its repr. */
  lemma ListRoundTrip(xs: seq<int>)
    ensures ParseIntList(ListRepr(xs)) == Some(xs)
  {
    var s := ListRepr(xs);
    assert s[1..|s| - 1] == Items(xs);
    if xs != [] {
      ItemsRoundTrip("", xs);
      assert "" + Items(xs) == Items(xs);
    }
  }
}

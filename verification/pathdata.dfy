// The free-form path string stored on a custom shape: one "M dx dy" or
// "L dx dy" command per collected point, joined by single spaces, with the
// offsets printed as decimal numerals. Parse is the reference inverse.

module PathData {
  import opened Protocol

  /** One path command, its offsets relative to the shape's top-left corner. */
  datatype Command = MoveTo(dx: nat, dy: nat) | LineTo(dx: nat, dy: nat)

  predicate IsDigit(c: char) {
    '0' <= c <= '9'
  }

  predicate AllDigits(s: string) {
    forall i :: 0 <= i < |s| ==> IsDigit(s[i])
  }

  predicate NoSpace(s: string) {
    forall i :: 0 <= i < |s| ==> s[i] != ' '
  }

  /** The value of a string of decimal digits, most significant first. */
  function DigitsValue(s: string): nat
    requires AllDigits(s)
    decreases |s|
  {
    if |s| == 0 then 0
    else DigitsValue(s[..|s| - 1]) * 10 + (s[|s| - 1] as int - '0' as int)
  }

  function DigitChar(d: nat): (c: char)
    requires d < 10
    ensures IsDigit(c) && c as int - '0' as int == d
  {
    ('0' as int + d) as char
  }

  /** The decimal numeral of n, as a template literal prints a non-negative
      integer: digits only, no leading zero, denoting n. */
  function Decimal(n: nat): (s: string)
    ensures |s| > 0 && AllDigits(s) && DigitsValue(s) == n
    ensures s[0] == '0' ==> n == 0
    decreases n
  {
    if n < 10 then [DigitChar(n)]
    else
      var init := Decimal(n / 10);
      var s := init + [DigitChar(n % 10)];
      assert s[..|s| - 1] == init;
      s
  }

  function Op(c: Command): string {
    if c.MoveTo? then "M" else "L"
  }

  /** The text of one command: "M dx dy" or "L dx dy". */
  function CommandText(c: Command): string {
    Op(c) + (" " + (Decimal(c.dx) + (" " + Decimal(c.dy))))
  }

  /** The commands' texts joined by single spaces. */
  function Render(cs: seq<Command>): string
    decreases |cs|
  {
    if |cs| == 0 then ""
    else if |cs| == 1 then CommandText(cs[0])
    else CommandText(cs[0]) + (" " + Render(cs[1..]))
  }

  /** The space-separated words of a rendered path: three per command. */
  function Tokens(cs: seq<Command>): (ts: seq<string>)
    ensures |ts| == 3 * |cs|
    decreases |cs|
  {
    if |cs| == 0 then []
    else [Op(cs[0]), Decimal(cs[0].dx), Decimal(cs[0].dy)] + Tokens(cs[1..])
  }

  /** Splitting on every single space, as String.prototype.split(" ") does. */
  function Split(s: string): (ts: seq<string>)
    ensures |ts| >= 1
    decreases |s|
  {
    if |s| == 0 then [""]
    else
      var rest := Split(s[1..]);
      if s[0] == ' ' then [""] + rest else [[s[0]] + rest[0]] + rest[1..]
  }

  function ParseNat(t: string): Option<nat> {
    if |t| > 0 && AllDigits(t) then Some(DigitsValue(t)) else None
  }

  /** Reads the words three at a time as commands. */
  function Group(ts: seq<string>): Option<seq<Command>>
    decreases |ts|
  {
    if |ts| == 0 then Some([])
    else if |ts| < 3 then None
    else
      match (ParseNat(ts[1]), ParseNat(ts[2]), Group(ts[3..]))
      case (Some(dx), Some(dy), Some(rest)) =>
        if ts[0] == "M" then Some([MoveTo(dx, dy)] + rest)
        else if ts[0] == "L" then Some([LineTo(dx, dy)] + rest)
        else None
      case _ => None
  }

  /** The commands a path string denotes, if it is well formed. */
  function Parse(s: string): Option<seq<Command>> {
    if s == "" then Some([]) else Group(Split(s))
  }

  /** A word without spaces glues onto the first word of what follows it. */
  lemma {:induction false} SplitPrefix(t: string, s: string)
    requires NoSpace(t)
    ensures Split(t + s) == [t + Split(s)[0]] + Split(s)[1..]
    decreases |t|
  {
    if |t| == 0 {
      assert t + s == s;
      assert t + Split(s)[0] == Split(s)[0];
      assert [Split(s)[0]] + Split(s)[1..] == Split(s);
    } else {
      assert (t + s)[1..] == t[1..] + s;
      SplitPrefix(t[1..], s);
      assert [t[0]] + (t[1..] + Split(s)[0]) == t + Split(s)[0];
    }
  }

  /** A word without spaces followed by a space is split off as one word. */
  lemma SplitWord(t: string, s: string)
    requires NoSpace(t)
    ensures Split(t + (" " + s)) == [t] + Split(s)
  {
    SplitPrefix(t, " " + s);
    assert (" " + s)[1..] == s;
    assert t + "" == t;
  }

  lemma SplitLastWord(t: string)
    requires NoSpace(t)
    ensures Split(t) == [t]
  {
    SplitPrefix(t, "");
    assert t + "" == t;
  }

  /** The three words of one command. */
  lemma CommandWords(c: Command)
    ensures NoSpace(Op(c)) && NoSpace(Decimal(c.dx)) && NoSpace(Decimal(c.dy))
  {
    var x, y := Decimal(c.dx), Decimal(c.dy);
    assert forall i :: 0 <= i < |x| ==> IsDigit(x[i]);
    assert forall i :: 0 <= i < |y| ==> IsDigit(y[i]);
  }

  lemma SplitCommand(c: Command)
    ensures Split(CommandText(c)) == [Op(c), Decimal(c.dx), Decimal(c.dy)]
  {
    var a, x, y := Op(c), Decimal(c.dx), Decimal(c.dy);
    CommandWords(c);
    SplitWord(a, x + (" " + y));
    SplitWord(x, y);
    SplitLastWord(y);
  }

  lemma SplitThreeThen(a: string, x: string, y: string, r: string)
    requires NoSpace(a) && NoSpace(x) && NoSpace(y)
    ensures Split(a + (" " + (x + (" " + y))) + (" " + r)) == [a, x, y] + Split(r)
  {
    var tail := y + (" " + r);
    assert (x + (" " + y)) + (" " + r) == x + (" " + tail);
    assert a + (" " + (x + (" " + y))) + (" " + r) == a + (" " + (x + (" " + tail)));
    SplitWord(a, x + (" " + tail));
    SplitWord(x, tail);
    SplitWord(y, r);
  }

  lemma SplitCommandThen(c: Command, r: string)
    ensures Split(CommandText(c) + (" " + r)) == [Op(c), Decimal(c.dx), Decimal(c.dy)] + Split(r)
  {
    CommandWords(c);
    SplitThreeThen(Op(c), Decimal(c.dx), Decimal(c.dy), r);
  }

  /** Splitting a rendered path recovers its words, three per command. */
  lemma {:induction false} SplitRender(cs: seq<Command>)
    requires |cs| > 0
    ensures Split(Render(cs)) == Tokens(cs)
    decreases |cs|
  {
    if |cs| == 1 {
      SplitCommand(cs[0]);
      assert Tokens(cs[1..]) == [];
    } else {
      SplitCommandThen(cs[0], Render(cs[1..]));
      SplitRender(cs[1..]);
    }
  }

  /** Reading the words of a command list three at a time gives it back. */
  lemma {:induction false} GroupTokens(cs: seq<Command>)
    ensures Group(Tokens(cs)) == Some(cs)
    decreases |cs|
  {
    if |cs| > 0 {
      var ts := Tokens(cs);
      assert ts[3..] == Tokens(cs[1..]);
      GroupTokens(cs[1..]);
      assert ParseNat(ts[1]) == Some(cs[0].dx);
      assert ParseNat(ts[2]) == Some(cs[0].dy);
      assert [cs[0]] + cs[1..] == cs;
    }
  }

  /** Round trip: parsing a rendered path yields exactly its commands. */
  lemma RenderParse(cs: seq<Command>)
    ensures Parse(Render(cs)) == Some(cs)
  {
    if |cs| > 0 {
      assert Render(cs)[0] == Op(cs[0])[0];
      SplitRender(cs);
      GroupTokens(cs);
    }
  }
}

/** Board squares (ChessPosition) and their algebraic names.
    Squares are integer pairs: x is the column (file `a` is column 0) and y
    is the row, with row 0 being rank "8". Names are JavaScript strings,
    that is, sequences of UTF-16 code units. */
module Position {
  import opened Wrappers

  /** One UTF-16 code unit, the element of a JavaScript string. */
  newtype CodeUnit = n: int | 0 <= n < 0x1_0000

  type JsString = seq<CodeUnit>

  const LowerA: CodeUnit := 97
  const Zero: CodeUnit := 48
  const Minus: CodeUnit := 45

  datatype Pos = Pos(x: int, y: int)

  /** Component-wise equality of two positions. */
  function Equals(a: Pos, b: Pos): (r: bool)
    ensures r <==> a == b
  {
    a.x == b.x && a.y == b.y
  }

  /** String.fromCharCode: the argument is reduced modulo 2^16. */
  function FromCharCode(n: int): (c: CodeUnit)
    ensures 0 <= n < 0x1_0000 ==> c as int == n
    ensures (c as int - n) % 0x1_0000 == 0
  {
    (n % 0x1_0000) as CodeUnit
  }

  /** Decimal digits of a natural number, most significant first. */
  function Digits(n: nat): (s: JsString)
    decreases n
  {
    if n < 10 then [Zero + n as CodeUnit]
    else Digits(n / 10) + [Zero + (n % 10) as CodeUnit]
  }

  /** The decimal text of an integer, with a leading '-' when negative. */
  function Decimal(n: int): (s: JsString)
  {
    if n < 0 then [Minus] + Digits(-n) else Digits(n)
  }

  /** parseInt of a one-unit string: its digit value, or None for NaN. */
  function ParseDigit(c: CodeUnit): (r: Option<int>)
    ensures r.Some? <==> Zero <= c <= Zero + 9
    ensures r.Some? ==> r.value == c as int - 48 && 0 <= r.value <= 9
  {
    if Zero <= c <= Zero + 9 then Some(c as int - 48) else None
  }

  /** toNotation: the column letter followed by the rank number 8 - y. */
  function ToNotation(p: Pos): (s: JsString)
    ensures |s| >= 2 && s[0] == FromCharCode(p.x + 97)
    ensures NameableSquare(p) ==> s == [(p.x + 97) as CodeUnit, Zero + (8 - p.y) as CodeUnit]
  {
    [FromCharCode(p.x + 97)] + Decimal(8 - p.y)
  }

  /** fromNotation: only the first two code units are read. A missing unit
      or a non-digit second unit makes a coordinate NaN; such a position
      equals no position, so it is modelled as None. */
  function FromNotation(s: JsString): (r: Option<Pos>)
    ensures r.Some? <==> |s| >= 2 && Zero <= s[1] <= Zero + 9
    ensures r.Some? ==> r.value == Pos(s[0] as int - 97, 8 - (s[1] as int - 48))
  {
    if |s| < 2 then None
    else match ParseDigit(s[1])
      case None => None
      case Some(d) => Some(Pos(s[0] as int - 97, 8 - d))
  }

  /** Every square of the 8x8 board, and every other square whose column
      letter does not wrap and whose rank number is a single digit. */
  predicate NameableSquare(p: Pos)
  {
    -97 <= p.x < 0x1_0000 - 97 && -1 <= p.y <= 8
  }

  lemma {:induction false} DigitsShape(n: nat)
    ensures |Digits(n)| >= 1
    ensures Zero <= Digits(n)[0] <= Zero + 9
    ensures n >= 10 ==> |Digits(n)| >= 2
  {
    if n >= 10 {
      DigitsShape(n / 10);
    }
  }

  /** The notation round trip holds exactly on the nameable squares. */
  lemma NotationRoundTrip(p: Pos)
    ensures FromNotation(ToNotation(p)) == Some(p) <==> NameableSquare(p)
  {
    var s := ToNotation(p);
    var n := 8 - p.y;
    DigitsShape(if n < 0 then -n else n);
    assert s[0] == FromCharCode(p.x + 97);
    if NameableSquare(p) {
      assert Decimal(n) == [Zero + n as CodeUnit];
      assert s == [FromCharCode(p.x + 97), Zero + n as CodeUnit];
    } else if n < 0 {
      assert s[1] == Minus;
    } else if n >= 10 {
      assert s[1] == Digits(n)[0];
    } else {
      assert s[0] as int != p.x + 97;
    }
  }

  /** On the 8x8 board every square survives the round trip, compared with
      Equals. */
  lemma BoardSquareRoundTrip(p: Pos)
    requires 0 <= p.x < 8 && 0 <= p.y < 8
    ensures FromNotation(ToNotation(p)).Some?
    ensures Equals(FromNotation(ToNotation(p)).value, p)
  {
    NotationRoundTrip(p);
  }

  /** The other direction: a name "a1".."h8" is rebuilt from its square. */
  lemma NameRoundTrip(s: JsString)
    requires |s| == 2 && LowerA <= s[0] <= LowerA + 7 && Zero + 1 <= s[1] <= Zero + 8
    ensures FromNotation(s).Some?
    ensures 0 <= FromNotation(s).value.x < 8 && 0 <= FromNotation(s).value.y < 8
    ensures ToNotation(FromNotation(s).value) == s
  {
    var p := FromNotation(s).value;
    assert Decimal(8 - p.y) == [s[1]];
  }
}

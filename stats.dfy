/** Value records of the dashboard and the table rows the display layer
    renders from them (src/vixbuddy/stats.py). Everything here is pure: the
    records are built once and the table builders return fixed-shape rows. */
module Stats {

  // ---------------------------------------------------------------------
  // Records
  // ---------------------------------------------------------------------

  /** Derived statistics of the volatility index over three horizons. */
  datatype Vix = Vix(
    change1Day: real,
    change1DayPercent: real,
    change24Day: real,
    change24DayPercent: real,
    change5Day: real,
    change5DayPercent: real,
    high1Day: real,
    high24Day: real,
    high5Day: real,
    ivRank1Day: real,
    ivRank24Day: real,
    ivRank5Day: real,
    last: real,
    low1Day: real,
    low24Day: real,
    low5Day: real,
    nums1Day: seq<real>,
    nums24Day: seq<real>,
    nums5Day: seq<real>,
    open1Day: real,
    open24Day: real,
    open5Day: real)

  /** Derived allocation figures of one brokerage account. The two theta
      targets are whole numbers (they come out of ceil and floor). */
  datatype Account = Account(
    number: string,
    nickname: string,
    netLiquidatingValue: real,
    maxShortPremiumPercent: real,
    cashOrLowRiskPercent: real,
    maxShortPremium: real,
    cashOrLowRisk: real,
    maxUndefinedRiskBpr: real,
    maxDefinedRiskBpr: real,
    portfolioThetaMin: int,
    portfolioThetaMax: int)

  /** The record a bare `VIX()` gives: every figure zero, no price series. */
  const EmptyVix: Vix :=
    Vix(0.0, 0.0, 0.0, 0.0, 0.0, 0.0, 0.0, 0.0, 0.0, 0.0, 0.0, 0.0,
        0.0, 0.0, 0.0, 0.0, [], [], [], 0.0, 0.0, 0.0)

  /** The record a bare `Account()` gives: empty strings and zero figures. */
  const EmptyAccount: Account :=
    Account("", "", 0.0, 0.0, 0.0, 0.0, 0.0, 0.0, 0.0, 0, 0)

  // ---------------------------------------------------------------------
  // Two-decimal formatting (the `:.2f` format specifier)
  // ---------------------------------------------------------------------

  predicate IsDigit(c: char) {
    '0' <= c <= '9'
  }

  function DigitValue(c: char): (r: int) {
    c as int - '0' as int
  }

  function DigitChar(d: nat): (c: char)
    requires d < 10
    ensures IsDigit(c) && DigitValue(c) == d
  {
    ('0' as int + d) as char
  }

  /** The decimal digits of `n`, without leading zeros. */
  function Decimal(n: nat): (s: string)
    ensures |s| >= 1
    ensures forall i :: 0 <= i < |s| ==> IsDigit(s[i])
    ensures s[0] == '0' ==> n == 0
  {
    if n < 10 then [DigitChar(n)] else Decimal(n / 10) + [DigitChar(n % 10)]
  }

  /** The number a string of decimal digits denotes. */
  function DecimalValue(s: string): (r: int) {
    if s == [] then 0 else 10 * DecimalValue(s[..|s| - 1]) + DigitValue(s[|s| - 1])
  }

  lemma {:induction false} DecimalRoundTrip(n: nat)
    ensures DecimalValue(Decimal(n)) == n
  {
    if n >= 10 {
      DecimalRoundTrip(n / 10);
      var s := Decimal(n);
      assert s[..|s| - 1] == Decimal(n / 10);
    }
  }

  function Abs(x: real): (r: real) {
    if x < 0.0 then -x else x
  }

  /** The integer nearest to `x`, ties going to the even neighbour. */
  function RoundHalfEven(x: real): (n: int)
    ensures x - 0.5 <= n as real <= x + 0.5
    ensures (n as real == x - 0.5 || n as real == x + 0.5) ==> n % 2 == 0
  {
    var f := x.Floor;
    var frac := x - f as real;
    if frac < 0.5 then f
    else if frac > 0.5 then f + 1
    else if f % 2 == 0 then f
    else f + 1
  }

  /** The magnitude of `x` in hundredths, rounded as `:.2f` rounds. */
  function Cents(x: real): (c: nat)
    ensures Abs(x) * 100.0 - 0.5 <= c as real <= Abs(x) * 100.0 + 0.5
  {
    RoundHalfEven(Abs(x) * 100.0)
  }

  /** `x` written with exactly two decimals: an optional minus sign, the
      whole part, a point and two digits. A negative value keeps its sign
      even when it rounds to zero ("-0.00"). Rounding is done on the exact
      value, not on a binary floating-point approximation of it. */
  function Fmt2(x: real): (s: string)
    ensures |s| >= 4
    ensures s[|s| - 3] == '.' && IsDigit(s[|s| - 2]) && IsDigit(s[|s| - 1])
    ensures (s[0] == '-') <==> x < 0.0
  {
    var c := Cents(x);
    (if x < 0.0 then "-" else "") + Decimal(c / 100) + "." + [DigitChar(c % 100 / 10), DigitChar(c % 10)]
  }

  /** 1 when `s` starts with a minus sign, else 0. */
  function SignWidth(s: string): (r: nat) {
    if |s| > 0 && s[0] == '-' then 1 else 0
  }

  /** Reads a two-decimal rendering back, in hundredths. */
  function Fmt2Value(s: string): (r: int)
    requires |s| >= 4
  {
    var whole := DecimalValue(s[SignWidth(s)..|s| - 3]);
    var c := 100 * whole + 10 * DigitValue(s[|s| - 2]) + DigitValue(s[|s| - 1]);
    if SignWidth(s) == 1 then -c else c
  }

  /** Reading a rendering back gives the rounded hundredths, with the sign. */
  lemma Fmt2RoundTrip(x: real)
    ensures Fmt2Value(Fmt2(x)) == if x < 0.0 then -(Cents(x) as int) else Cents(x)
  {
    var c := Cents(x);
    var s := Fmt2(x);
    var w := SignWidth(s);
    assert s[w..|s| - 3] == Decimal(c / 100);
    DecimalRoundTrip(c / 100);
  }

  /** The figure shown is within half a hundredth of the value. */
  lemma Fmt2Accurate(x: real)
    ensures var v := Fmt2Value(Fmt2(x)) as real / 100.0;
            v - 0.005 <= x <= v + 0.005
  {
    Fmt2RoundTrip(x);
  }

  // ---------------------------------------------------------------------
  // Cells
  // ---------------------------------------------------------------------

  /** The text of a styled cell. Formatted numbers are kept symbolic: a
      fixed padding, the value written with two decimals, a fixed suffix. */
  datatype Text =
    | Literal(s: string)
    | Fixed(padding: string, value: real, suffix: string)

  /** The characters a text stands for. A literal is itself; a formatted
      number is its padding, then a two-decimal figure that reads back as
      the value's rounded hundredths, then its suffix. */
  function Render(t: Text): (r: string)
    ensures t.Literal? ==> r == t.s
    ensures t.Fixed? ==>
              && |r| >= |t.padding| + 4 + |t.suffix|
              && r[..|t.padding|] == t.padding
              && r[|r| - |t.suffix|..] == t.suffix
              && Fmt2Value(r[|t.padding|..|r| - |t.suffix|])
                 == if t.value < 0.0 then -(Cents(t.value) as int) else Cents(t.value)
  {
    match t
    case Literal(s) => s
    case Fixed(padding, value, suffix) =>
      Fmt2RoundTrip(value);
      var r := padding + Fmt2(value) + suffix;
      assert r[|padding|..|r| - |suffix|] == Fmt2(value);
      r
  }

  /** `f"{x:.2f}"`: the number itself, with no padding and no suffix. */
  function Fixed2(x: real): (t: Text)
    ensures t.Fixed? && t.value == x && t.padding == "" && t.suffix == ""
  {
    Fixed("", x, "")
  }

  /** A bare two-decimal text renders as exactly the two-decimal figure,
      which is within half a hundredth of the number. */
  lemma Fixed2Text(x: real)
    ensures Render(Fixed2(x)) == Fmt2(x)
    ensures var v := Fmt2Value(Render(Fixed2(x))) as real / 100.0;
            v - 0.005 <= x <= v + 0.005
  {
    assert "" + Fmt2(x) + "" == Fmt2(x);
    Fmt2Accurate(x);
  }

  datatype Justify = Left | Right

  /** A table cell: a bare string, or a styled text with its alignment. */
  datatype Cell =
    | Plain(s: string)
    | Rich(text: Text, style: string, justify: Justify)

  /** A signed change: red when negative, green when positive, white when
      zero; non-negative values get one leading space, so that their figures
      line up with the minus sign of negative ones; percentages end in "%". */
  function ColorChange(price: real, percent: bool): (c: Cell)
    ensures c.Rich? && c.justify == Right
    ensures c.style == if price < 0.0 then "bold red"
                       else if price > 0.0 then "bold green"
                       else "bold white"
    ensures c.text.Fixed? && c.text.value == price
  {
    var padding := if price < 0.0 then "" else " ";
    var style := if price < 0.0 then "bold red" else if price > 0.0 then "bold green" else "bold white";
    Rich(Fixed(padding, price, if percent then "%" else ""), style, Right)
  }

  /** What a change cell shows: the first character is the sign column
      ('-' exactly for negative values, else a space), the text ends in '%'
      exactly for percentages, and in between stands the two-decimal figure. */
  lemma ColorChangeText(price: real, percent: bool)
    ensures var s := Render(ColorChange(price, percent).text);
            && |s| >= 4
            && s[0] == (if price < 0.0 then '-' else ' ')
            && (s[|s| - 1] == '%' <==> percent)
            && s[(if price < 0.0 then 0 else 1)..|s| - (if percent then 1 else 0)] == Fmt2(price)
  {
    var f := Fmt2(price);
    var pad := if price < 0.0 then "" else " ";
    var suffix := if percent then "%" else "";
    var s := pad + f + suffix;
    assert ColorChange(price, percent).text == Fixed(pad, price, suffix);
    assert Render(ColorChange(price, percent).text) == s;
    assert s[|pad|..|s| - |suffix|] == f;
    assert s[|s| - 1] == if percent then '%' else f[|f| - 1];
  }

  /** Label cell of the index tables. */
  function VixLabel(name: string): (c: Cell)
    ensures c.Rich? && c.text == Literal(name) && c.style == "white" && c.justify == Left
  {
    Rich(Literal(name), "white", Left)
  }

  /** Value cell of the index tables. */
  function VixValue(value: Text): (c: Cell)
    ensures c.Rich? && c.text == value && c.style == "deepskyblue" && c.justify == Right
  {
    Rich(value, "deepskyblue", Right)
  }

  /** Label cell of the account table. */
  function AccountLabel(name: string): (c: Cell)
    ensures c.Rich? && c.text == Literal(name) && c.style == "bold" && c.justify == Left
  {
    Rich(Literal(name), "bold", Left)
  }

  /** Value cell of the account table. */
  function AccountValue(value: Text): (c: Cell)
    ensures c.Rich? && c.text == value && c.style == "darkgrey" && c.justify == Right
  {
    Rich(value, "darkgrey", Right)
  }

  // ---------------------------------------------------------------------
  // Index tables
  // ---------------------------------------------------------------------

  /** A row of an index table (a 4-tuple in the source). */
  type Row4 = (Cell, Cell, Cell, Cell)

  const BlankRow4: Row4 := (Plain(""), Plain(""), Plain(""), Plain(""))

  /** The layout the three horizon tables share: a blank row; the change
      row (caption, absolute change, change in percent, blank); a blank row;
      the open/rank row; the low/high row. The percent cell shows the
      fraction `changePercent` scaled by 100. */
  ghost predicate ShowsHorizon(t: seq<Row4>, caption: string, change: real, changePercent: real,
                               open: real, rank: real, low: real, high: real)
  {
    && |t| >= 5
    && t[0] == BlankRow4 && t[2] == BlankRow4
    && t[1] == (VixLabel(caption), ColorChange(change, false), ColorChange(changePercent * 100.0, true), Plain(""))
    && t[3] == (VixLabel(" open"), VixValue(Fixed2(open)), VixLabel("rank"), VixValue(Fixed2(rank)))
    && t[4] == (VixLabel(" low"), VixValue(Fixed2(low)), VixLabel("high"), VixValue(Fixed2(high)))
  }

  function HorizonTable(caption: string, change: real, changePercent: real,
                        open: real, rank: real, low: real, high: real): (t: seq<Row4>)
    ensures |t| == 5 && ShowsHorizon(t, caption, change, changePercent, open, rank, low, high)
  {
    [ BlankRow4,
      (VixLabel(caption), ColorChange(change, false), ColorChange(changePercent * 100.0, true), Plain("")),
      BlankRow4,
      (VixLabel(" open"), VixValue(Fixed2(open)), VixLabel("rank"), VixValue(Fixed2(rank))),
      (VixLabel(" low"), VixValue(Fixed2(low)), VixLabel("high"), VixValue(Fixed2(high))) ]
  }

  function From24DayTable(v: Vix): (t: seq<Row4>)
    ensures |t| == 5
    ensures ShowsHorizon(t, " month (24d)", v.change24Day, v.change24DayPercent,
                         v.open24Day, v.ivRank24Day, v.low24Day, v.high24Day)
  {
    HorizonTable(" month (24d)", v.change24Day, v.change24DayPercent,
                 v.open24Day, v.ivRank24Day, v.low24Day, v.high24Day)
  }

  function From5DayTable(v: Vix): (t: seq<Row4>)
    ensures |t| == 5
    ensures ShowsHorizon(t, " week (5d) ", v.change5Day, v.change5DayPercent,
                         v.open5Day, v.ivRank5Day, v.low5Day, v.high5Day)
  {
    HorizonTable(" week (5d) ", v.change5Day, v.change5DayPercent,
                 v.open5Day, v.ivRank5Day, v.low5Day, v.high5Day)
  }

  /** The one-day table has a sixth row holding the last price. */
  function FromTodayTable(v: Vix): (t: seq<Row4>)
    ensures |t| == 6
    ensures ShowsHorizon(t, " day        ", v.change1Day, v.change1DayPercent,
                         v.open1Day, v.ivRank1Day, v.low1Day, v.high1Day)
    ensures t[5] == (VixLabel(" last"), VixValue(Fixed2(v.last)), Plain(""), Plain(""))
  {
    HorizonTable(" day        ", v.change1Day, v.change1DayPercent,
                 v.open1Day, v.ivRank1Day, v.low1Day, v.high1Day)
      + [(VixLabel(" last"), VixValue(Fixed2(v.last)), Plain(""), Plain(""))]
  }

  /** When the percent change is the absolute change divided by a positive
      last price, the two change cells of a horizon row have the same colour. */
  lemma ChangeCellsAgree(change: real, changePercent: real, last: real)
    requires last > 0.0 && changePercent * last == change
    ensures ColorChange(change, false).style == ColorChange(changePercent * 100.0, true).style
  {
    if change < 0.0 {
      assert changePercent < 0.0;
    } else if change > 0.0 {
      assert changePercent > 0.0;
    } else {
      assert changePercent == 0.0;
    }
  }

  /** When each percent change is its absolute change divided by a positive
      last price, every horizon table shows both changes in one colour. */
  lemma TablesChangeColoursAgree(v: Vix)
    requires v.last > 0.0
    requires v.change1DayPercent * v.last == v.change1Day
    requires v.change5DayPercent * v.last == v.change5Day
    requires v.change24DayPercent * v.last == v.change24Day
    ensures FromTodayTable(v)[1].1.style == FromTodayTable(v)[1].2.style
    ensures From5DayTable(v)[1].1.style == From5DayTable(v)[1].2.style
    ensures From24DayTable(v)[1].1.style == From24DayTable(v)[1].2.style
  {
    ChangeCellsAgree(v.change1Day, v.change1DayPercent, v.last);
    ChangeCellsAgree(v.change5Day, v.change5DayPercent, v.last);
    ChangeCellsAgree(v.change24Day, v.change24DayPercent, v.last);
  }

  /** The default record shows both changes of the day as a white " 0.00". */
  lemma EmptyVixShowsZeroChanges()
    ensures var t := FromTodayTable(EmptyVix);
            && t[1].1.style == "bold white" && Render(t[1].1.text) == " 0.00"
            && t[1].2.style == "bold white" && Render(t[1].2.text) == " 0.00%"
  {
    assert Fmt2(0.0) == "0.00";
  }

  // ---------------------------------------------------------------------
  // Account table
  // ---------------------------------------------------------------------

  /** A row of the account table (a pair in the source). */
  type Row2 = (Cell, Cell)

  /** Labels of the figure rows of the account table, top to bottom. */
  const AccountRowLabels: seq<string> :=
    ["net liq", "cash or low risk", "max short premium", "max undefined risk",
     "max defined risk", "max portfolio theta", "min portfolio theta"]

  /** The figures the account table shows, in the order of its labels. */
  function AccountFigures(a: Account): (f: seq<real>)
    ensures |f| == |AccountRowLabels|
    ensures f[0] == a.netLiquidatingValue && f[1] == a.cashOrLowRisk
    ensures f[2] == a.maxShortPremium && f[3] == a.maxUndefinedRiskBpr
    ensures f[4] == a.maxDefinedRiskBpr
    ensures f[5] == a.portfolioThetaMax as real && f[6] == a.portfolioThetaMin as real
  {
    [a.netLiquidatingValue, a.cashOrLowRisk, a.maxShortPremium, a.maxUndefinedRiskBpr,
     a.maxDefinedRiskBpr, a.portfolioThetaMax as real, a.portfolioThetaMin as real]
  }

  function AccountTable(a: Account): (t: seq<Row2>)
    ensures |t| == 9
    ensures t[0] == (Plain(""), Plain(""))
    ensures t[1] == (AccountLabel(a.number), AccountLabel(a.nickname))
    ensures forall i :: 0 <= i < 7 ==>
              t[i + 2] == (AccountLabel(AccountRowLabels[i]), AccountValue(Fixed2(AccountFigures(a)[i])))
  {
    [ (Plain(""), Plain("")),
      (AccountLabel(a.number), AccountLabel(a.nickname)),
      (AccountLabel("net liq"), AccountValue(Fixed2(a.netLiquidatingValue))),
      (AccountLabel("cash or low risk"), AccountValue(Fixed2(a.cashOrLowRisk))),
      (AccountLabel("max short premium"), AccountValue(Fixed2(a.maxShortPremium))),
      (AccountLabel("max undefined risk"), AccountValue(Fixed2(a.maxUndefinedRiskBpr))),
      (AccountLabel("max defined risk"), AccountValue(Fixed2(a.maxDefinedRiskBpr))),
      (AccountLabel("max portfolio theta"), AccountValue(Fixed2(a.portfolioThetaMax as real))),
      (AccountLabel("min portfolio theta"), AccountValue(Fixed2(a.portfolioThetaMin as real))) ]
  }

  /** The default account shows blank number and nickname, and every figure
      as "0.00". */
  lemma EmptyAccountShowsZeros()
    ensures var t := AccountTable(EmptyAccount);
            && t[1] == (AccountLabel(""), AccountLabel(""))
            && forall i :: 2 <= i < 9 ==> Render(t[i].1.text) == "0.00"
  {
    assert Fmt2(0.0) == "0.00";
    Fixed2Text(0.0);
    var t := AccountTable(EmptyAccount);
    var f := AccountFigures(EmptyAccount);
    assert forall k :: 0 <= k < 7 ==> f[k] == 0.0;
    forall i | 2 <= i < 9
      ensures Render(t[i].1.text) == "0.00"
    {
      assert t[i].1.text == Fixed2(f[i - 2]);
    }
  }
}

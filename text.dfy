/** The text primitives the services rely on: Go's `%d` and `%02d` verbs,
    `strconv.Atoi`, `strings.Split` and `strings.Join`, on `seq<char>`. */
module Text {
  import opened Wrappers

  /** Go's `int` on a 64-bit platform. */
  const MinInt: int := -0x8000_0000_0000_0000
  const MaxInt: int := 0x7fff_ffff_ffff_ffff
  type Int = x: int | MinInt <= x <= MaxInt

  predicate IsDigit(c: char) { '0' <= c <= '9' }

  predicate AllDigits(s: string) { forall i :: 0 <= i < |s| ==> IsDigit(s[i]) }

  function DigitChar(d: nat): (c: char)
    requires d < 10
    ensures IsDigit(c) && DigitValue(c) == d
  {
    ('0' as int + d) as char
  }

  function DigitValue(c: char): nat
    requires IsDigit(c)
  {
    c as int - '0' as int
  }

  /** Decimal digits of `n`, most significant first, without leading zeros. */
  function Digits(n: nat): (s: string)
    ensures |s| >= 1 && AllDigits(s)
    ensures (s[0] == '0') == (n == 0)
    ensures n < 10 <==> |s| == 1
    ensures 10 <= n < 100 <==> |s| == 2
  {
    if n < 10 then [DigitChar(n)] else Digits(n / 10) + [DigitChar(n % 10)]
  }

  /** The value of a string of decimal digits (0 for the empty string). */
  function ParseDigits(s: string): nat
    requires AllDigits(s)
  {
    if s == [] then 0 else ParseDigits(s[..|s| - 1]) * 10 + DigitValue(s[|s| - 1])
  }

  lemma {:induction false} ParseDigitsOfDigits(n: nat)
    ensures ParseDigits(Digits(n)) == n
  {
    var s := Digits(n);
    if n < 10 {
      assert s[..0] == [];
    } else {
      assert s[..|s| - 1] == Digits(n / 10);
      ParseDigitsOfDigits(n / 10);
    }
  }

  /** Go's `fmt.Sprintf("%d", n)`. */
  function Itoa(n: int): (s: string)
    ensures |s| >= 1
    ensures s[0] == '-' <==> n < 0
    ensures forall i :: 0 < i < |s| ==> IsDigit(s[i])
  {
    if n < 0 then "-" + Digits(-n) else Digits(n)
  }

  /** Why `strconv.Atoi` refused its input. */
  datatype NumError = ErrSyntax | ErrRange

  /** The largest `uint64`, past which `strconv.ParseUint` reports a range error. */
  const MaxUint64: int := 0xffff_ffff_ffff_ffff

  /** Length of the leading run of decimal digits of `s`. */
  function DigitRun(s: string): (k: nat)
    ensures k <= |s| && AllDigits(s[..k])
    ensures k < |s| ==> !IsDigit(s[k])
  {
    if s == [] || !IsDigit(s[0]) then 0
    else
      var k := 1 + DigitRun(s[1..]);
      assert s[..k] == [s[0]] + s[1..][..k - 1];
      k
  }

  lemma DigitRunAll(s: string)
    requires AllDigits(s)
    ensures DigitRun(s) == |s|
  {
  }

  /** Go's `strconv.Atoi` on a 64-bit platform: an optional sign, then at least
      one decimal digit and nothing else; a value outside `int` is a range error.
      The digits are read left to right, so leading digits that already pass
      the largest `uint64` give a range error before a later non-digit is seen. */
  function Atoi(s: string): (r: Result<Int, NumError>)
    ensures r.Success? ==> |s| >= 1 && (IsDigit(s[0]) || s[0] in "+-")
    ensures s == [] ==> r == Failure(ErrSyntax)
  {
    var signed := |s| > 0 && (s[0] == '-' || s[0] == '+');
    var body := if signed then s[1..] else s;
    var k := DigitRun(body);
    if body == [] then Failure(ErrSyntax)
    else if ParseDigits(body[..k]) > MaxUint64 then Failure(ErrRange)
    else if k < |body| then Failure(ErrSyntax)
    else
      assert body[..k] == body;
      var v: int := if |s| > 0 && s[0] == '-' then 0 - ParseDigits(body) else ParseDigits(body);
      if MinInt <= v <= MaxInt then Success(v) else Failure(ErrRange)
  }

  /** A prefix of a digit string is worth no more than the whole string. */
  lemma {:induction false} ParseDigitsPrefix(s: string, j: nat)
    requires AllDigits(s) && j <= |s|
    ensures ParseDigits(s[..j]) <= ParseDigits(s)
  {
    if j < |s| {
      var init := s[..|s| - 1];
      assert init[..j] == s[..j];
      ParseDigitsPrefix(init, j);
    } else {
      assert s[..j] == s;
    }
  }

  /** Digits worth more than any `uint64` make a range error, whatever sign
      comes before them and whatever follows them. */
  lemma AtoiRangeBeforeSyntax(sign: string, digits: string, rest: string)
    requires sign in ["", "+", "-"]
    requires AllDigits(digits) && ParseDigits(digits) > MaxUint64
    ensures Atoi(sign + digits + rest) == Failure(ErrRange)
  {
    var s := sign + digits + rest;
    var body := digits + rest;
    assert (if |s| > 0 && (s[0] == '-' || s[0] == '+') then s[1..] else s) == body by {
      if sign == "" {
        assert digits != [];
        assert s == body;
        assert IsDigit(s[0]);
      } else {
        assert s == sign + body;
      }
    }
    var k := DigitRun(body);
    assert |digits| <= k;
    assert body[..k][..|digits|] == digits;
    ParseDigitsPrefix(body[..k], |digits|);
  }

  /** Every `int` rendered with `%d` reads back with `strconv.Atoi`. */
  lemma AtoiItoa(n: Int)
    ensures Atoi(Itoa(n)) == Success(n)
  {
    if n < 0 {
      var m: nat := 0 - n;
      assert Itoa(n)[1..] == Digits(m);
      ParseDigitsOfDigits(m);
      DigitRunAll(Digits(m));
      assert Digits(m)[..|Digits(m)|] == Digits(m);
    } else {
      var digits := Digits(n);
      ParseDigitsOfDigits(n);
      DigitRunAll(digits);
      assert digits[..|digits|] == digits;
      assert !(digits[0] == '-' || digits[0] == '+');
    }
  }

  /** Go's `fmt.Sprintf("%02d", n)`: zero-padded to two characters. */
  function Pad2(n: int): (s: string)
    ensures 0 <= n < 100 ==> |s| == 2 && AllDigits(s) && ParseDigits(s) == n
    ensures 10 <= n ==> s == Itoa(n)
  {
    ParseDigitsOfDigits(if n < 0 then 0 else n);
    if 0 <= n < 10 then "0" + Itoa(n) else Itoa(n)
  }

  /** Index of the first `c` in `s`, or `|s|` when there is none. */
  function IndexOf(s: string, c: char): (i: nat)
    ensures i <= |s|
    ensures i < |s| ==> s[i] == c
    ensures forall k :: 0 <= k < i ==> s[k] != c
  {
    if s == [] then 0 else if s[0] == c then 0 else 1 + IndexOf(s[1..], c)
  }

  /** Go's `strings.Split(s, string(c))`: the pieces between the separators;
      never empty, and `""` splits into `[""]`. */
  function Split(s: string, c: char): (parts: seq<string>)
    ensures |parts| >= 1
    decreases |s|
  {
    var i := IndexOf(s, c);
    if i == |s| then [s] else [s[..i]] + Split(s[i + 1..], c)
  }

  /** Go's `strings.Join(parts, sep)`. */
  function Join(parts: seq<string>, sep: string): string
  {
    if parts == [] then ""
    else if |parts| == 1 then parts[0]
    else parts[0] + sep + Join(parts[1..], sep)
  }

  /** Joining one more part appends the separator and the part. */
  lemma JoinSnoc(parts: seq<string>, x: string, sep: string)
    requires |parts| >= 1
    ensures Join(parts + [x], sep) == Join(parts, sep) + sep + x
  {
    if |parts| > 1 {
      assert (parts + [x])[1..] == parts[1..] + [x];
      JoinSnoc(parts[1..], x, sep);
    }
  }

  lemma SplitCons(a: string, b: string, c: char)
    requires c !in a
    ensures Split(a + [c] + b, c) == [a] + Split(b, c)
  {
    var s := a + [c] + b;
    var i := IndexOf(s, c);
    assert s[|a|] == c;
    assert s[..i] == a;
    assert s[i + 1..] == b;
  }

  lemma SplitNone(a: string, c: char)
    requires c !in a
    ensures Split(a, c) == [a]
  {
  }

  /** Splitting a join on the same one-character separator gives the parts
      back, as long as no part contains the separator. */
  lemma {:induction false} SplitJoin(parts: seq<string>, c: char)
    requires |parts| >= 1
    requires forall i :: 0 <= i < |parts| ==> c !in parts[i]
    ensures Split(Join(parts, [c]), c) == parts
  {
    if |parts| == 1 {
      SplitNone(parts[0], c);
    } else {
      var rest := Join(parts[1..], [c]);
      assert Join(parts, [c]) == parts[0] + [c] + rest;
      SplitCons(parts[0], rest, c);
      SplitJoin(parts[1..], c);
    }
  }

  /** A calendar date as Go's `time.Time.Date()` returns it. */
  datatype Date = Date(year: Int, month: int, day: int)

  predicate ValidDate(d: Date) { 1 <= d.month <= 12 && 1 <= d.day <= 31 }

  /** `fmt.Sprintf("%d/%02d/%02d", year, month, day)`: the `YYYY/MM/DD` form
      the availability endpoint expects. */
  function FormatDate(d: Date): (s: string)
    ensures ValidDate(d) ==> |s| == |Itoa(d.year)| + 6
  {
    Itoa(d.year) + "/" + Pad2(d.month) + "/" + Pad2(d.day)
  }

  /** Reads a `year/MM/DD` date back: three `/`-separated fields, the first an
      `int`, the other two exactly two digits each. */
  function ParseDate(s: string): Option<Date>
  {
    var parts := Split(s, '/');
    if |parts| != 3 || Atoi(parts[0]).Failure? then None
    else if |parts[1]| != 2 || |parts[2]| != 2 || !AllDigits(parts[1]) || !AllDigits(parts[2]) then None
    else Some(Date(Atoi(parts[0]).value, ParseDigits(parts[1]), ParseDigits(parts[2])))
  }

  lemma NoSeparatorInNumber(n: int, c: char)
    requires c != '-' && !IsDigit(c)
    ensures c !in Itoa(n)
  {
  }

  /** Every valid date written with `%d/%02d/%02d` reads back as itself, so
      month and day are zero-padded to exactly two digits. */
  lemma {:induction false} FormatDateRoundTrip(d: Date)
    requires ValidDate(d)
    ensures ParseDate(FormatDate(d)) == Some(d)
  {
    var y, m, dd := Itoa(d.year), Pad2(d.month), Pad2(d.day);
    NoSeparatorInNumber(d.year, '/');
    assert '/' !in m && '/' !in dd by {
      assert forall i :: 0 <= i < 2 ==> IsDigit(m[i]) && IsDigit(dd[i]);
    }
    assert Join([y, m, dd], "/") == FormatDate(d) by {
      assert Join([m, dd], "/") == m + "/" + dd;
      assert [y, m, dd][1..] == [m, dd];
    }
    SplitJoin([y, m, dd], '/');
    AtoiItoa(d.year);
  }
}

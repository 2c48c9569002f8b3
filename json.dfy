/**
 * The text form the page stores save data in: `JSON.stringify` of the
 * bytes as an array of numbers, `[12,0,255]`, and `JSON.parse` of that
 * form followed by the conversion to a Uint8Array.
 */
module Json {
  import opened Bits
  import opened Wrappers

  predicate IsDigit(c: char)
  {
    '0' <= c <= '9'
  }

  predicate AllDigits(s: string)
  {
    forall i :: 0 <= i < |s| ==> IsDigit(s[i])
  }

  function Digit(d: nat): (c: char)
    requires d < 10
    ensures IsDigit(c)
  {
    (48 + d) as char
  }

  /** A number written in decimal, as JSON writes it: no sign, no leading zero. */
  function Decimal(n: nat): (s: string)
    ensures |s| > 0 && AllDigits(s)
    decreases n
  {
    if n < 10 then [Digit(n)] else Decimal(n / 10) + [Digit(n % 10)]
  }

  /** The value of a string of decimal digits. */
  function Value(s: string): nat
    requires AllDigits(s)
    decreases |s|
  {
    if |s| == 0 then 0 else 10 * Value(s[..|s| - 1]) + (s[|s| - 1] as int - 48)
  }

  /** Reading a number back from its decimal form gives the number. */
  lemma {:induction false} ValueOfDecimal(n: nat)
    ensures Value(Decimal(n)) == n
    decreases n
  {
    if n >= 10 {
      ValueOfDecimal(n / 10);
      var s := Decimal(n);
      assert s[..|s| - 1] == Decimal(n / 10);
    }
  }

  /** A JSON number: digits, with a leading zero only in "0" itself. */
  predicate IsNumber(s: string)
  {
    |s| > 0 && AllDigits(s) && (|s| == 1 || s[0] != '0')
  }

  /** Decimal never writes a leading zero. */
  lemma {:induction false} DecimalIsNumber(n: nat)
    ensures IsNumber(Decimal(n))
    ensures n >= 10 ==> Decimal(n)[0] == Decimal(n / 10)[0]
    decreases n
  {
    if n >= 10 {
      DecimalIsNumber(n / 10);
      if n / 10 >= 10 {
        assert Decimal(n / 10)[0] != '0';
      } else {
        assert Decimal(n / 10) == [Digit(n / 10)];
      }
    }
  }

  /** Items separated by commas. */
  function Join(items: seq<string>): string
    decreases |items|
  {
    if |items| == 0 then "" else if |items| == 1 then items[0] else items[0] + "," + Join(items[1..])
  }

  /** The pieces of a string between its commas. */
  function Split(s: string): (r: seq<string>)
    ensures |r| > 0
    decreases |s|
  {
    if |s| == 0 then [""]
    else
      var rest := Split(s[1..]);
      if s[0] == ',' then [""] + rest else [[s[0]] + rest[0]] + rest[1..]
  }

  /** A string without commas is one piece. */
  lemma {:induction false} SplitNoComma(a: string)
    requires ',' !in a
    ensures Split(a) == [a]
    decreases |a|
  {
    if |a| > 0 {
      SplitNoComma(a[1..]);
      assert [a[0]] + a[1..] == a;
    }
  }

  /** A comma after a comma-free prefix ends the first piece. */
  lemma {:induction false} SplitAfter(a: string, t: string)
    requires ',' !in a
    ensures Split(a + "," + t) == [a] + Split(t)
    decreases |a|
  {
    if |a| == 0 {
      assert a + "," + t == [','] + t;
      assert (a + "," + t)[1..] == t;
    } else {
      assert (a + "," + t)[1..] == a[1..] + "," + t;
      SplitAfter(a[1..], t);
      assert [a[0]] + a[1..] == a;
    }
  }

  /** Splitting what Join wrote gives the items back, when no item holds a comma. */
  lemma {:induction false} SplitJoin(items: seq<string>)
    requires |items| > 0 && forall i :: 0 <= i < |items| ==> ',' !in items[i]
    ensures Split(Join(items)) == items
    decreases |items|
  {
    if |items| == 1 {
      SplitNoComma(items[0]);
    } else {
      SplitJoin(items[1..]);
      SplitAfter(items[0], Join(items[1..]));
    }
  }

  /** The decimal forms of some bytes. */
  function Decimals(bs: seq<byte>): (r: seq<string>)
    ensures |r| == |bs| && forall i :: 0 <= i < |bs| ==> r[i] == Decimal(bs[i])
  {
    seq(|bs|, i requires 0 <= i < |bs| => Decimal(bs[i]))
  }

  /** `JSON.stringify(Array.from(bytes))`. */
  function Stringify(bs: seq<byte>): (s: string)
    ensures |s| >= 2 && s[0] == '[' && s[|s| - 1] == ']'
  {
    "[" + Join(Decimals(bs)) + "]"
  }

  /** The numbers of the pieces between the commas; None when a piece is not a number. */
  function Numbers(items: seq<string>): (r: Option<seq<nat>>)
    ensures r.Some? ==> |r.value| == |items|
  {
    if forall i :: 0 <= i < |items| ==> IsNumber(items[i]) then
      Some(seq(|items|, i requires 0 <= i < |items| && IsNumber(items[i]) => Value(items[i])))
    else None
  }

  /** `JSON.parse` of an array of numbers; None where it would throw. */
  function Parse(s: string): (r: Option<seq<nat>>)
  {
    if |s| < 2 || s[0] != '[' || s[|s| - 1] != ']' then None
    else if |s| == 2 then Some([])
    else Numbers(Split(s[1..|s| - 1]))
  }

  /** `new Uint8Array(numbers)`: each number taken modulo 256. */
  function Uint8(ns: seq<nat>): (r: seq<byte>)
    ensures |r| == |ns| && forall i :: 0 <= i < |ns| ==> r[i] == ns[i] % 0x100
  {
    seq(|ns|, i requires 0 <= i < |ns| => ns[i] % 0x100)
  }

  /** A non-empty list of decimals joins to a non-empty text. */
  lemma JoinNonEmpty(items: seq<string>)
    requires |items| > 0 && |items[0]| > 0
    ensures |Join(items)| > 0
  {
  }

  /** The decimal forms of bytes are numbers without commas, and read back as the bytes. */
  lemma NumbersOfDecimals(bs: seq<byte>)
    ensures forall i :: 0 <= i < |bs| ==> ',' !in Decimals(bs)[i]
    ensures Numbers(Decimals(bs)).Some? && Uint8(Numbers(Decimals(bs)).value) == bs
  {
    var items := Decimals(bs);
    forall i | 0 <= i < |items|
      ensures ',' !in items[i] && IsNumber(items[i]) && Value(items[i]) == bs[i]
    {
      DecimalIsNumber(bs[i]);
      ValueOfDecimal(bs[i]);
      assert !IsDigit(',');
    }
    var ns := Numbers(items).value;
    forall i | 0 <= i < |bs|
      ensures Uint8(ns)[i] == bs[i]
    {
      assert ns[i] == Value(items[i]);
    }
  }

  /** Parsing what was stringified, and converting to bytes, gives the bytes back. */
  lemma ParseStringify(bs: seq<byte>)
    ensures Parse(Stringify(bs)).Some?
    ensures Uint8(Parse(Stringify(bs)).value) == bs
  {
    var s := Stringify(bs);
    var items := Decimals(bs);
    assert s[1..|s| - 1] == Join(items);
    NumbersOfDecimals(bs);
    if |bs| > 0 {
      JoinNonEmpty(items);
      SplitJoin(items);
    } else {
      assert s == "[]";
    }
  }
}

/** Names of intermediate files: what doMap prints and what the coordinator scans back. */
module FileNames {
  datatype Option<T> = None | Some(value: T)

  predicate IsDigit(c: char) { '0' <= c <= '9' }

  /** The one-character string of a digit. */
  function Digit(d: nat): string
    requires d < 10
  {
    ["0123456789"[d]]
  }

  /** `%d` of a natural number. */
  function Decimal(n: nat): string {
    if n < 10 then Digit(n) else Decimal(n / 10) + Digit(n % 10)
  }

  /** `fmt.Sprintf("mr-%d-%d.json", x, y)`. */
  function FileName(x: nat, y: nat): string {
    "mr-" + Decimal(x) + "-" + Decimal(y) + ".json"
  }

  // ----- fmt.Sscanf(filename, "mr-%d-%d", &x, &y) --------------------------------

  function SkipSpace(s: string): string {
    if s != "" && s[0] == ' ' then SkipSpace(s[1..]) else s
  }

  /** The longest run of digits at the start. */
  function DigitRun(s: string): (k: nat)
    ensures k <= |s|
    ensures forall i :: 0 <= i < k ==> IsDigit(s[i])
    ensures k == |s| || !IsDigit(s[k])
  {
    if s != "" && IsDigit(s[0]) then 1 + DigitRun(s[1..]) else 0
  }

  function Value(digits: string): nat
    requires forall i :: 0 <= i < |digits| ==> IsDigit(digits[i])
  {
    if digits == "" then 0
    else
      var last := digits[|digits| - 1];
      assert IsDigit(last);
      Value(digits[..|digits| - 1]) * 10 + (last as int - '0' as int)
  }

  /** `%d`: skip spaces, an optional sign, at least one digit. */
  function ScanInt(s: string): Option<(int, string)> {
    var t := SkipSpace(s);
    var negative := t != "" && t[0] == '-';
    var u := if t != "" && (t[0] == '-' || t[0] == '+') then t[1..] else t;
    var k := DigitRun(u);
    if k == 0 then None
    else Some((if negative then 0 - Value(u[..k]) else Value(u[..k]), u[k..]))
  }

  /** A scanning format: literal characters and `%d`. */
  datatype Format = End | Text(c: char, rest: Format) | Number(rest: Format)

  /** "mr-%d-%d" */
  const NAME: Format := Text('m', Text('r', Text('-', Number(Text('-', Number(End))))))

  /** Sscanf: the numbers read, or None at the first mismatch. */
  function Scan(format: Format, s: string): Option<seq<int>> {
    match format
    case End => Some([])
    case Text(c, rest) => if s != "" && s[0] == c then Scan(rest, s[1..]) else None
    case Number(rest) =>
      var r := ScanInt(s);
      if r.None? then None
      else
        var more := Scan(rest, r.value.1);
        if more.Some? then Some([r.value.0] + more.value) else None
  }

  /** The second number, or None where the coordinator stops with "Failed to parse filename". */
  function ExtractReduceTaskIndex(name: string): Option<int> {
    var r := Scan(NAME, name);
    if r.Some? && |r.value| == 2 then Some(r.value[1]) else None
  }

  lemma {:induction false} DecimalReads(n: nat)
    ensures Decimal(n) != "" && (forall i :: 0 <= i < |Decimal(n)| ==> IsDigit(Decimal(n)[i]))
    ensures Value(Decimal(n)) == n
  {
    if n < 10 {
      assert Decimal(n)[..0] == "";
    } else {
      DecimalReads(n / 10);
      var d := Decimal(n);
      assert d[..|d| - 1] == Decimal(n / 10);
      assert d[|d| - 1] == Digit(n % 10)[0];
    }
  }

  lemma {:induction false} DigitRunStops(digits: string, rest: string)
    requires forall i :: 0 <= i < |digits| ==> IsDigit(digits[i])
    requires rest == "" || !IsDigit(rest[0])
    ensures DigitRun(digits + rest) == |digits|
  {
    if digits == "" {
      assert digits + rest == rest;
    } else {
      DigitRunStops(digits[1..], rest);
      assert (digits + rest)[1..] == digits[1..] + rest;
    }
  }

  lemma ScanIntReads(n: nat, rest: string)
    requires rest == "" || !IsDigit(rest[0])
    ensures ScanInt(Decimal(n) + rest) == Some((n as int, rest))
  {
    var s := Decimal(n) + rest;
    DecimalReads(n);
    DigitRunStops(Decimal(n), rest);
    assert IsDigit(s[0]) by { assert s[0] == Decimal(n)[0]; }
    assert s[..|Decimal(n)|] == Decimal(n) && s[|Decimal(n)|..] == rest;
  }

  lemma ScanTextReads(c: char, format: Format, s: string)
    ensures Scan(Text(c, format), [c] + s) == Scan(format, s)
  {
    assert ([c] + s)[1..] == s;
  }

  lemma ScanNumberReads(n: nat, format: Format, s: string, xs: seq<int>)
    requires s == "" || !IsDigit(s[0])
    requires Scan(format, s) == Some(xs)
    ensures Scan(Number(format), Decimal(n) + s) == Some([n as int] + xs)
  {
    ScanIntReads(n, s);
  }

  lemma SecondReads(y: nat)
    ensures Scan(Number(End), Decimal(y) + ".json") == Some([y as int])
  {
    ScanNumberReads(y, End, ".json", []);
    assert [y as int] + [] == [y as int];
  }

  lemma BothRead(x: nat, y: nat)
    ensures Scan(Number(Text('-', Number(End))), Decimal(x) + (['-'] + (Decimal(y) + ".json"))) ==
      Some([x as int, y as int])
  {
    SecondReads(y);
    var last := Decimal(y) + ".json";
    ScanTextReads('-', Number(End), last);
    ScanNumberReads(x, Text('-', Number(End)), ['-'] + last, [y as int]);
    assert [x as int] + [y as int] == [x as int, y as int];
  }

  lemma NameShape(a: string, b: string)
    ensures "mr-" + a + "-" + b + ".json" == ['m'] + (['r'] + (['-'] + (a + (['-'] + (b + ".json")))))
  {
  }

  /** Round trip: scanning a printed name gives both numbers back. */
  lemma NameRoundTrip(x: nat, y: nat)
    ensures Scan(NAME, FileName(x, y)) == Some([x as int, y as int])
    ensures ExtractReduceTaskIndex(FileName(x, y)) == Some(y as int)
  {
    var both := Decimal(x) + (['-'] + (Decimal(y) + ".json"));
    var numbers := Number(Text('-', Number(End)));
    BothRead(x, y);
    ScanTextReads('-', numbers, both);
    ScanTextReads('r', Text('-', numbers), ['-'] + both);
    ScanTextReads('m', Text('r', Text('-', numbers)), ['r'] + (['-'] + both));
    NameShape(Decimal(x), Decimal(y));
  }

  /** So no two pairs share a file. */
  lemma NamesDiffer(x: nat, y: nat, x': nat, y': nat)
    requires FileName(x, y) == FileName(x', y')
    ensures x == x' && y == y'
  {
    NameRoundTrip(x, y);
    NameRoundTrip(x', y');
  }
}

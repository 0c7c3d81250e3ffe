/** Formatted text as the standard streams write and read it: decimal integers, and words between white space. */
module Text {
  import opened Types

  const INT_MIN := -0x8000_0000
  const INT_MAX := 0x7fff_ffff
  const TWO_64 := 0x1_0000_0000_0000_0000

  predicate Int32(n: int) {
    INT_MIN <= n <= INT_MAX
  }

  predicate White(c: char) {
    c == ' ' || c == '\t' || c == '\n' || c == '\r' || c == '\U{000B}' || c == '\U{000C}'
  }

  predicate Digit(c: char) {
    '0' <= c <= '9'
  }

  /** Non-empty and free of white space: what `>>` into a string can yield. */
  predicate Word(s: string) {
    s != "" && forall i | 0 <= i < |s| :: !White(s[i])
  }

  // ---- writing ----

  function Digits(n: nat): (s: string)
    ensures s != "" && forall i | 0 <= i < |s| :: Digit(s[i])
  {
    var d := [('0' as int + n % 10) as char];
    if n < 10 then d else Digits(n / 10) + d
  }

  function Str(n: int): string {
    if n < 0 then "-" + Digits(-n) else Digits(n)
  }

  // ---- reading ----

  /** An input stream: what is left, and the fail bit. Once set, every extraction is a no-op. */
  datatype Stream = Stream(rest: string, fail: bool)

  /** The length of the longest prefix that satisfies the test. */
  function Span(s: string, test: char -> bool): (n: nat)
    ensures n <= |s|
    ensures forall i | 0 <= i < n :: test(s[i])
    ensures n < |s| ==> !test(s[n])
  {
    if s == "" || !test(s[0]) then 0 else 1 + Span(s[1..], test)
  }

  function SkipWhite(s: string): string {
    s[Span(s, White)..]
  }

  function Value(digits: string): (v: int)
    requires forall i | 0 <= i < |digits| :: Digit(digits[i])
    ensures v >= 0
  {
    if digits == "" then 0
    else
      var d := digits[|digits| - 1];
      assert Digit(d);
      Value(digits[..|digits| - 1]) * 10 + (d as int - '0' as int)
  }

  /** An optional sign and the digits after it; the number of characters read, and the value if there was a digit. */
  function Number(s: string): (r: (nat, Option<int>))
    ensures r.0 <= |s|
  {
    var sign := if s != "" && (s[0] == '-' || s[0] == '+') then 1 else 0;
    var n := Span(s[sign..], Digit);
    var v := Value(s[sign..][..n]);
    var x: int := if sign == 1 && s[0] == '-' then -v else v;
    (sign + n, if n == 0 then None else Some(x))
  }

  /** `>> int`: the target keeps `prior` when nothing could be read, and takes 0 or a limit on a malformed number. */
  function GetInt(st: Stream, prior: int): (int, Stream) {
    var s := SkipWhite(st.rest);
    if st.fail then (prior, st)
    else if s == "" then (prior, Stream("", true))
    else
      var (n, v) := Number(s);
      match v
      case None => (0, Stream(s[n..], true))
      case Some(x) =>
        if x > INT_MAX then (INT_MAX, Stream(s[n..], true))
        else if x < INT_MIN then (INT_MIN, Stream(s[n..], true))
        else (x, Stream(s[n..], false))
  }

  /** `>> size_t`: a minus sign wraps around. */
  function GetCount(st: Stream, prior: nat): (nat, Stream) {
    var s := SkipWhite(st.rest);
    if st.fail then (prior, st)
    else if s == "" then (prior, Stream("", true))
    else
      var (n, v) := Number(s);
      match v
      case None => (0, Stream(s[n..], true))
      case Some(x) =>
        if x >= TWO_64 || x <= -TWO_64 then (TWO_64 - 1, Stream(s[n..], true))
        else (if x >= 0 then x else TWO_64 + x, Stream(s[n..], false))
  }

  /** `>> string`. */
  function GetWord(st: Stream, prior: string): (r: (string, Stream))
    ensures !r.1.fail ==> Word(r.0)
  {
    var s := SkipWhite(st.rest);
    if st.fail then (prior, st)
    else if s == "" then (prior, Stream("", true))
    else
      var n := Span(s, c => !White(c));
      (s[..n], Stream(s[n..], false))
  }

  /** `getline`: up to the next newline, which is dropped. */
  function GetLine(st: Stream): (string, Stream) {
    if st.fail || st.rest == "" then ("", Stream(st.rest, true))
    else
      var n := Span(st.rest, c => c != '\n');
      (st.rest[..n], Stream(if n < |st.rest| then st.rest[n + 1..] else "", false))
  }

  // ---- reading back what was written ----

  lemma {:induction false} ValueOfDigits(n: nat)
    ensures Value(Digits(n)) == n
    decreases n
  {
    if n >= 10 {
      ValueOfDigits(n / 10);
      var d := [('0' as int + n % 10) as char];
      assert (Digits(n / 10) + d)[..|Digits(n)| - 1] == Digits(n / 10);
    } else {
      assert Digits(n)[..0] == "";
    }
  }

  lemma {:induction false} SpanOver(a: string, b: string, test: char -> bool)
    requires forall i | 0 <= i < |a| :: test(a[i])
    requires b == "" || !test(b[0])
    ensures Span(a + b, test) == |a|
  {
    if a != "" {
      assert (a + b)[1..] == a[1..] + b && (a + b)[0] == a[0];
      SpanOver(a[1..], b, test);
    } else {
      assert a + b == b;
    }
  }

  predicate Blank(s: string) {
    forall i | 0 <= i < |s| :: White(s[i])
  }

  predicate Ends(k: string) {
    k == "" || White(k[0])
  }

  lemma SkipGap(gap: string, s: string)
    requires Blank(gap) && s != "" && !White(s[0])
    ensures SkipWhite(gap + s) == s
  {
    SpanOver(gap, s, White);
  }

  lemma DigitsRead(d: string, k: string)
    requires d != "" && (forall i | 0 <= i < |d| :: Digit(d[i])) && Ends(k)
    ensures Number(d + k) == (|d|, Some(Value(d)))
    ensures (d + k)[|d|..] == k && Digit((d + k)[0])
  {
    hide Value;
    SpanOver(d, k, Digit);
    var s := d + k;
    assert s[0] == d[0] && s[0..] == s && s[..|d|] == d;
  }

  lemma MinusRead(d: string, k: string)
    requires d != "" && (forall i | 0 <= i < |d| :: Digit(d[i])) && Ends(k)
    ensures Number("-" + (d + k)) == (|d| + 1, Some(-Value(d)))
  {
    hide Value;
    SpanOver(d, k, Digit);
    var s := "-" + (d + k);
    assert s[1..] == d + k && s[1..][..|d|] == d;
  }

  lemma NumberRead(n: int, k: string)
    requires Ends(k)
    ensures Number(Str(n) + k) == (|Str(n)|, Some(n))
    ensures (Str(n) + k)[|Str(n)|..] == k && !White((Str(n) + k)[0])
  {
    hide Number, Digits, Value;
    var d := Digits(if n < 0 then -n else n);
    ValueOfDigits(if n < 0 then -n else n);
    DigitsRead(d, k);
    if n < 0 {
      MinusRead(d, k);
      assert Str(n) + k == "-" + (d + k);
    }
  }

  /** An integer written after a gap, and followed by white space or the end, is read back. */
  lemma IntRead(gap: string, n: int, k: string, prior: int)
    requires Blank(gap) && Int32(n) && Ends(k)
    ensures GetInt(Stream(gap + (Str(n) + k), false), prior) == (n, Stream(k, false))
  {
    NumberRead(n, k);
    SkipGap(gap, Str(n) + k);
  }

  lemma CountRead(gap: string, n: nat, k: string, prior: nat)
    requires Blank(gap) && n < TWO_64 && Ends(k)
    ensures GetCount(Stream(gap + (Str(n) + k), false), prior) == (n, Stream(k, false))
  {
    NumberRead(n, k);
    SkipGap(gap, Str(n) + k);
  }

  lemma WordRead(gap: string, w: string, k: string, prior: string)
    requires Blank(gap) && Word(w) && Ends(k)
    ensures GetWord(Stream(gap + (w + k), false), prior) == (w, Stream(k, false))
  {
    assert (w + k)[0] == w[0];
    SkipGap(gap, w + k);
    SpanOver(w, k, c => !White(c));
    assert (w + k)[..|w|] == w && (w + k)[|w|..] == k;
  }

  predicate OneLine(s: string) {
    forall i | 0 <= i < |s| :: s[i] != '\n'
  }

  lemma LineRead(line: string, k: string)
    requires OneLine(line)
    ensures GetLine(Stream(line + ("\n" + k), false)) == (line, Stream(k, false))
  {
    var s := line + ("\n" + k);
    SpanOver(line, "\n" + k, c => c != '\n');
    assert s[..|line|] == line;
    assert s[|line| + 1..] == k;
  }

  lemma WordIsOneLine(w: string)
    requires Word(w)
    ensures OneLine(w)
  {
    forall i | 0 <= i < |w|
      ensures w[i] != '\n'
    {
      assert !White(w[i]);
    }
  }

  lemma StrIsWord(n: int)
    ensures Word(Str(n))
  {
    var d := Digits(if n < 0 then -n else n);
    forall i | 0 <= i < |Str(n)|
      ensures !White(Str(n)[i])
    {
      assert n < 0 && i > 0 ==> Str(n)[i] == d[i - 1];
    }
  }
}

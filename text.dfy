/** Text primitives shared by the graph's serialized form and the arithmetic parser:
    whitespace-delimited tokens (what `istream >> x` skips and reads), lines written
    with `<< "\n"`, and decimal natural numbers. */
module Text {

  import opened Errors

  /** The characters `isspace` accepts in the C locale: space, \t, \n, \v, \f, \r. */
  predicate IsWhitespace(c: char) {
    c == ' ' || ('\t' <= c <= '\r')
  }

  predicate IsDigit(c: char) {
    '0' <= c <= '9'
  }

  function DigitValue(c: char): (d: nat)
    requires IsDigit(c)
    ensures d < 10
  {
    (c as int - '0' as int) as nat
  }

  function DigitChar(d: nat): (c: char)
    requires d < 10
    ensures IsDigit(c) && DigitValue(c) == d
  {
    ('0' as int + d) as char
  }

  /** A token the whitespace-delimited reader gives back unchanged: non-empty, no whitespace. */
  predicate IsWord(t: string) {
    t != [] && forall i :: 0 <= i < |t| ==> !IsWhitespace(t[i])
  }

  predicate AllDigits(t: string) {
    forall i :: 0 <= i < |t| ==> IsDigit(t[i])
  }

  /** The value of a run of decimal digits, most significant first. */
  function DigitsValue(t: string): nat
    requires AllDigits(t)
  {
    if t == [] then 0 else DigitsValue(t[..|t| - 1]) * 10 + DigitValue(t[|t| - 1])
  }

  /** The decimal text of `n`, as `ostream << n` writes an unsigned count. */
  function NatToString(n: nat): (t: string)
    ensures t != [] && AllDigits(t)
  {
    if n < 10 then [DigitChar(n)] else NatToString(n / 10) + [DigitChar(n % 10)]
  }

  /** The number of values of `size_t`, the type of the graph's counts and positions. */
  const SizeModulus: nat := 0x1_0000_0000_0000_0000

  /** What a formatted extraction `is >> x` makes of one token: the value it converts
      to, or a rejection that fails the stream and stores `stored` in `x` (nothing is
      stored when it is `None`). */
  datatype Conversion<T> = Converted(value: T) | Rejected(stored: Option<T>)

  /** The digits of a count after its optional sign. */
  function SizeDigits(t: string): string {
    if t != [] && (t[0] == '+' || t[0] == '-') then t[1..] else t
  }

  /** `is >> n` for a `size_t` `n` given one whole token, as `num_get` converts it: an
      optional sign and at least one digit. A negative count wraps around modulo 2^64; a
      count beyond the type stores its largest value and fails; anything else stores 0
      and fails. */
  function ParseSize(t: string): (r: Conversion<nat>)
    ensures r.Converted? <==> SizeDigits(t) != [] && AllDigits(SizeDigits(t)) && DigitsValue(SizeDigits(t)) < SizeModulus
    ensures r.Converted? ==> r.value < SizeModulus
    ensures r.Rejected? ==> r.stored.Some? && r.stored.value < SizeModulus
    ensures r.Converted? && t[0] == '-' ==> r.value == (SizeModulus - DigitsValue(SizeDigits(t))) % SizeModulus
    ensures r.Converted? && t[0] != '-' ==> r.value == DigitsValue(SizeDigits(t))
    ensures r.Rejected? ==> r.stored == Some(if SizeDigits(t) != [] && AllDigits(SizeDigits(t)) then SizeModulus - 1 else 0)
    ensures t != [] && AllDigits(t) && DigitsValue(t) < SizeModulus ==> r == Converted(DigitsValue(t))
  {
    var d := SizeDigits(t);
    if d == [] || !AllDigits(d) then Rejected(Some(0))
    else if DigitsValue(d) >= SizeModulus then Rejected(Some(SizeModulus - 1))
    else if t[0] == '-' then Converted((SizeModulus - DigitsValue(d)) % SizeModulus)
    else Converted(DigitsValue(d))
  }

  lemma {:induction false} NatToStringIsWord(n: nat)
    ensures IsWord(NatToString(n))
  {
    var t := NatToString(n);
    forall i | 0 <= i < |t| ensures !IsWhitespace(t[i]) {
      assert IsDigit(t[i]);
    }
  }

  /** The digits written for `n` have the value `n`. */
  lemma {:induction false} DigitsValueOfNatToString(n: nat)
    ensures DigitsValue(NatToString(n)) == n
  {
    if n >= 10 {
      var t := NatToString(n);
      DigitsValueOfNatToString(n / 10);
      assert t[..|t| - 1] == NatToString(n / 10);
      assert DigitValue(t[|t| - 1]) == n % 10;
      assert DigitsValue(t) == (n / 10) * 10 + n % 10;
    }
  }

  /** Writing a count and reading it back gives the count. */
  lemma ParseSizeOfNatToString(n: nat)
    requires n < SizeModulus
    ensures ParseSize(NatToString(n)) == Converted(n)
  {
    DigitsValueOfNatToString(n);
  }

  /** A negative count is accepted and wraps around: `-1` reads as the largest count. */
  lemma NegativeCountWraps()
    ensures ParseSize("-1") == Converted(SizeModulus - 1)
  {
    assert SizeDigits("-1") == "1";
    assert DigitsValue("1") == 1 by { assert "1"[..0] == []; }
  }

  /** A count too large for `size_t` saturates: the largest count is stored and the
      stream fails. */
  lemma LargeCountSaturates()
    ensures ParseSize(NatToString(SizeModulus)) == Rejected(Some(SizeModulus - 1))
  {
    var t := NatToString(SizeModulus);
    DigitsValueOfNatToString(SizeModulus);
    assert SizeDigits(t) == t by { assert IsDigit(t[0]); }
  }

  /** The number of leading characters of `s` that are not whitespace. */
  function WordLength(s: string): (n: nat)
    ensures n <= |s|
    ensures forall i :: 0 <= i < n ==> !IsWhitespace(s[i])
    ensures n < |s| ==> IsWhitespace(s[n])
  {
    if s == [] || IsWhitespace(s[0]) then 0 else 1 + WordLength(s[1..])
  }

  /** The whitespace-delimited tokens of `s`, in order, as successive `is >> x` see them. */
  function Tokens(s: string): (ts: seq<string>)
    ensures forall i :: 0 <= i < |ts| ==> IsWord(ts[i])
    decreases |s|
  {
    if s == [] then []
    else if IsWhitespace(s[0]) then Tokens(s[1..])
    else
      var n := WordLength(s);
      [s[..n]] + Tokens(s[n..])
  }

  /** Each token followed by a newline, as the serializer writes them. */
  function Lines(ts: seq<string>): string
  {
    if ts == [] then [] else ts[0] + "\n" + Lines(ts[1..])
  }

  lemma {:induction false} WordLengthOfWord(t: string, rest: string)
    requires IsWord(t)
    ensures WordLength(t + "\n" + rest) == |t|
    decreases |t|
  {
    var s := t + "\n" + rest;
    if |t| > 1 {
      assert s[1..] == t[1..] + "\n" + rest;
      WordLengthOfWord(t[1..], rest);
    } else {
      assert s[1..] == "\n" + rest;
    }
  }

  /** Reading the tokens back from the written lines gives the same tokens, provided
      no token is empty or contains whitespace. */
  lemma {:induction false} TokensOfLines(ts: seq<string>)
    requires forall i :: 0 <= i < |ts| ==> IsWord(ts[i])
    ensures Tokens(Lines(ts)) == ts
  {
    if ts != [] {
      var t, rest := ts[0], Lines(ts[1..]);
      var s := t + "\n" + rest;
      assert Lines(ts) == s;
      WordLengthOfWord(t, rest);
      assert s[..|t|] == t;
      assert s[|t|..] == "\n" + rest;
      assert ("\n" + rest)[1..] == rest;
      TokensOfLines(ts[1..]);
    }
  }
}

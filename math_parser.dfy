/** The recursive-descent calculator of mathparser.h. The grammar it follows is
      expr   := factor (('+' | '-') factor)*
      factor := skobki (('*' | '/') skobki)*
      skobki := '(' expr <any one character> | number
      number := digit*
    Parsing stops at the first character no rule expects; that character and everything
    after it is ignored. The pure functions below give the value and the position where
    each rule stops; the class `MathParser` runs the rules over a character cursor and is
    proved to compute the same. Values are `real`: the source's `double` rounding is not
    modelled. */
module Arithmetic {

  import opened Errors
  import opened Text

  // One step each of the source's `double` arithmetic. `None` stands for the value of a
  // division by zero (an infinity or NaN in the source); the model does not follow such
  // a value further, and every later step on it stays `None`.

  function Plus(a: Option<real>, b: Option<real>): Option<real> {
    if a.Some? && b.Some? then Some(a.value + b.value) else None
  }

  function Minus(a: Option<real>, b: Option<real>): Option<real> {
    if a.Some? && b.Some? then Some(a.value - b.value) else None
  }

  function Times(a: Option<real>, b: Option<real>): Option<real> {
    if a.Some? && b.Some? then Some(a.value * b.value) else None
  }

  function Quotient(a: Option<real>, b: Option<real>): Option<real> {
    if a.Some? && b.Some? && b.value != 0.0 then Some(a.value / b.value) else None
  }

  /** A value and the position after the text it was read from. */
  datatype Parse = Parse(value: Option<real>, end: nat)

  // ---------------------------------------------------------------------------
  // The grammar, as functions of the text and a start position

  /** The loop of `number` from position `pos`, with `n` accumulated so far: each digit
      turns `n` into `n * 10 + digit`, and the first non-digit (or the end) stops it. */
  function NumberFrom(s: string, pos: nat, n: nat): (r: Parse)
    requires pos <= |s|
    ensures r.value.Some? && pos <= r.end <= |s|
    ensures r.end == |s| || !IsDigit(s[r.end])
    decreases |s| - pos
  {
    if pos < |s| && IsDigit(s[pos]) then NumberFrom(s, pos + 1, n * 10 + DigitValue(s[pos]))
    else Parse(Some(n as real), pos)
  }

  /** `skobki`: a bracketed expression followed by one more character, whatever it is,
      or else a number. */
  function PrimaryAt(s: string, pos: nat): (r: Parse)
    requires pos <= |s|
    ensures pos <= r.end <= |s|
    decreases |s| - pos, 1
  {
    if pos < |s| && s[pos] == '(' then
      var inner := ExprAt(s, pos + 1);
      Parse(inner.value, if inner.end < |s| then inner.end + 1 else inner.end)
    else
      NumberFrom(s, pos, 0)
  }

  /** The loop of `factor` from position `pos`, with the value `acc` read so far. */
  function FactorRest(s: string, acc: Option<real>, pos: nat): (r: Parse)
    requires pos <= |s|
    ensures pos <= r.end <= |s|
    ensures r.end == |s| || (s[r.end] != '*' && s[r.end] != '/')
    decreases |s| - pos, 2
  {
    if pos < |s| && s[pos] == '*' then
      var rhs := PrimaryAt(s, pos + 1);
      FactorRest(s, Times(acc, rhs.value), rhs.end)
    else if pos < |s| && s[pos] == '/' then
      var rhs := PrimaryAt(s, pos + 1);
      FactorRest(s, Quotient(acc, rhs.value), rhs.end)
    else
      Parse(acc, pos)
  }

  /** `factor`: products and quotients, grouped to the left. */
  function FactorAt(s: string, pos: nat): (r: Parse)
    requires pos <= |s|
    ensures pos <= r.end <= |s|
    ensures r.end == |s| || (s[r.end] != '*' && s[r.end] != '/')
    decreases |s| - pos, 3
  {
    var first := PrimaryAt(s, pos);
    FactorRest(s, first.value, first.end)
  }

  /** The loop of `expr` from position `pos`, with the value `acc` read so far. */
  function ExprRest(s: string, acc: Option<real>, pos: nat): (r: Parse)
    requires pos <= |s|
    requires pos == |s| || (s[pos] != '*' && s[pos] != '/')
    ensures pos <= r.end <= |s|
    ensures r.end == |s| || (s[r.end] != '+' && s[r.end] != '-' && s[r.end] != '*' && s[r.end] != '/')
    decreases |s| - pos, 4
  {
    if pos < |s| && s[pos] == '+' then
      var rhs := FactorAt(s, pos + 1);
      ExprRest(s, Plus(acc, rhs.value), rhs.end)
    else if pos < |s| && s[pos] == '-' then
      var rhs := FactorAt(s, pos + 1);
      ExprRest(s, Minus(acc, rhs.value), rhs.end)
    else
      Parse(acc, pos)
  }

  /** `expr`: sums and differences of factors, grouped to the left. It stops at the end
      of the text or at a character that is no operator. */
  function ExprAt(s: string, pos: nat): (r: Parse)
    requires pos <= |s|
    ensures pos <= r.end <= |s|
    ensures r.end == |s| || (s[r.end] != '+' && s[r.end] != '-' && s[r.end] != '*' && s[r.end] != '/')
    decreases |s| - pos, 5
  {
    var first := FactorAt(s, pos);
    ExprRest(s, first.value, first.end)
  }

  // One turn of each loop, stated on its own so that proofs take the turns one by one

  lemma {:induction false} FactorStart(s: string, p: nat)
    requires p <= |s|
    ensures FactorAt(s, p) == FactorRest(s, PrimaryAt(s, p).value, PrimaryAt(s, p).end)
  {
  }

  lemma {:induction false} FactorTimes(s: string, acc: Option<real>, p: nat, o: nat)
    requires p < |s| && s[p] == '*' && o == p + 1
    ensures FactorRest(s, acc, p) == FactorRest(s, Times(acc, PrimaryAt(s, o).value), PrimaryAt(s, o).end)
  {
  }

  lemma {:induction false} FactorQuotient(s: string, acc: Option<real>, p: nat, o: nat)
    requires p < |s| && s[p] == '/' && o == p + 1
    ensures FactorRest(s, acc, p) == FactorRest(s, Quotient(acc, PrimaryAt(s, o).value), PrimaryAt(s, o).end)
  {
  }

  lemma {:induction false} FactorStop(s: string, acc: Option<real>, p: nat)
    requires p <= |s| && (p == |s| || (s[p] != '*' && s[p] != '/'))
    ensures FactorRest(s, acc, p) == Parse(acc, p)
  {
  }

  lemma {:induction false} ExprStart(s: string, p: nat)
    requires p <= |s|
    ensures ExprAt(s, p) == ExprRest(s, FactorAt(s, p).value, FactorAt(s, p).end)
  {
  }

  lemma {:induction false} ExprPlus(s: string, acc: Option<real>, p: nat, o: nat)
    requires p < |s| && s[p] == '+' && o == p + 1
    ensures ExprRest(s, acc, p) == ExprRest(s, Plus(acc, FactorAt(s, o).value), FactorAt(s, o).end)
  {
  }

  lemma {:induction false} ExprMinus(s: string, acc: Option<real>, p: nat, o: nat)
    requires p < |s| && s[p] == '-' && o == p + 1
    ensures ExprRest(s, acc, p) == ExprRest(s, Minus(acc, FactorAt(s, o).value), FactorAt(s, o).end)
  {
  }

  lemma {:induction false} ExprStop(s: string, acc: Option<real>, p: nat)
    requires p <= |s| && (p == |s| || (s[p] != '+' && s[p] != '-' && s[p] != '*' && s[p] != '/'))
    ensures ExprRest(s, acc, p) == Parse(acc, p)
  {
  }

  // ---------------------------------------------------------------------------
  // The parser over a character cursor

  class MathParser {
    /** The text of `m_expr_stream` and the stream's read position. */
    var input: string
    var pos: nat

    ghost predicate Valid()
      reads this
    {
      pos <= |input|
    }

    constructor ()
      ensures input == [] && pos == 0 && Valid()
    {
      input := [];
      pos := 0;
    }

    /** `get()`: the next character, or nothing at the end of the text. */
    method Get() returns (c: Option<char>)
      requires Valid()
      modifies this
      ensures Valid() && input == old(input)
      ensures old(pos) < |input| ==> c == Some(input[old(pos)]) && pos == old(pos) + 1
      ensures old(pos) == |input| ==> c == None && pos == old(pos)
    {
      if pos < |input| {
        c := Some(input[pos]);
        pos := pos + 1;
      } else {
        c := None;
      }
    }

    /** `putback(c)` of the character just read: the position goes back by one. Putting
        back the end of the text does nothing, as the stream has failed by then. */
    method Putback(c: Option<char>)
      requires Valid()
      requires c.Some? ==> 0 < pos && input[pos - 1] == c.value
      modifies this
      ensures Valid() && input == old(input)
      ensures c.Some? ==> pos == old(pos) - 1
      ensures c.None? ==> pos == old(pos)
    {
      if c.Some? {
        pos := pos - 1;
      }
    }

    /** `number`: accumulates digits until a non-digit, which is put back. */
    method Number() returns (n: nat)
      requires Valid()
      modifies this
      ensures Valid() && input == old(input)
      ensures NumberFrom(input, old(pos), 0) == Parse(Some(n as real), pos)
    {
      ghost var s := input;
      ghost var goal := NumberFrom(s, pos, 0);
      n := 0;
      while true
        invariant Valid() && input == s
        invariant NumberFrom(s, pos, n) == goal
        decreases |s| - pos
      {
        var c := Get();
        if c.Some? && IsDigit(c.value) {
          n := n * 10 + DigitValue(c.value);
        } else {
          Putback(c);
          return;
        }
      }
    }

    /** `skobki`: a bracketed expression and one more character, or a number. */
    method Skobki() returns (x: Option<real>)
      requires Valid()
      modifies this
      ensures Valid() && input == old(input)
      ensures PrimaryAt(input, old(pos)) == Parse(x, pos)
      decreases |input| - pos, 1
    {
      ghost var start := pos;
      ghost var want := PrimaryAt(input, pos);
      var c := Get();
      if c == Some('(') {
        ghost var inner := ExprAt(input, pos);
        assert want == Parse(inner.value, if inner.end < |input| then inner.end + 1 else inner.end);
        x := Expr();
        c := Get();
      } else {
        assert want == NumberFrom(input, start, 0);
        Putback(c);
        var n := Number();
        x := Some(n as real);
      }
    }

    /** `factor`: a `skobki`, then `*` or `/` and another, as long as they come. */
    method Factor() returns (x: Option<real>)
      requires Valid()
      modifies this
      ensures Valid() && input == old(input)
      ensures FactorAt(input, old(pos)) == Parse(x, pos)
      decreases |input| - pos, 3
    {
      ghost var s := input;
      ghost var goal := FactorAt(s, pos);
      ghost var start := pos;
      x := Skobki();
      FactorStart(s, start);
      while true
        invariant Valid() && input == s && old(pos) <= pos
        invariant FactorRest(s, x, pos) == goal
        decreases |s| - pos
      {
        ghost var here := pos;
        var c := Get();
        if c == Some('*') {
          ghost var after := pos;
          var y := Skobki();
          FactorTimes(s, x, here, after);
          x := Times(x, y);
        } else if c == Some('/') {
          ghost var after := pos;
          var y := Skobki();
          FactorQuotient(s, x, here, after);
          x := Quotient(x, y);
        } else {
          FactorStop(s, x, here);
          Putback(c);
          return;
        }
      }
    }

    /** `expr`: a `factor`, then `+` or `-` and another, as long as they come. */
    method Expr() returns (x: Option<real>)
      requires Valid()
      modifies this
      ensures Valid() && input == old(input)
      ensures ExprAt(input, old(pos)) == Parse(x, pos)
      decreases |input| - pos, 5
    {
      ghost var s := input;
      ghost var goal := ExprAt(s, pos);
      ghost var start := pos;
      x := Factor();
      ExprStart(s, start);
      while true
        invariant Valid() && input == s && old(pos) <= pos
        invariant pos == |s| || (s[pos] != '*' && s[pos] != '/')
        invariant ExprRest(s, x, pos) == goal
        decreases |s| - pos
      {
        ghost var here := pos;
        var c := Get();
        if c == Some('+') {
          ghost var after := pos;
          var y := Factor();
          ExprPlus(s, x, here, after);
          x := Plus(x, y);
        } else if c == Some('-') {
          ghost var after := pos;
          var y := Factor();
          ExprMinus(s, x, here, after);
          x := Minus(x, y);
        } else {
          ExprStop(s, x, here);
          Putback(c);
          return;
        }
      }
    }

    /** `Calc`: restarts the stream on `text` and evaluates one expression from its start;
        whatever an earlier call left unread is gone. */
    method Calc(text: string) returns (x: Option<real>)
      modifies this
      ensures input == text && ExprAt(text, 0) == Parse(x, pos)
    {
      input, pos := text, 0;
      x := Expr();
    }
  }

  // ---------------------------------------------------------------------------
  // What the grammar computes

  /** The text at `p` is a number of value `n` whose digits end at `q`. */
  predicate NumberIs(s: string, p: nat, n: nat, q: nat) {
    p < |s| && IsDigit(s[p]) && NumberFrom(s, p, 0) == Parse(Some(n as real), q)
  }

  /** Past the first `p - start` digits of a run, the loop of `number` holds their value
      and ends with the value of the whole run. */
  lemma {:induction false} NumberFromRun(s: string, start: nat, p: nat, q: nat)
    requires start <= p <= q <= |s|
    requires forall i :: start <= i < q ==> IsDigit(s[i])
    requires q == |s| || !IsDigit(s[q])
    ensures NumberFrom(s, p, DigitsValue(s[start..p])) == Parse(Some(DigitsValue(s[start..q]) as real), q)
    decreases q - p
  {
    if p < q {
      assert s[start..p + 1][..p - start] == s[start..p];
      NumberFromRun(s, start, p + 1, q);
    }
  }

  /** A run of digits reads as its decimal value, up to the first non-digit after it. */
  lemma {:induction false} NumberOfDigits(pre: string, d: string, post: string)
    requires d != [] && AllDigits(d)
    requires post == [] || !IsDigit(post[0])
    ensures NumberIs(pre + d + post, |pre|, DigitsValue(d), |pre| + |d|)
  {
    var s := pre + d + post;
    assert s[|pre|..|pre|] == [];
    assert s[|pre|..|pre| + |d|] == d;
    NumberFromRun(s, |pre|, |pre|, |pre| + |d|);
  }

  /** A number written in decimal reads back as itself. */
  lemma {:induction false} NumberOfNatToString(n: nat, post: string)
    requires post == [] || !IsDigit(post[0])
    ensures NumberFrom(NatToString(n) + post, 0, 0) == Parse(Some(n as real), |NatToString(n)|)
  {
    assert NatToString(n) + post == [] + NatToString(n) + post;
    NumberOfDigits([], NatToString(n), post);
    DigitsValueOfNatToString(n);
  }

  /** A `factor` that is a single number. */
  lemma {:induction false} FactorOfNumber(s: string, p: nat, n: nat, q: nat)
    requires NumberIs(s, p, n, q) && (q == |s| || (s[q] != '*' && s[q] != '/'))
    ensures FactorAt(s, p) == Parse(Some(n as real), q)
  {
    assert PrimaryAt(s, p) == NumberFrom(s, p, 0);
  }

  /** One turn of the `expr` loop over an operator and a number. */
  lemma {:induction false} ExprRestNumber(s: string, acc: Option<real>, p: nat, n: nat, q: nat)
    requires p < |s| && s[p] == '-' && NumberIs(s, p + 1, n, q)
    requires q == |s| || (s[q] != '*' && s[q] != '/')
    ensures ExprRest(s, acc, p) == ExprRest(s, Minus(acc, Some(n as real)), q)
  {
    FactorOfNumber(s, p + 1, n, q);
  }

  /** `*` and `/` take whole `skobki` operands, one after another, from the left:
      `u*v/w` is `(u*v)/w`, whatever the three operands are. */
  lemma {:induction false} FactorGroupsLeft(s: string, p: nat, q1: nat, q2: nat)
    requires p <= |s| && PrimaryAt(s, p).end == q1
    requires q1 < |s| && s[q1] == '*' && PrimaryAt(s, q1 + 1).end == q2
    requires q2 < |s| && s[q2] == '/'
    requires var r := PrimaryAt(s, q2 + 1).end; r == |s| || (s[r] != '*' && s[r] != '/')
    ensures FactorAt(s, p)
         == Parse(Quotient(Times(PrimaryAt(s, p).value, PrimaryAt(s, q1 + 1).value), PrimaryAt(s, q2 + 1).value),
                  PrimaryAt(s, q2 + 1).end)
  {
    var u, v, w := PrimaryAt(s, p), PrimaryAt(s, q1 + 1), PrimaryAt(s, q2 + 1);
    var uv := Times(u.value, v.value);
    calc {
      FactorAt(s, p);
    == { FactorStart(s, p); }
      FactorRest(s, u.value, q1);
    == { FactorTimes(s, u.value, q1, q1 + 1); }
      FactorRest(s, uv, q2);
    == { FactorQuotient(s, uv, q2, q2 + 1); }
      FactorRest(s, Quotient(uv, w.value), w.end);
    == { FactorStop(s, Quotient(uv, w.value), w.end); }
      Parse(Quotient(uv, w.value), w.end);
    }
  }

  /** `+` and `-` take whole `factor` operands, one after another, from the left:
      `u-v+w` is `(u-v)+w`, whatever the three operands are. */
  lemma {:induction false} ExprGroupsLeft(s: string, p: nat, q1: nat, q2: nat)
    requires p <= |s| && FactorAt(s, p).end == q1
    requires q1 < |s| && s[q1] == '-' && FactorAt(s, q1 + 1).end == q2
    requires q2 < |s| && s[q2] == '+'
    requires var r := FactorAt(s, q2 + 1).end; r == |s| || (s[r] != '+' && s[r] != '-')
    ensures ExprAt(s, p)
         == Parse(Plus(Minus(FactorAt(s, p).value, FactorAt(s, q1 + 1).value), FactorAt(s, q2 + 1).value),
                  FactorAt(s, q2 + 1).end)
  {
    var u, v, w := FactorAt(s, p), FactorAt(s, q1 + 1), FactorAt(s, q2 + 1);
    var uv := Minus(u.value, v.value);
    calc {
      ExprAt(s, p);
    == { ExprStart(s, p); }
      ExprRest(s, u.value, q1);
    == { ExprMinus(s, u.value, q1, q1 + 1); }
      ExprRest(s, uv, q2);
    == { ExprPlus(s, uv, q2, q2 + 1); }
      ExprRest(s, Plus(uv, w.value), w.end);
    == { ExprStop(s, Plus(uv, w.value), w.end); }
      Parse(Plus(uv, w.value), w.end);
    }
  }

  /** `*` binds tighter than `+`: in `u+v*w` the product is the right operand of the sum. */
  lemma {:induction false} ProductBeforeSum(s: string, p: nat, q1: nat, q2: nat)
    requires p <= |s| && FactorAt(s, p).end == q1
    requires q1 < |s| && s[q1] == '+' && PrimaryAt(s, q1 + 1).end == q2
    requires q2 < |s| && s[q2] == '*'
    requires var r := PrimaryAt(s, q2 + 1).end;
      r == |s| || (s[r] != '+' && s[r] != '-' && s[r] != '*' && s[r] != '/')
    ensures ExprAt(s, p)
         == Parse(Plus(FactorAt(s, p).value, Times(PrimaryAt(s, q1 + 1).value, PrimaryAt(s, q2 + 1).value)),
                  PrimaryAt(s, q2 + 1).end)
  {
    var u, v, w := FactorAt(s, p), PrimaryAt(s, q1 + 1), PrimaryAt(s, q2 + 1);
    var vw := Times(v.value, w.value);
    assert FactorAt(s, q1 + 1) == Parse(vw, w.end) by {
      calc {
        FactorAt(s, q1 + 1);
      == { FactorStart(s, q1 + 1); }
        FactorRest(s, v.value, q2);
      == { FactorTimes(s, v.value, q2, q2 + 1); }
        FactorRest(s, vw, w.end);
      == { FactorStop(s, vw, w.end); }
        Parse(vw, w.end);
      }
    }
    calc {
      ExprAt(s, p);
    == { ExprStart(s, p); }
      ExprRest(s, u.value, q1);
    == { ExprPlus(s, u.value, q1, q1 + 1); }
      ExprRest(s, Plus(u.value, vw), w.end);
    == { ExprStop(s, Plus(u.value, vw), w.end); }
      Parse(Plus(u.value, vw), w.end);
    }
  }

  /** A missing number reads as 0, so a leading minus negates. */
  lemma {:induction false} LeadingMinus(x: string)
    requires x != [] && AllDigits(x)
    ensures ExprAt("-" + x, 0) == Parse(Some(-(DigitsValue(x) as real)), 1 + |x|)
  {
    var s := "-" + x;
    assert s == "-" + x + [];
    NumberOfDigits("-", x, []);
    assert NumberFrom(s, 0, 0) == Parse(Some(0.0), 0);
    assert FactorAt(s, 0) == Parse(Some(0.0), 0);
    ExprRestNumber(s, Some(0.0), 0, DigitsValue(x), |s|);
    assert ExprRest(s, Some(-(DigitsValue(x) as real)), |s|) == Parse(Some(-(DigitsValue(x) as real)), |s|);
  }

  /** The character after a bracketed expression is consumed unchecked: any character
      the inner expression stops at closes the bracket. */
  lemma {:induction false} AnyCloser(x: string, c: char)
    requires x != [] && AllDigits(x)
    requires c != '+' && c != '-' && c != '*' && c != '/' && !IsDigit(c)
    ensures ExprAt("(" + x + [c], 0) == Parse(Some(DigitsValue(x) as real), |x| + 2)
  {
    var s := "(" + x + [c];
    NumberOfDigits("(", x, [c]);
    assert s[|x| + 1] == c;
    FactorOfNumber(s, 1, DigitsValue(x), |x| + 1);
    assert ExprAt(s, 1) == Parse(Some(DigitsValue(x) as real), |x| + 1);
    assert PrimaryAt(s, 0) == Parse(Some(DigitsValue(x) as real), |s|);
    assert FactorAt(s, 0) == Parse(Some(DigitsValue(x) as real), |s|);
  }

}

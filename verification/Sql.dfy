/** The fragment of SQL that compiled studies are written in, at the level of text: a lexer with
    maximal munch, a precedence parser in which AND binds tighter than OR, and an evaluator in
    SQL's three-valued logic. The parser reads what follows a statement's WHERE keyword. */
module Sql {
  import opened Core

  // ----- values and three-valued logic -----

  /** A row, or any other assignment of columns to a number or NULL. */
  type Env = map<string, Option<real>>

  datatype Truth = True | False | Unknown

  function And3(a: Truth, b: Truth): Truth {
    if a.False? || b.False? then False else if a.True? && b.True? then True else Unknown
  }

  function Or3(a: Truth, b: Truth): Truth {
    if a.True? || b.True? then True else if a.False? && b.False? then False else Unknown
  }

  datatype CmpOp = Lt | Le | Gt | Ge | Eq

  function Holds(op: CmpOp, a: real, b: real): bool {
    match op
    case Lt => a < b
    case Le => a <= b
    case Gt => a > b
    case Ge => a >= b
    case Eq => a == b
  }

  /** A comparison with NULL on either side is UNKNOWN. */
  function Compare(op: CmpOp, a: Option<real>, b: Option<real>): Truth {
    if a.None? || b.None? then Unknown else if Holds(op, a.value, b.value) then True else False
  }

  // ----- lexer -----

  datatype Token =
    | LPar
    | RPar
    | Op(op: CmpOp)
    | Word(text: string)
    | Num(text: string)
    | Minus
    | Qmark

  predicate IsLetter(c: char) { 'a' <= c <= 'z' || 'A' <= c <= 'Z' || c == '_' }

  predicate IsWordChar(c: char) { IsLetter(c) || IsDigit(c) }

  /** Length of the longest run of word characters at the front. */
  function WordLen(s: string): (n: nat)
    ensures n <= |s|
    ensures forall i :: 0 <= i < n ==> IsWordChar(s[i])
    ensures n < |s| ==> !IsWordChar(s[n])
  {
    if s == "" || !IsWordChar(s[0]) then 0 else 1 + WordLen(s[1..])
  }

  function DigitsLen(s: string): (n: nat)
    ensures n <= |s|
    ensures forall i :: 0 <= i < n ==> IsDigit(s[i])
    ensures n < |s| ==> !IsDigit(s[n])
  {
    if s == "" || !IsDigit(s[0]) then 0 else 1 + DigitsLen(s[1..])
  }

  /** Length of the digits at the front, with an optional point and more digits. */
  function MantissaLen(s: string): (n: nat)
    ensures n <= |s|
    ensures s != "" && IsDigit(s[0]) ==> n > 0
  {
    var d := DigitsLen(s);
    if d < |s| && s[d] == '.' then d + 1 + DigitsLen(s[d + 1..]) else d
  }

  predicate IsExponentMark(c: char) { c == 'e' || c == 'E' }

  /** Length of the exponent at the front: the mark, an optional sign, and at least one digit. */
  function ExponentLen(s: string): (n: nat)
    ensures n <= |s|
  {
    if |s| > 1 && IsExponentMark(s[0]) && IsDigit(s[1]) then 1 + DigitsLen(s[1..])
    else if |s| > 2 && IsExponentMark(s[0]) && (s[1] == '+' || s[1] == '-') && IsDigit(s[2]) then 2 + DigitsLen(s[2..])
    else 0
  }

  /** Length of the number at the front. */
  function NumLen(s: string): (n: nat)
    ensures n <= |s|
    ensures s != "" && IsDigit(s[0]) ==> n > 0
  {
    var m := MantissaLen(s);
    m + ExponentLen(s[m..])
  }

  function Then(ts: seq<Token>, r: Option<seq<Token>>): Option<seq<Token>> {
    if r.Some? then Some(ts + r.value) else None
  }

  /** The tokens of a text; None where the text leaves this fragment (quotes, comments, <>, ...). */
  function Lex(s: string): Option<seq<Token>>
    decreases |s|
  {
    if s == "" then Some([])
    else if IsSpace(s[0]) then Lex(s[1..])
    else if s[0] == '(' then Then([LPar], Lex(s[1..]))
    else if s[0] == ')' then Then([RPar], Lex(s[1..]))
    else if s[0] == '?' then Then([Qmark], Lex(s[1..]))
    else if s[0] == '=' then Then([Op(Eq)], Lex(s[1..]))
    else if s[0] == '-' then if |s| > 1 && s[1] == '-' then None else Then([Minus], Lex(s[1..]))
    else if s[0] == '<' then
      if |s| > 1 && s[1] == '=' then Then([Op(Le)], Lex(s[2..]))
      else if |s| > 1 && (s[1] == '>' || s[1] == '<') then None
      else Then([Op(Lt)], Lex(s[1..]))
    else if s[0] == '>' then
      if |s| > 1 && s[1] == '=' then Then([Op(Ge)], Lex(s[2..]))
      else if |s| > 1 && s[1] == '>' then None
      else Then([Op(Gt)], Lex(s[1..]))
    else if IsDigit(s[0]) then
      var n := NumLen(s);
      if n < |s| && IsLetter(s[n]) then None else Then([Num(s[..n])], Lex(s[n..]))
    else if IsLetter(s[0]) then
      var n := WordLen(s);
      Then([Word(s[..n])], Lex(s[n..]))
    else None
  }

  // ----- grammar -----

  datatype Term = Col(name: string) | Lit(negative: bool, text: string) | Param

  datatype Expr =
    | Cmp(op: CmpOp, left: Term, right: Term)
    | IsNull(t: Term, negated: bool)
    | And(l: Expr, r: Expr)
    | Or(l: Expr, r: Expr)

  const KEYWORDS := {"and", "or", "order", "by", "limit", "asc", "desc", "select", "from", "where", "is", "not", "null"}

  /** Keywords are recognised in any letter case. */
  predicate IsKeyword(w: string) { Lower(w) in KEYWORDS }

  predicate At(ts: seq<Token>, keyword: string) {
    |ts| > 0 && ts[0].Word? && Lower(ts[0].text) == keyword
  }

  /** A column, a parameter, or a number with an optional sign. */
  function ParseTerm(ts: seq<Token>): (r: Option<(Term, seq<Token>)>)
    ensures r.Some? ==> |r.value.1| < |ts|
  {
    if |ts| == 0 then None
    else match ts[0]
      case Word(w) => if IsKeyword(w) then None else Some((Col(w), ts[1..]))
      case Num(t) => Some((Lit(false, t), ts[1..]))
      case Minus => if |ts| > 1 && ts[1].Num? then Some((Lit(true, ts[1].text), ts[2..])) else None
      case Qmark => Some((Param, ts[1..]))
      case _ => None
  }

  /** What may follow IS. */
  function ParseNullTest(t: Term, ts: seq<Token>): (r: Option<(Expr, seq<Token>)>)
    ensures r.Some? ==> |r.value.1| < |ts|
  {
    if At(ts, "null") then Some((IsNull(t, false), ts[1..]))
    else if At(ts, "not") && At(ts[1..], "null") then Some((IsNull(t, true), ts[2..]))
    else None
  }

  function ParseComparison(ts: seq<Token>): (r: Option<(Expr, seq<Token>)>)
    ensures r.Some? ==> |r.value.1| < |ts|
  {
    var l := ParseTerm(ts);
    if l.None? || |l.value.1| == 0 then None
    else if At(l.value.1, "is") then ParseNullTest(l.value.0, l.value.1[1..])
    else if !l.value.1[0].Op? then None
    else
      var right := ParseTerm(l.value.1[1..]);
      if right.None? then None
      else Some((Cmp(l.value.1[0].op, l.value.0, right.value.0), right.value.1))
  }

  function ParseAtom(ts: seq<Token>): (r: Option<(Expr, seq<Token>)>)
    ensures r.Some? ==> |r.value.1| < |ts|
    decreases |ts|, 0
  {
    if |ts| > 0 && ts[0].LPar? then
      var inner := ParseOr(ts[1..]);
      if inner.None? || |inner.value.1| == 0 || !inner.value.1[0].RPar? then None
      else Some((inner.value.0, inner.value.1[1..]))
    else ParseComparison(ts)
  }

  function ParseAnd(ts: seq<Token>): (r: Option<(Expr, seq<Token>)>)
    ensures r.Some? ==> |r.value.1| < |ts|
    decreases |ts|, 2
  {
    var first := ParseAtom(ts);
    if first.None? then None else ParseAndTail(first.value.0, first.value.1)
  }

  function ParseAndTail(acc: Expr, ts: seq<Token>): (r: Option<(Expr, seq<Token>)>)
    ensures r.Some? ==> |r.value.1| <= |ts|
    decreases |ts|, 1
  {
    if !At(ts, "and") then Some((acc, ts))
    else
      var next := ParseAtom(ts[1..]);
      if next.None? then None else ParseAndTail(And(acc, next.value.0), next.value.1)
  }

  function ParseOr(ts: seq<Token>): (r: Option<(Expr, seq<Token>)>)
    ensures r.Some? ==> |r.value.1| < |ts|
    decreases |ts|, 4
  {
    var first := ParseAnd(ts);
    if first.None? then None else ParseOrTail(first.value.0, first.value.1)
  }

  function ParseOrTail(acc: Expr, ts: seq<Token>): (r: Option<(Expr, seq<Token>)>)
    ensures r.Some? ==> |r.value.1| <= |ts|
    decreases |ts|, 3
  {
    if !At(ts, "or") then Some((acc, ts))
    else
      var next := ParseAnd(ts[1..]);
      if next.None? then None else ParseOrTail(Or(acc, next.value.0), next.value.1)
  }

  datatype Order = Order(column: string, descending: bool)

  /** What stands after WHERE in a statement. */
  datatype Query = Query(where: Expr, order: Option<Order>, limit: Option<Term>)

  /** An optional ORDER BY of one column; the direction defaults to ascending. */
  function ParseOrder(ts: seq<Token>): Option<(Option<Order>, seq<Token>)> {
    if !At(ts, "order") then Some((None, ts))
    else if !At(ts[1..], "by") || |ts| < 3 || !ts[2].Word? || IsKeyword(ts[2].text) then None
    else if At(ts[3..], "desc") then Some((Some(Order(ts[2].text, true)), ts[4..]))
    else if At(ts[3..], "asc") then Some((Some(Order(ts[2].text, false)), ts[4..]))
    else Some((Some(Order(ts[2].text, false)), ts[3..]))
  }

  function ParseLimit(ts: seq<Token>): Option<(Option<Term>, seq<Token>)> {
    if !At(ts, "limit") then Some((None, ts))
    else
      var t := ParseTerm(ts[1..]);
      if t.Some? && t.value.0.Lit? then Some((Some(t.value.0), t.value.1)) else None
  }

  /** What may follow the condition: ORDER BY, LIMIT, and nothing left over. */
  function ParseClauses(e: Expr, ts: seq<Token>): Option<Query> {
    var o := ParseOrder(ts);
    if o.None? then None
    else
      var l := ParseLimit(o.value.1);
      if l.None? || l.value.1 != [] then None else Some(Query(e, o.value.0, l.value.0))
  }

  /** A whole statement tail. */
  function ParseQuery(ts: seq<Token>): Option<Query> {
    var e := ParseOr(ts);
    if e.None? then None else ParseClauses(e.value.0, e.value.1)
  }

  function Parse(text: string): Option<Query> {
    var ts := Lex(text);
    if ts.None? then None else ParseQuery(ts.value)
  }

  // ----- meaning -----

  function Fraction(s: string): real
    requires AllDigits(s)
  {
    if s == "" then 0.0 else ((s[0] - '0') as real + Fraction(s[1..])) / 10.0
  }

  /** The number that digits with an optional fractional part denote. */
  function Mantissa(t: string): real {
    var d := DigitsLen(t);
    var whole := NatValue(t[..d]) as real;
    if d < |t| && t[d] == '.' then
      var rest := t[d + 1..];
      whole + Fraction(rest[..DigitsLen(rest)])
    else whole
  }

  function PowerOfTen(n: nat): (r: real)
    ensures r > 0.0
  {
    if n == 0 then 1.0 else 10.0 * PowerOfTen(n - 1)
  }

  /** The number that a literal denotes: its mantissa, scaled by its exponent if it has one. */
  function Decimal(t: string): real {
    var m := MantissaLen(t);
    if ExponentLen(t[m..]) == 0 then Mantissa(t)
    else if IsDigit(t[m + 1]) then Mantissa(t) * PowerOfTen(NatValue(t[m + 1..][..DigitsLen(t[m + 1..])]))
    else
      var power := PowerOfTen(NatValue(t[m + 2..][..DigitsLen(t[m + 2..])]));
      if t[m + 1] == '-' then Mantissa(t) / power else Mantissa(t) * power
  }

  /** A missing column reads as NULL here; Columns says which names a statement needs. */
  function TermValue(t: Term, env: Env, param: real): Option<real> {
    match t
    case Col(c) => if c in env then env[c] else None
    case Lit(negative, text) => Some(if negative then -Decimal(text) else Decimal(text))
    case Param => Some(param)
  }

  function Eval(e: Expr, env: Env, param: real): Truth {
    match e
    case Cmp(op, l, r) => Compare(op, TermValue(l, env, param), TermValue(r, env, param))
    case IsNull(t, negated) => if TermValue(t, env, param).None? != negated then True else False
    case And(l, r) => And3(Eval(l, env, param), Eval(r, env, param))
    case Or(l, r) => Or3(Eval(l, env, param), Eval(r, env, param))
  }

  function TermColumns(t: Term): set<string> {
    if t.Col? then {t.name} else {}
  }

  /** The column names a condition mentions. */
  function Columns(e: Expr): set<string> {
    match e
    case Cmp(_, l, r) => TermColumns(l) + TermColumns(r)
    case IsNull(t, _) => TermColumns(t)
    case And(l, r) => Columns(l) + Columns(r)
    case Or(l, r) => Columns(l) + Columns(r)
  }

  function TermParams(t: Term): nat { if t.Param? then 1 else 0 }

  /** How many parameters a condition expects to be bound. */
  function Params(e: Expr): nat {
    match e
    case Cmp(_, l, r) => TermParams(l) + TermParams(r)
    case IsNull(t, _) => TermParams(t)
    case And(l, r) => Params(l) + Params(r)
    case Or(l, r) => Params(l) + Params(r)
  }

  // ----- lexing a text piece by piece -----

  /** A text after which a word or number in front of it ends. */
  predicate Delimited(s: string) { s == "" || (!IsWordChar(s[0]) && s[0] != '.') }

  /** A bare identifier. */
  predicate IsName(w: string) {
    w != "" && IsLetter(w[0]) && forall i :: 0 <= i < |w| ==> IsWordChar(w[i])
  }

  predicate IsUnsigned(t: string) { t != "" && IsDigit(t[0]) && NumLen(t) == |t| }

  lemma {:induction false} WordLenStops(w: string, s: string)
    requires forall i :: 0 <= i < |w| ==> IsWordChar(w[i])
    requires Delimited(s)
    ensures WordLen(w + s) == |w|
  {
    if w == "" {
      assert w + s == s;
    } else {
      assert (w + s)[1..] == w[1..] + s;
      WordLenStops(w[1..], s);
    }
  }

  lemma LexWord(w: string, s: string)
    requires IsName(w) && Delimited(s)
    ensures Lex(w + s) == Then([Word(w)], Lex(s))
  {
    WordLenStops(w, s);
    assert (w + s)[0] == w[0];
    assert (w + s)[..|w|] == w && (w + s)[|w|..] == s;
  }

  lemma {:induction false} DigitsLenExtends(t: string, s: string)
    requires s == "" || !IsDigit(s[0])
    ensures DigitsLen(t) == |t| ==> DigitsLen(t + s) == |t|
    ensures DigitsLen(t) < |t| ==> DigitsLen(t + s) == DigitsLen(t)
  {
    if t == "" {
      assert t + s == s;
    } else if IsDigit(t[0]) {
      assert (t + s)[1..] == t[1..] + s;
      DigitsLenExtends(t[1..], s);
    }
  }

  lemma {:induction false} DigitsAreUnsigned(s: string)
    requires s != "" && AllDigits(s)
    ensures IsUnsigned(s) && DigitsLen(s) == |s|
  {}

  /** Digits, a point and digits make a number. */
  lemma PointIsUnsigned(a: string, b: string)
    requires a != "" && AllDigits(a) && AllDigits(b)
    ensures IsUnsigned(a + "." + b)
  {}

  lemma {:induction false} MantissaLenExtends(t: string, s: string)
    requires Delimited(s)
    ensures MantissaLen(t + s) == MantissaLen(t)
  {
    var d := DigitsLen(t);
    DigitsLenExtends(t, s);
    if d < |t| {
      assert (t + s)[d] == t[d];
      if t[d] == '.' {
        assert (t + s)[d + 1..] == t[d + 1..] + s;
        DigitsLenExtends(t[d + 1..], s);
      }
    }
  }

  /** Either the exponent is complete, or what follows cannot be a part of one. */
  lemma {:induction false} ExponentLenExtends(t: string, s: string)
    requires Delimited(s) && (ExponentLen(t) == |t| || (s != "" && s[0] == ')'))
    ensures ExponentLen(t + s) == ExponentLen(t)
  {
    hide DigitsLen;
    if t == "" {
      assert t + s == s;
    } else if IsExponentMark(t[0]) {
      assert (t + s)[0] == t[0] && (t + s)[1..] == t[1..] + s;
      DigitsLenExtends(t[1..], s);
      if |t| > 1 {
        assert (t + s)[1] == t[1] && (t + s)[2..] == t[2..] + s;
        DigitsLenExtends(t[2..], s);
      }
      if |t| > 2 {
        assert (t + s)[2] == t[2];
      }
    } else {
      assert (t + s)[0] == t[0];
    }
  }

  lemma {:induction false} NumLenExtends(t: string, s: string)
    requires Delimited(s) && (NumLen(t) == |t| || (s != "" && s[0] == ')'))
    ensures NumLen(t + s) == NumLen(t)
  {
    var m := MantissaLen(t);
    MantissaLenExtends(t, s);
    assert (t + s)[m..] == t[m..] + s;
    ExponentLenExtends(t[m..], s);
  }

  lemma LexDigits(x: string)
    requires x != "" && IsDigit(x[0]) && (NumLen(x) < |x| ==> !IsLetter(x[NumLen(x)]))
    ensures Lex(x) == Then([Num(x[..NumLen(x)])], Lex(x[NumLen(x)..]))
  {
    hide NumLen;
  }

  lemma LexNumber(t: string, s: string)
    requires IsUnsigned(t) && Delimited(s)
    ensures Lex(t + s) == Then([Num(t)], Lex(s))
  {
    hide Lex;
    NumLenExtends(t, s);
    hide NumLen;
    assert (t + s)[0] == t[0];
    assert s != "" ==> (t + s)[|t|] == s[0];
    LexDigits(t + s);
    assert (t + s)[..|t|] == t && (t + s)[|t|..] == s;
  }

  lemma LexSpace(s: string)
    ensures Lex(" " + s) == Lex(s)
  {}
}

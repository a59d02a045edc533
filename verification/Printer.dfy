/** The shape of the conditions the study compiler prints, and the proof that printing them as
    text, lexing and parsing gives back exactly that shape: every compound is parenthesised, so
    SQL's own precedence never matters. */
module Printer {
  import opened Core
  import opened Sql

  datatype Connective = ConjAnd | ConjOr

  /** One printed comparison, or two conditions joined inside parentheses. */
  datatype Printed =
    | Clause(left: string, symbol: string, right: string)
    | Group(l: Printed, join: Connective, r: Printed)

  function Keyword(c: Connective): string {
    match c
    case ConjAnd => "AND"
    case ConjOr => "OR"
  }

  function Text(p: Printed): string {
    match p
    case Clause(l, s, r) => l + " " + s + " " + r
    case Group(l, join, r) => "(" + Text(l) + " " + Keyword(join) + " " + Text(r) + ")"
  }

  predicate IsColumnText(t: string) { IsName(t) && !IsKeyword(t) }

  /** A column name, or a number with an optional minus sign. */
  predicate IsTermText(t: string) {
    IsColumnText(t) || IsUnsigned(t) || (t != "" && t[0] == '-' && IsUnsigned(t[1..]))
  }

  function TermOf(t: string): (r: Term)
    ensures !r.Param?
  {
    if IsName(t) then Col(t) else if t != "" && t[0] == '-' then Lit(true, t[1..]) else Lit(false, t)
  }

  predicate IsSymbol(s: string) { s == "<" || s == "<=" || s == ">" || s == ">=" }

  function SymbolOp(s: string): CmpOp {
    if s == "<" then Lt else if s == "<=" then Le else if s == ">" then Gt else Ge
  }

  predicate Printable(p: Printed) {
    match p
    case Clause(l, s, r) => IsTermText(l) && IsSymbol(s) && IsTermText(r)
    case Group(l, _, r) => Printable(l) && Printable(r)
  }

  function Ast(p: Printed): Expr {
    match p
    case Clause(l, s, r) => Cmp(SymbolOp(s), TermOf(l), TermOf(r))
    case Group(l, join, r) => if join.ConjAnd? then And(Ast(l), Ast(r)) else Or(Ast(l), Ast(r))
  }

  ghost function TermTokens(t: Term): seq<Token>
    requires !t.Param?
  {
    match t
    case Col(c) => [Word(c)]
    case Lit(negative, text) => if negative then [Minus, Num(text)] else [Num(text)]
  }

  ghost function Tokens(p: Printed): seq<Token> {
    match p
    case Clause(l, s, r) => TermTokens(TermOf(l)) + [Op(SymbolOp(s))] + TermTokens(TermOf(r))
    case Group(l, join, r) => [LPar] + Tokens(l) + [Word(Keyword(join))] + Tokens(r) + [RPar]
  }

  // ----- text to tokens -----

  lemma ThenThen(a: seq<Token>, b: seq<Token>, r: Option<seq<Token>>)
    ensures Then(a, Then(b, r)) == Then(a + b, r)
  {
    if r.Some? {
      assert a + (b + r.value) == (a + b) + r.value;
    }
  }

  lemma LexMinus(s: string)
    requires s != "" && s[0] != '-'
    ensures Lex("-" + s) == Then([Minus], Lex(s))
  {}

  lemma LexTerm(t: string, s: string)
    requires IsTermText(t) && Delimited(s)
    ensures Lex(t + s) == Then(TermTokens(TermOf(t)), Lex(s))
  {
    if IsName(t) {
      LexWord(t, s);
    } else if IsUnsigned(t) {
      LexNumber(t, s);
    } else {
      LexNegative(t, s);
    }
  }

  lemma LexNegative(t: string, s: string)
    requires t != "" && t[0] == '-' && IsUnsigned(t[1..]) && Delimited(s)
    ensures Lex(t + s) == Then([Minus, Num(t[1..])], Lex(s))
  {
    hide Lex;
    var u := t[1..];
    assert t + s == "-" + (u + s);
    LexMinus(u + s);
    LexNumber(u, s);
    ThenThen([Minus], [Num(u)], Lex(s));
    assert [Minus] + [Num(u)] == [Minus, Num(u)];
  }

  lemma LexSymbol(y: string, s: string)
    requires IsSymbol(y) && s != "" && s[0] == ' '
    ensures Lex(y + s) == Then([Op(SymbolOp(y))], Lex(s))
  {}

  lemma LexClause(l: string, y: string, r: string, s: string)
    requires IsTermText(l) && IsSymbol(y) && IsTermText(r) && Delimited(s)
    ensures Lex(Text(Clause(l, y, r)) + s) == Then(Tokens(Clause(l, y, r)), Lex(s))
  {
    hide Lex, NumLen, IsKeyword;
    var s1 := " " + (r + s);
    var s2 := " " + (y + s1);
    assert Text(Clause(l, y, r)) + s == l + s2;
    LexTerm(l, s2);
    LexSpace(y + s1);
    LexSymbol(y, s1);
    LexSpace(r + s);
    LexTerm(r, s);
    ThenThen([Op(SymbolOp(y))], TermTokens(TermOf(r)), Lex(s));
    ThenThen(TermTokens(TermOf(l)), [Op(SymbolOp(y))] + TermTokens(TermOf(r)), Lex(s));
    assert TermTokens(TermOf(l)) + ([Op(SymbolOp(y))] + TermTokens(TermOf(r))) == Tokens(Clause(l, y, r));
  }

  lemma LexParenthesis(s: string)
    ensures Lex("(" + s) == Then([LPar], Lex(s))
    ensures Lex(")" + s) == Then([RPar], Lex(s))
  {}

  /** A connective between spaces, in front of a text whose tokens are known. */
  lemma LexConnective(join: Connective, more: string, ts: seq<Token>, end: Option<seq<Token>>)
    requires Lex(more) == Then(ts, end)
    ensures Lex(" " + Keyword(join) + " " + more) == Then([Word(Keyword(join))] + ts, end)
  {
    var k := Keyword(join);
    var s2 := " " + more;
    assert " " + k + " " + more == " " + (k + s2);
    LexSpace(k + s2);
    LexWord(k, s2);
    LexSpace(more);
    ThenThen([Word(k)], ts, end);
  }

  /** The tokens of a printed condition do not depend on what follows it. */
  lemma {:induction false} LexPrinted(p: Printed, s: string)
    requires Printable(p) && Delimited(s)
    ensures Lex(Text(p) + s) == Then(Tokens(p), Lex(s))
  {
    match p
    case Clause(l, y, r) => LexClause(l, y, r, s);
    case Group(l, join, r) =>
      var closed := ")" + s;
      LexPrinted(r, closed);
      LexParenthesis(s);
      ThenThen(Tokens(r), [RPar], Lex(s));
      var joined := " " + Keyword(join) + " " + (Text(r) + closed);
      LexConnective(join, Text(r) + closed, Tokens(r) + [RPar], Lex(s));
      LexPrinted(l, joined);
      LexGroup(p, s, joined);
  }

  lemma LexGroup(p: Printed, s: string, joined: string)
    requires p.Group? && joined == " " + Keyword(p.join) + " " + (Text(p.r) + (")" + s))
    requires Lex(Text(p.l) + joined) == Then(Tokens(p.l), Lex(joined))
    requires Lex(joined) == Then([Word(Keyword(p.join))] + (Tokens(p.r) + [RPar]), Lex(s))
    ensures Lex(Text(p) + s) == Then(Tokens(p), Lex(s))
  {
    hide Lex;
    var inner := [Word(Keyword(p.join))] + (Tokens(p.r) + [RPar]);
    GroupText(Text(p.l), Keyword(p.join), Text(p.r), s);
    assert Text(p) + s == "(" + (Text(p.l) + joined);
    LexParenthesis(Text(p.l) + joined);
    ThenThen(Tokens(p.l), inner, Lex(s));
    ThenThen([LPar], Tokens(p.l) + inner, Lex(s));
    assert [LPar] + (Tokens(p.l) + inner) == Tokens(p);
  }

  lemma GroupText(l: string, k: string, r: string, s: string)
    ensures "(" + l + " " + k + " " + r + ")" + s == "(" + (l + (" " + k + " " + (r + (")" + s))))
  {}

  // ----- tokens to tree -----

  lemma ParseTermTokens(t: string, rest: seq<Token>)
    requires IsTermText(t)
    ensures ParseTerm(TermTokens(TermOf(t)) + rest) == Some((TermOf(t), rest))
  {}

  /** Inside parentheses, an atom, a connective and an atom up to the closing parenthesis. */
  lemma ParseJoined(ts: seq<Token>, l: Expr, join: Connective, r: Expr, more: seq<Token>, close: seq<Token>)
    requires ParseAtom(ts) == Some((l, [Word(Keyword(join))] + more))
    requires ParseAtom(more) == Some((r, close))
    requires !At(close, "and") && !At(close, "or")
    ensures ParseOr(ts) == Some((if join.ConjAnd? then And(l, r) else Or(l, r), close))
  {
    LowerKeyword(join);
    var joined := [Word(Keyword(join))] + more;
    assert joined[1..] == more;
    if join.ConjAnd? {
      assert ParseAndTail(And(l, r), close) == Some((And(l, r), close));
      assert ParseAndTail(l, joined) == Some((And(l, r), close));
      assert ParseOrTail(And(l, r), close) == Some((And(l, r), close));
    } else {
      assert ParseAndTail(l, joined) == Some((l, joined));
      assert ParseAndTail(r, close) == Some((r, close));
      assert ParseAnd(more) == Some((r, close));
      assert ParseOrTail(Or(l, r), close) == Some((Or(l, r), close));
    }
  }

  /** A printed condition is one atom of the grammar, whatever follows it. */
  lemma {:induction false} ParsePrinted(p: Printed, rest: seq<Token>)
    requires Printable(p)
    ensures ParseAtom(Tokens(p) + rest) == Some((Ast(p), rest))
  {
    hide ParseAtom, ParseOr, At;
    match p
    case Clause(l, y, r) => ParseClause(l, y, r, rest);
    case Group(l, join, r) =>
      var close := [RPar] + rest;
      var inner := Tokens(l) + ([Word(Keyword(join))] + (Tokens(r) + close));
      GroupTokens(l, join, r, rest);
      ParsePrinted(l, [Word(Keyword(join))] + (Tokens(r) + close));
      ParsePrinted(r, close);
      hide Tokens, Printable;
      assert !At(close, "and") && !At(close, "or") by { CloseIsNoKeyword(rest); }
      ParseJoined(inner, Ast(l), join, Ast(r), Tokens(r) + close, close);
      ParseParenthesised(inner, Ast(p), rest);
  }

  lemma CloseIsNoKeyword(rest: seq<Token>)
    ensures !At([RPar] + rest, "and") && !At([RPar] + rest, "or")
  {}

  lemma GroupTokens(l: Printed, join: Connective, r: Printed, rest: seq<Token>)
    ensures Tokens(Group(l, join, r)) + rest
         == [LPar] + (Tokens(l) + ([Word(Keyword(join))] + (Tokens(r) + ([RPar] + rest))))
  {
    var a, w, b := Tokens(l), [Word(Keyword(join))], Tokens(r);
    assert Tokens(Group(l, join, r)) == [LPar] + a + w + b + [RPar];
    hide Tokens;
  }

  lemma ParseParenthesised(inner: seq<Token>, e: Expr, rest: seq<Token>)
    requires ParseOr(inner) == Some((e, [RPar] + rest))
    ensures ParseAtom([LPar] + inner) == Some((e, rest))
  {
    assert ([LPar] + inner)[1..] == inner && ([RPar] + rest)[1..] == rest;
    hide ParseOr;
  }

  /** A term, a comparison sign and a term are one comparison. */
  lemma ParseCmp(ts: seq<Token>, l: Term, op: CmpOp, right: seq<Token>, r: Term, rest: seq<Token>)
    requires ParseTerm(ts) == Some((l, [Op(op)] + right)) && ParseTerm(right) == Some((r, rest))
    ensures ParseAtom(ts) == Some((Cmp(op, l, r), rest))
  {
    assert ts[0] != LPar;
    var after := [Op(op)] + right;
    assert after[1..] == right;
    hide ParseTerm, ParseNullTest;
  }

  lemma ClauseTokens(l: string, y: string, r: string, rest: seq<Token>)
    ensures Tokens(Clause(l, y, r)) + rest
         == TermTokens(TermOf(l)) + ([Op(SymbolOp(y))] + (TermTokens(TermOf(r)) + rest))
  {
    hide TermTokens, TermOf, SymbolOp;
  }

  lemma ParseClause(l: string, y: string, r: string, rest: seq<Token>)
    requires Printable(Clause(l, y, r))
    ensures ParseAtom(Tokens(Clause(l, y, r)) + rest) == Some((Ast(Clause(l, y, r)), rest))
  {
    hide ParseAtom, ParseTerm, Tokens, TermTokens, TermOf, IsTermText, SymbolOp;
    var right := TermTokens(TermOf(r)) + rest;
    var after := [Op(SymbolOp(y))] + right;
    ClauseTokens(l, y, r, rest);
    ParseTermTokens(l, after);
    ParseTermTokens(r, rest);
    ParseCmp(TermTokens(TermOf(l)) + after, TermOf(l), SymbolOp(y), right, TermOf(r), rest);
  }

  lemma LowerKeyword(join: Connective)
    ensures Lower(Keyword(join)) == if join.ConjAnd? then "and" else "or"
  {}

  /** A printed condition followed by anything but AND or OR is the whole condition. */
  lemma ParsePrintedCondition(p: Printed, rest: seq<Token>)
    requires Printable(p) && !At(rest, "and") && !At(rest, "or")
    ensures ParseOr(Tokens(p) + rest) == Some((Ast(p), rest))
  {
    ParsePrinted(p, rest);
    assert ParseAndTail(Ast(p), rest) == Some((Ast(p), rest));
    assert ParseOrTail(Ast(p), rest) == Some((Ast(p), rest));
  }

  // ----- printing loses nothing -----

  lemma TermOfInjective(a: string, b: string)
    requires IsTermText(a) && IsTermText(b) && TermOf(a) == TermOf(b)
    ensures a == b
  {}

  lemma {:induction false} AstInjective(p: Printed, q: Printed)
    requires Printable(p) && Printable(q) && Ast(p) == Ast(q)
    ensures p == q
  {
    match p
    case Clause(l, y, r) =>
      TermOfInjective(l, q.left);
      TermOfInjective(r, q.right);
    case Group(l, join, r) =>
      AstInjective(l, q.l);
      AstInjective(r, q.r);
  }

  /** The characters that numbers are made of. */
  ghost predicate Numeric(t: string) {
    forall i :: 0 <= i < |t| ==> IsDigit(t[i]) || t[i] in ".eE+-"
  }

  lemma {:induction false} NumberIsNumeric(t: string)
    requires NumLen(t) == |t|
    ensures Numeric(t)
  {
    var m := MantissaLen(t);
    MantissaIsNumeric(t);
    ExponentIsNumeric(t[m..]);
    assert t == t[..m] + t[m..];
  }

  lemma {:induction false} MantissaIsNumeric(t: string)
    ensures Numeric(t[..MantissaLen(t)])
  {
    var d := DigitsLen(t);
    if d < |t| && t[d] == '.' {
      var rest := t[d + 1..];
      assert t[..MantissaLen(t)] == t[..d] + ['.'] + rest[..DigitsLen(rest)];
    }
  }

  lemma {:induction false} ExponentIsNumeric(x: string)
    requires ExponentLen(x) == |x|
    ensures Numeric(x)
  {
    if x != "" {
      if IsDigit(x[1]) {
        assert x == [x[0]] + x[1..];
      } else {
        assert x == [x[0]] + [x[1]] + x[2..];
      }
    }
  }

  /** A column or a number holds nothing that would be trimmed. */
  lemma TermHasNoSpace(t: string)
    requires IsTermText(t)
    ensures forall i :: 0 <= i < |t| ==> !IsTrimmed(t[i])
  {
    hide NumLen;
    if !IsName(t) {
      if IsUnsigned(t) {
        NumberIsNumeric(t);
      } else {
        NumberIsNumeric(t[1..]);
        assert t == [t[0]] + t[1..];
      }
    }
  }

  lemma {:induction false} TextHasNoNewline(p: Printed)
    requires Printable(p)
    ensures '\n' !in Text(p)
  {
    match p
    case Clause(l, y, r) =>
      TermHasNoSpace(l);
      TermHasNoSpace(r);
      assert '\n' !in y;
    case Group(l, join, r) =>
      TextHasNoNewline(l);
      TextHasNoNewline(r);
      assert '\n' !in Keyword(join);
  }
}

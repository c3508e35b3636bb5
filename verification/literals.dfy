/** The productions that only validate literal syntax: literal, quoted_lit,
    logical_lit, any_other_token, more_tokens, and param_list. None of them writes
    code, and each of them consumes input whenever it recurses, so they are total
    functions whose termination is proved on the remaining input. */
module Literals {
  import opened Tokens
  import opened Grammar
  import opened CodeGen
  import opened ParseState

  /** any_other_token: one token of quoted data; a `(` opens a nested list read by
      more_tokens up to its `)`, a `'` quotes the next datum. Away from end of input
      it always consumes at least one token. */
  function AnyOtherToken(toks: seq<Token>, st: State): (r: State)
    ensures Extends(st, r) && r.out == st.out
    ensures In(Cat(toks, r), AnyOtherTokenFollow)
    ensures Cat(toks, st) != Eof ==> st.pos < r.pos
    decreases Remaining(toks, st.pos), 0
  {
    var s1 := Guard(toks, st, AnyOtherTokenFirst);
    var s2 :=
      if Cat(toks, s1) == LParen then
        Expect(toks, MoreTokens(toks, Next(toks, s1)), RParen)
      else if Cat(toks, s1) == SQuote then
        AnyOtherToken(toks, Next(toks, s1))
      else if Quotable(Cat(toks, s1)) then
        Next(toks, s1)
      else
        Report(s1, Unexpected(Lexeme(toks, s1)));
    Guard(toks, s2, AnyOtherTokenFollow)
  }

  /** more_tokens: quoted data up to (not including) the closing `)`. */
  function MoreTokens(toks: seq<Token>, st: State): (r: State)
    ensures Extends(st, r) && r.out == st.out
    ensures In(Cat(toks, r), MoreTokensFollow)
    decreases Remaining(toks, st.pos), 1
  {
    var s1 := Guard(toks, st, MoreTokensFirst);
    var s2 :=
      if Quotable(Cat(toks, s1)) then
        MoreTokens(toks, AnyOtherToken(toks, s1))
      else if Cat(toks, s1) == RParen then
        s1
      else
        Report(s1, Unexpected(Lexeme(toks, s1)));
    Guard(toks, s2, MoreTokensFollow)
  }

  /** quoted_lit: the datum after a `'`. */
  function QuotedLit(toks: seq<Token>, st: State): (r: State)
    ensures Extends(st, r) && r.out == st.out
    ensures In(Cat(toks, r), QuotedLitFollow)
  {
    var s1 := Guard(toks, st, QuotedLitFirst);
    var s2 :=
      if Quotable(Cat(toks, s1)) then AnyOtherToken(toks, s1)
      else Report(s1, Unexpected(Lexeme(toks, s1)));
    Guard(toks, s2, QuotedLitFollow)
  }

  /** logical_lit: `#t` or `#f`. */
  function LogicalLit(toks: seq<Token>, st: State): (r: State)
    ensures Extends(st, r) && r.out == st.out
    ensures In(Cat(toks, r), LogicalLitFollow)
    ensures Cat(toks, st) in {TrueLit, FalseLit} ==> r.pos > st.pos
  {
    var s1 := Guard(toks, st, LogicalLitFirst);
    var s2 :=
      if Cat(toks, s1) == TrueLit || Cat(toks, s1) == FalseLit then Next(toks, s1)
      else Report(s1, Unexpected(Lexeme(toks, s1)));
    Guard(toks, s2, LogicalLitFollow)
  }

  /** literal: a number, a string, a quoted datum or a boolean. */
  function Literal(toks: seq<Token>, st: State): (r: State)
    ensures Extends(st, r) && r.out == st.out
    ensures In(Cat(toks, r), LiteralFollow)
    ensures Cat(toks, st) in {NumLit, StrLit, TrueLit, FalseLit, SQuote} ==> r.pos > st.pos
  {
    var s1 := Guard(toks, st, LiteralFirst);
    var s2 :=
      if Cat(toks, s1) == NumLit || Cat(toks, s1) == StrLit then Next(toks, s1)
      else if Cat(toks, s1) == SQuote then QuotedLit(toks, Next(toks, s1))
      else if Cat(toks, s1) == TrueLit || Cat(toks, s1) == FalseLit then LogicalLit(toks, s1)
      else Report(s1, Unexpected(Lexeme(toks, s1)));
    Guard(toks, s2, LiteralFollow)
  }

  /** param_list: identifiers up to (not including) the closing `)`. */
  function ParamList(toks: seq<Token>, st: State): (r: State)
    ensures Extends(st, r) && r.out == st.out
    ensures In(Cat(toks, r), ParamListFollow)
    decreases Remaining(toks, st.pos)
  {
    var s1 := Guard(toks, st, ParamListFirst);
    var s2 :=
      if Cat(toks, s1) == Ident then ParamList(toks, Next(toks, s1))
      else if Cat(toks, s1) == RParen then s1
      else Report(s1, Unexpected(Lexeme(toks, s1)));
    Guard(toks, s2, ParamListFollow)
  }
}

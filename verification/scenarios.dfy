/** Runs of the translator over particular shapes of input, each stated for every
    token stream of that shape: one statement of `display` or `newline`, a turn of
    stmt's loop, and a source that holds a single define with nothing after it. */
module Scenarios {
  import opened Tokens
  import opened Grammar
  import opened CodeGen
  import opened ParseState
  import opened Emission
  import opened Productions

  /** `display` applied to a number or string literal, in front of `)`: the literal is
      written as one depth-1 output statement, the two tokens are consumed and nothing
      is reported. */
  lemma DisplayLiteral(toks: seq<Token>, st: State, fuel: nat)
    requires fuel >= 1 && Cat(toks, st) == Category.Display
    requires Peek(toks, st.pos + 1).cat in {NumLit, StrLit}
    requires In(Peek(toks, st.pos + 2).cat, ActionFollow)
    ensures Action(toks, st, fuel)
         == Done(State(st.pos + 2, st.out + [Fragment(1, LiteralStmt(Peek(toks, st.pos + 1).lexeme))], st.diags))
  {
    assert Guard(toks, st, ActionFirst) == st;
    var arg := Next(toks, st);
    var shown := Next(toks, Emit(arg, 1, LiteralStmt(Lexeme(toks, arg))));
    assert DisplayArg(toks, arg) == shown;
    assert Alternative(toks, st, DisplayRule, fuel - 1) == Done(shown);
  }

  /** `newline` in front of `)`: one depth-1 end-of-line statement, the keyword
      consumed, nothing reported. */
  lemma NewlineAction(toks: seq<Token>, st: State, fuel: nat)
    requires fuel >= 1 && Cat(toks, st) == Newline
    requires In(Peek(toks, st.pos + 1).cat, ActionFollow)
    ensures Action(toks, st, fuel)
         == Done(State(st.pos + 1, st.out + [Fragment(1, NewlineStmtText)], st.diags))
  {
    assert Guard(toks, st, ActionFirst) == st;
    assert Alternative(toks, st, NewlineRule, fuel - 1) == Done(NewlineBranch(toks, st));
  }

  /** One turn of stmt's loop: `(` is consumed, action runs, and when action stops at
      `)` that `)` is consumed and the loop goes on from the token after it. */
  lemma LoopTurn(toks: seq<Token>, st: State, fuel: nat)
    requires fuel >= 1 && Cat(toks, st) == LParen
    ensures
      var a := Action(toks, Next(toks, st), fuel - 1);
      a.Done? && Cat(toks, a.st) == RParen ==>
        StmtLoop(toks, st, fuel) == StmtLoop(toks, Next(toks, a.st), fuel - 1)
  {
  }

  /** The statement `( display <literal> )` followed by anything but `(`: stmt's loop
      writes the literal's output statement and stops right after the `)`, reporting
      nothing. */
  lemma DisplayStatement(toks: seq<Token>, st: State, fuel: nat)
    requires fuel >= 3 && Cat(toks, st) == LParen
    requires Peek(toks, st.pos + 1).cat == Category.Display
    requires Peek(toks, st.pos + 2).cat in {NumLit, StrLit}
    requires Peek(toks, st.pos + 3).cat == RParen && Peek(toks, st.pos + 4).cat != LParen
    ensures StmtLoop(toks, st, fuel)
         == Done(State(st.pos + 4, st.out + [Fragment(1, LiteralStmt(Peek(toks, st.pos + 2).lexeme))], st.diags))
  {
    var inner := Next(toks, st);
    DisplayLiteral(toks, inner, fuel - 1);
    var a := State(st.pos + 3, st.out + [Fragment(1, LiteralStmt(Peek(toks, st.pos + 2).lexeme))], st.diags);
    LoopTurn(toks, st, fuel);
    assert Next(toks, a) == a.(pos := st.pos + 4);
  }

  /** more_defines at end of input reports the end of input as unexpected once. */
  lemma MoreDefinesAtEnd(toks: seq<Token>, st: State, fuel: nat)
    requires fuel >= 1 && st.pos >= |toks|
    ensures MoreDefines(toks, st, fuel) == Done(Report(st, Unexpected("")))
  {
    assert Guard(toks, st, MoreDefinesFirst) == st;
  }

  /** program on `(` define ...: after define it expects another `(`, runs
      more_defines, then expects end of input and runs its exit guard. */
  lemma ProgramOfDefine(toks: seq<Token>, st: State, fuel: nat, a: State, b: State)
    requires fuel >= 1 && Cat(toks, st) == LParen
    ensures
      && Productions.Define(toks, Next(toks, st), fuel - 1) == Done(a)
      && MoreDefines(toks, Expect(toks, a, LParen), fuel - 1) == Done(b)
      ==> Program(toks, st, fuel) == Done(Guard(toks, Expect(toks, b, Eof), ProgramFollow))
  {
    assert Guard(toks, st, ProgramFirst) == st;
  }

  /** The steps program takes once the input is used up. */
  lemma AtEnd(toks: seq<Token>, st: State)
    requires st.pos >= |toks|
    ensures Expect(toks, st, LParen) == Report(st, Expected(LParen))
    ensures Expect(toks, st, Eof) == st
    ensures Guard(toks, st, ProgramFollow) == st
  {
  }

  /** A source holding one define and nothing after it: program keeps what define
      wrote and reported, then adds two diagnostics, a missing `(` and an unexpected
      end of input, because the grammar asks for `(` and more_defines after every
      define. */
  lemma LoneDefine(toks: seq<Token>, st: State, fuel: nat, a: State)
    requires fuel >= 2 && Cat(toks, st) == LParen
    requires Productions.Define(toks, Next(toks, st), fuel - 1) == Done(a) && a.pos >= |toks|
    ensures
      var r := Program(toks, st, fuel);
      && r.Done? && r.st.pos == a.pos && r.st.out == a.out
      && r.st.diags == a.diags + [Expected(LParen), Unexpected("")]
  {
    AtEnd(toks, a);
    var b := Report(a, Expected(LParen));
    MoreDefinesAtEnd(toks, b, fuel - 1);
    var c := Report(b, Unexpected(""));
    AtEnd(toks, c);
    ProgramOfDefine(toks, st, fuel, a, c);
  }
}

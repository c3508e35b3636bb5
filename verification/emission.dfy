/** The two emitting branches of action: `display` and `newline`. */
module Emission {
  import opened Tokens
  import opened CodeGen
  import opened ParseState

  /** The words of a list joined by single spaces. */
  function JoinSpaces(words: seq<string>): (s: string)
    ensures |words| == 1 ==> s == words[0]
  {
    if |words| == 0 then ""
    else if |words| == 1 then words[0]
    else JoinSpaces(words[..|words| - 1]) + " " + words[|words| - 1]
  }

  /** The first position from `p` on whose token is `)` or end of input. */
  ghost predicate IsListEnd(toks: seq<Token>, p: nat, e: nat)
  {
    && p <= e
    && Peek(toks, e).cat in {RParen, Eof}
    && forall q :: p <= q < e ==> Peek(toks, q).cat !in {RParen, Eof}
  }

  /** The display loop over a quoted list: collect the lexemes of the tokens from `p`
      up to the first `)` or end of input, without balancing nested parentheses.
      Returns the lexemes and the position the loop stops at. */
  function ScanList(toks: seq<Token>, p: nat): (r: (seq<string>, nat))
    ensures IsListEnd(toks, p, r.1)
    ensures |r.0| == r.1 - p
    ensures r.0 == Lexemes(toks, p, r.1)
    decreases Remaining(toks, p)
  {
    if Peek(toks, p).cat in {RParen, Eof} then ([], p)
    else
      var rest := ScanList(toks, p + 1);
      assert [toks[p].lexeme] + rest.0 == Lexemes(toks, p, rest.1);
      ([toks[p].lexeme] + rest.0, rest.1)
  }

  /** The list literal text the display loop builds: `"(` + lexemes + `)"`. */
  function ListText(words: seq<string>): string
  {
    "\"(" + JoinSpaces(words) + ")\""
  }

  /** The display loop as the source writes it: a separator before every element but
      the first, tracked with a first-element flag. */
  method BuildListText(words: seq<string>) returns (s: string)
    ensures s == ListText(words)
  {
    s := "\"(";
    var first := true;
    var i := 0;
    while i < |words|
      invariant 0 <= i <= |words|
      invariant first <==> i == 0
      invariant s == "\"(" + JoinSpaces(words[..i])
    {
      if !first {
        s := s + " ";
      }
      first := false;
      assert words[..i + 1][..i] == words[..i];
      s := s + words[i];
      i := i + 1;
    }
    assert words[..i] == words;
    s := s + ")\"";
  }

  /** The statement display writes for a quoted list, a quoted atom and a literal. */
  function ListStmt(words: seq<string>): string
  {
    "cout << Object(" + ListText(words) + ");\n"
  }

  function QuotedAtomStmt(lexeme: string): string
  {
    "cout << Object('" + lexeme + ");\n"
  }

  function LiteralStmt(lexeme: string): string
  {
    "cout << " + lexeme + ";\n"
  }

  const NewlineStmtText := "cout << endl;\n"

  /** A fragment display or newline writes: one output statement at depth 1. */
  ghost predicate StmtFragment(f: Fragment)
  {
    && f.tabs == 1
    && (|| f.text == NewlineStmtText
        || (exists words :: f.text == ListStmt(words))
        || (exists lexeme :: f.text == QuotedAtomStmt(lexeme))
        || (exists lexeme :: f.text == LiteralStmt(lexeme)))
  }

  /** `st'` can follow `st`, and every fragment written in between is an output
      statement: the only code statements ever write. */
  ghost predicate WritesStmts(st: State, st': State)
  {
    && Extends(st, st')
    && forall i :: |st.out| <= i < |st'.out| ==> StmtFragment(st'.out[i])
  }

  lemma WritesStmtsTransitive(a: State, b: State, c: State)
    requires WritesStmts(a, b) && WritesStmts(b, c)
    ensures WritesStmts(a, c)
  {
  }

  /** The display branch, entered with the `display` keyword already consumed. A
      quoted list, a quoted atom, or a number or string literal each write one
      depth-1 statement; any other argument writes nothing and is left for the caller
      (DisplayArgWrites states which). The branch itself never reports a diagnostic. */
  function DisplayArg(toks: seq<Token>, st: State): (r: State)
    ensures WritesStmts(st, r) && r.diags == st.diags
    ensures |r.out| <= |st.out| + 1
  {
    if Cat(toks, st) == SQuote then
      var s1 := Next(toks, st);
      if Cat(toks, s1) == LParen then
        var s2 := Next(toks, s1);
        var scan := ScanList(toks, s2.pos);
        var s3 := Emit(s2.(pos := scan.1), 1, ListStmt(scan.0));
        assert StmtFragment(Fragment(1, ListStmt(scan.0)));
        if Cat(toks, s3) == RParen then Next(toks, s3) else s3
      else
        assert StmtFragment(Fragment(1, QuotedAtomStmt(Lexeme(toks, s1))));
        Next(toks, Emit(s1, 1, QuotedAtomStmt(Lexeme(toks, s1))))
    else if Cat(toks, st) == NumLit || Cat(toks, st) == StrLit then
      assert StmtFragment(Fragment(1, LiteralStmt(Lexeme(toks, st))));
      Next(toks, Emit(st, 1, LiteralStmt(Lexeme(toks, st))))
    else
      st
  }

  /** What the display branch writes and where it leaves the cursor, by argument: a
      quoted list is printed from its lexemes up to the first `)` or end of input and
      that `)` is consumed; a quoted atom and a literal consume themselves; any other
      argument leaves the state as it was. */
  lemma DisplayArgWrites(toks: seq<Token>, st: State)
    ensures
      var r := DisplayArg(toks, st);
      var p := st.pos;
      if Peek(toks, p).cat == SQuote && Peek(toks, p + 1).cat == LParen then
        exists e: nat ::
          && IsListEnd(toks, p + 2, e)
          && r.out == st.out + [Fragment(1, ListStmt(Lexemes(toks, p + 2, e)))]
          && r.pos == (if Peek(toks, e).cat == RParen then e + 1 else e)
      else if Peek(toks, p).cat == SQuote then
        && r.out == st.out + [Fragment(1, QuotedAtomStmt(Peek(toks, p + 1).lexeme))]
        && r.pos == Advance(toks, p + 1)
      else if Peek(toks, p).cat in {NumLit, StrLit} then
        r.out == st.out + [Fragment(1, LiteralStmt(Peek(toks, p).lexeme))] && r.pos == p + 1
      else
        r == st
  {
    if Cat(toks, st) == SQuote && Peek(toks, st.pos + 1).cat == LParen {
      var scan := ScanList(toks, Next(toks, Next(toks, st)).pos);
      assert Next(toks, Next(toks, st)).pos == st.pos + 2;
      assert IsListEnd(toks, st.pos + 2, scan.1);
    }
  }

  /** The lexemes of the tokens at positions `a` up to `b`. */
  function Lexemes(toks: seq<Token>, a: nat, b: nat): (ls: seq<string>)
    requires a <= b
    ensures |ls| == b - a
    ensures forall i :: 0 <= i < b - a ==> ls[i] == Peek(toks, a + i).lexeme
  {
    seq(b - a, i requires 0 <= i < b - a => Peek(toks, a + i).lexeme)
  }

  /** The newline branch, entered at the `newline` keyword: it writes exactly one
      depth-1 end-of-line statement and consumes exactly that keyword. */
  function NewlineBranch(toks: seq<Token>, st: State): (r: State)
    requires Cat(toks, st) == Newline
    ensures r.out == st.out + [Fragment(1, NewlineStmtText)]
    ensures r.pos == st.pos + 1 && r.diags == st.diags
    ensures WritesStmts(st, r)
  {
    Next(toks, Emit(st, 1, NewlineStmtText))
  }
}

/** The recursive-descent translator: program, more_defines, define, stmt_list, stmt,
    else_part, stmt_pair, stmt_pair_body, assign_pair, more_assigns and action.

    Every production runs an entry guard on its FIRST set, picks one alternative by
    the lookahead's category, and runs an exit guard on its FOLLOW set. These
    productions are mutually recursive and stmt_list can recurse without consuming
    input, so each takes a `fuel` budget, spends one unit per call, and yields
    `OutOfFuel` when the budget runs out; the loops of define and stmt are recursive
    helpers that take fuel as well. */
module Productions {
  import opened Tokens
  import opened Grammar
  import opened CodeGen
  import opened ParseState
  import opened Emission

  /** The right-hand sides of action, keyed by the keyword or operator that selects
      them. */
  datatype ActionRule =
    | IfRule        // stmt stmt else_part
    | CondRule      // '(' stmt_pair_body
    | LetRule       // '(' more_assigns ')' stmt stmt_list
    | OneStmt       // stmt
    | TwoStmts      // stmt stmt
    | StmtThenList  // stmt stmt_list
    | ListRule      // stmt_list
    | DisplayRule   // the emitting display branch
    | NewlineRule   // the emitting newline branch
    | ReadRule      // nothing further
    | NoRule        // no alternative: reported as unexpected

  /** The category-to-alternative table of action. */
  function RuleFor(c: Category): ActionRule
  {
    match c
    case If => IfRule
    case Cond => CondRule
    case Let => LetRule
    case ListOp1 | Not | NumberP | ListP | ZeroP | NullP | EofP | Round => OneStmt
    case ListOp2 | Modulo => TwoStmts
    case Minus | Div => StmtThenList
    case Plus | Mult | And | Or | EqualTo | Gt | Lt | Gte | Lte | Ident => ListRule
    case Display => DisplayRule
    case Newline => NewlineRule
    case Read => ReadRule
    case _ => NoRule
  }

  /** The text define writes when it opens the function `name`, and when it closes it. */
  function FunctionHeader(name: string): string
  {
    "int " + name + "() {\n"
  }

  const FunctionClose := "}\n\n"

  /** `define`, `(` and an identifier, in that order, starting at `p`. */
  predicate HasHeader(toks: seq<Token>, p: nat)
  {
    && Peek(toks, p).cat == Category.Define
    && Peek(toks, p + 1).cat == LParen
    && Peek(toks, p + 2).cat == Ident
  }

  /** program: '(' define '(' more_defines EOF. */
  function Program(toks: seq<Token>, st: State, fuel: nat): (r: Outcome)
    ensures r.Done? ==> Extends(st, r.st) && In(Cat(toks, r.st), ProgramFollow)
    decreases fuel, 0
  {
    if fuel == 0 then OutOfFuel
    else
      var s1 := Guard(toks, st, ProgramFirst);
      var s2 :-
        if Cat(toks, s1) == LParen then
          var a :- Define(toks, Next(toks, s1), fuel - 1);
          var b :- MoreDefines(toks, Expect(toks, a, LParen), fuel - 1);
          Done(Expect(toks, b, Eof))
        else
          Done(Report(s1, Unexpected(Lexeme(toks, s1))));
      Done(Guard(toks, s2, ProgramFollow))
  }

  /** more_defines: define '(' more_defines, or identifier stmt_list ')'. */
  function MoreDefines(toks: seq<Token>, st: State, fuel: nat): (r: Outcome)
    ensures r.Done? ==> Extends(st, r.st) && In(Cat(toks, r.st), MoreDefinesFollow)
    decreases fuel, 0
  {
    if fuel == 0 then OutOfFuel
    else
      var s1 := Guard(toks, st, MoreDefinesFirst);
      var s2 :-
        if Cat(toks, s1) == Category.Define then
          var a :- Define(toks, s1, fuel - 1);
          MoreDefines(toks, Expect(toks, a, LParen), fuel - 1)
        else if Cat(toks, s1) == Ident then
          var a :- StmtList(toks, Next(toks, s1), fuel - 1);
          Done(Expect(toks, a, RParen))
        else
          Done(Report(s1, Unexpected(Lexeme(toks, s1))));
      Done(Guard(toks, s2, MoreDefinesFollow))
  }

  /** define: `define ( name )` opens the C++ function `name`, then the body
      statements are read up to `)` or end of input and the function is closed.
      A missing `(`, name or `)` is reported once and nothing further is parsed. */
  function Define(toks: seq<Token>, st: State, fuel: nat): (r: Outcome)
    ensures r.Done? ==> Extends(st, r.st) && In(Cat(toks, r.st), DefineFollow)
    decreases fuel, 0
  {
    if fuel == 0 then OutOfFuel
    else
      var s1 := Guard(toks, st, DefineFirst);
      var s2 :-
        if Cat(toks, s1) != Category.Define then
          Done(Report(s1, Unexpected(Lexeme(toks, s1))))
        else
          var a := Next(toks, s1);
          if Cat(toks, a) != LParen then Done(Report(a, DefineNeedsParen))
          else
            var b := Next(toks, a);
            if Cat(toks, b) != Ident then Done(Report(b, DefineNeedsName))
            else
              var c := Next(toks, Emit(b, 0, FunctionHeader(Lexeme(toks, b))));
              if Cat(toks, c) != RParen then Done(Report(c, DefineNeedsClose))
              else
                var d :- DefineBody(toks, Next(toks, c), fuel - 1);
                Done(Emit(d, 0, FunctionClose));
      Done(Guard(toks, s2, DefineFollow))
  }

  /** The body loop of define: stop at `)` or end of input; otherwise parse one stmt
      and then consume one further token, whatever it is. */
  function DefineBody(toks: seq<Token>, st: State, fuel: nat): (r: Outcome)
    ensures r.Done? ==> WritesStmts(st, r.st) && In(Cat(toks, r.st), CloseOrEof)
    ensures fuel > 0 && In(Cat(toks, st), CloseOrEof) ==> r == Done(st)
    decreases fuel, 0
  {
    if fuel == 0 then OutOfFuel
    else if Cat(toks, st) == Eof || Cat(toks, st) == RParen then Done(st)
    else
      var s :- Stmt(toks, st, fuel - 1);
      var n := Next(toks, s);
      var d :- DefineBody(toks, n, fuel - 1);
      WritesStmtsTransitive(st, s, n);
      WritesStmtsTransitive(st, n, d);
      Done(d)
  }

  /** stmt_list: stmt stmt_list, or nothing in front of `)`. */
  function StmtList(toks: seq<Token>, st: State, fuel: nat): (r: Outcome)
    ensures r.Done? ==> WritesStmts(st, r.st) && In(Cat(toks, r.st), StmtListFollow)
    decreases fuel, 0
  {
    if fuel == 0 then OutOfFuel
    else
      var s1 := Guard(toks, st, StmtListFirst);
      var s2 :-
        if StmtStart(Cat(toks, s1)) then
          var a :- Stmt(toks, s1, fuel - 1);
          StmtList(toks, a, fuel - 1)
        else if Cat(toks, s1) == RParen then
          Done(s1)
        else
          Done(Report(s1, Unexpected(Lexeme(toks, s1))));
      Done(Guard(toks, s2, StmtListFollow))
  }

  /** stmt: any number of parenthesised actions. On a literal, an identifier or a
      quote it consumes nothing and reports nothing. */
  function Stmt(toks: seq<Token>, st: State, fuel: nat): (r: Outcome)
    ensures r.Done? ==> WritesStmts(st, r.st) && In(Cat(toks, r.st), StmtFollow)
    ensures fuel > 0 && In(Cat(toks, st), StmtFirst) && Cat(toks, st) != LParen ==> r == Done(st)
    decreases fuel, 0
  {
    if fuel == 0 then OutOfFuel
    else
      var s1 := Guard(toks, st, StmtFirst);
      var s2 :- StmtLoop(toks, s1, fuel - 1);
      Done(Guard(toks, s2, StmtFollow))
  }

  /** The loop of stmt: while the lookahead is `(`, consume it, run action, and
      expect `)`. */
  function StmtLoop(toks: seq<Token>, st: State, fuel: nat): (r: Outcome)
    ensures r.Done? ==> WritesStmts(st, r.st) && Cat(toks, r.st) != LParen
    ensures Cat(toks, st) != LParen ==> r == Done(st)
    decreases fuel, 0
  {
    if Cat(toks, st) != LParen then Done(st)
    else if fuel == 0 then OutOfFuel
    else
      var n := Next(toks, st);
      var a :- Action(toks, n, fuel - 1);
      var b := Expect(toks, a, RParen);
      var c :- StmtLoop(toks, b, fuel - 1);
      WritesStmtsTransitive(st, n, a);
      WritesStmtsTransitive(st, a, b);
      WritesStmtsTransitive(st, b, c);
      Done(c)
  }

  /** else_part: an optional stmt in front of `)`. */
  function ElsePart(toks: seq<Token>, st: State, fuel: nat): (r: Outcome)
    ensures r.Done? ==> WritesStmts(st, r.st) && In(Cat(toks, r.st), ElsePartFollow)
    decreases fuel, 0
  {
    if fuel == 0 then OutOfFuel
    else
      var s1 := Guard(toks, st, ElsePartFirst);
      var s2 :-
        if StmtStart(Cat(toks, s1)) then Stmt(toks, s1, fuel - 1)
        else if Cat(toks, s1) == RParen then Done(s1)
        else Done(Report(s1, Unexpected(Lexeme(toks, s1))));
      Done(Guard(toks, s2, ElsePartFollow))
  }

  /** stmt_pair: '(' stmt_pair_body, or nothing in front of `)`. */
  function StmtPair(toks: seq<Token>, st: State, fuel: nat): (r: Outcome)
    ensures r.Done? ==> WritesStmts(st, r.st) && In(Cat(toks, r.st), StmtPairFollow)
    decreases fuel, 0
  {
    if fuel == 0 then OutOfFuel
    else
      var s1 := Guard(toks, st, StmtPairFirst);
      var s2 :-
        if Cat(toks, s1) == LParen then StmtPairBody(toks, Next(toks, s1), fuel - 1)
        else if Cat(toks, s1) == RParen then Done(s1)
        else Done(Report(s1, Unexpected(Lexeme(toks, s1))));
      Done(Guard(toks, s2, StmtPairFollow))
  }

  /** stmt_pair_body: stmt stmt ')' stmt_pair (a cond clause and the rest), or
      else stmt ')' (the last clause). */
  function StmtPairBody(toks: seq<Token>, st: State, fuel: nat): (r: Outcome)
    ensures r.Done? ==> WritesStmts(st, r.st) && In(Cat(toks, r.st), StmtPairBodyFollow)
    decreases fuel, 0
  {
    if fuel == 0 then OutOfFuel
    else
      var s1 := Guard(toks, st, StmtPairBodyFirst);
      var s2 :-
        if StmtStart(Cat(toks, s1)) then CondClause(toks, s1, fuel - 1)
        else if Cat(toks, s1) == Else then
          var n := Next(toks, s1);
          var a :- Stmt(toks, n, fuel - 1);
          var b := Expect(toks, a, RParen);
          WritesStmtsTransitive(s1, n, a);
          WritesStmtsTransitive(s1, a, b);
          Done(b)
        else
          Done(Report(s1, Unexpected(Lexeme(toks, s1))));
      Done(Guard(toks, s2, StmtPairBodyFollow))
  }

  /** A cond clause and the clauses after it: stmt stmt ')' stmt_pair. */
  function CondClause(toks: seq<Token>, st: State, fuel: nat): (r: Outcome)
    ensures r.Done? ==> WritesStmts(st, r.st) && In(Cat(toks, r.st), StmtPairFollow)
    decreases fuel, 1
  {
    var a :- Stmt(toks, st, fuel);
    var b :- Stmt(toks, a, fuel);
    var c := Expect(toks, b, RParen);
    var d :- StmtPair(toks, c, fuel);
    WritesStmtsTransitive(st, a, b);
    WritesStmtsTransitive(st, b, c);
    WritesStmtsTransitive(st, c, d);
    Done(d)
  }

  /** assign_pair: '(' identifier stmt ')', a let binding. */
  function AssignPair(toks: seq<Token>, st: State, fuel: nat): (r: Outcome)
    ensures r.Done? ==> WritesStmts(st, r.st) && In(Cat(toks, r.st), AssignPairFollow)
    decreases fuel, 0
  {
    if fuel == 0 then OutOfFuel
    else
      var s1 := Guard(toks, st, AssignPairFirst);
      var s2 :-
        if Cat(toks, s1) == LParen then
          var n := Expect(toks, Next(toks, s1), Ident);
          var a :- Stmt(toks, n, fuel - 1);
          var b := Expect(toks, a, RParen);
          WritesStmtsTransitive(s1, n, a);
          WritesStmtsTransitive(s1, a, b);
          Done(b)
        else
          Done(Report(s1, Unexpected(Lexeme(toks, s1))));
      Done(Guard(toks, s2, AssignPairFollow))
  }

  /** more_assigns: assign_pair more_assigns, or nothing in front of `)`. */
  function MoreAssigns(toks: seq<Token>, st: State, fuel: nat): (r: Outcome)
    ensures r.Done? ==> WritesStmts(st, r.st) && In(Cat(toks, r.st), MoreAssignsFollow)
    decreases fuel, 0
  {
    if fuel == 0 then OutOfFuel
    else
      var s1 := Guard(toks, st, MoreAssignsFirst);
      var s2 :-
        if Cat(toks, s1) == LParen then
          var a :- AssignPair(toks, s1, fuel - 1);
          MoreAssigns(toks, a, fuel - 1)
        else if Cat(toks, s1) == RParen then Done(s1)
        else Done(Report(s1, Unexpected(Lexeme(toks, s1))));
      Done(Guard(toks, s2, MoreAssignsFollow))
  }

  /** action: the form inside a statement's parentheses, chosen by its keyword or
      operator. Only the display and newline alternatives write code. */
  function Action(toks: seq<Token>, st: State, fuel: nat): (r: Outcome)
    ensures r.Done? ==> WritesStmts(st, r.st) && In(Cat(toks, r.st), ActionFollow)
    decreases fuel, 0
  {
    if fuel == 0 then OutOfFuel
    else
      var s1 := Guard(toks, st, ActionFirst);
      var s2 :- Alternative(toks, s1, RuleFor(Cat(toks, s1)), fuel - 1);
      Done(Guard(toks, s2, ActionFollow))
  }

  /** The alternative of action selected by the lookahead, run between the entry and
      the exit guard. */
  function Alternative(toks: seq<Token>, st: State, rule: ActionRule, fuel: nat): (r: Outcome)
    requires rule == RuleFor(Cat(toks, st))
    ensures r.Done? ==> WritesStmts(st, r.st)
    decreases fuel, 2
  {
    match rule
    case IfRule => IfForm(toks, Next(toks, st), fuel)
    case CondRule => StmtPairBody(toks, Expect(toks, Next(toks, st), LParen), fuel)
    case LetRule => LetForm(toks, Next(toks, st), fuel)
    case OneStmt | TwoStmts | StmtThenList => StmtForm(toks, Next(toks, st), rule, fuel)
    case ListRule => StmtList(toks, Next(toks, st), fuel)
    case DisplayRule => Done(DisplayArg(toks, Next(toks, st)))
    case NewlineRule => Done(NewlineBranch(toks, st))
    case ReadRule => Done(Next(toks, st))
    case NoRule => Done(Report(st, Unexpected(Lexeme(toks, st))))
  }

  /** `if` stmt stmt else_part. */
  function IfForm(toks: seq<Token>, st: State, fuel: nat): (r: Outcome)
    ensures r.Done? ==> WritesStmts(st, r.st)
    decreases fuel, 1
  {
    var a :- Stmt(toks, st, fuel);
    var b :- Stmt(toks, a, fuel);
    var c :- ElsePart(toks, b, fuel);
    WritesStmtsTransitive(st, a, b);
    WritesStmtsTransitive(st, b, c);
    Done(c)
  }

  /** `let` '(' more_assigns ')' stmt stmt_list. */
  function LetForm(toks: seq<Token>, st: State, fuel: nat): (r: Outcome)
    ensures r.Done? ==> WritesStmts(st, r.st)
    decreases fuel, 1
  {
    var s0 := Expect(toks, st, LParen);
    var a :- MoreAssigns(toks, s0, fuel);
    var s1 := Expect(toks, a, RParen);
    var b :- Stmt(toks, s1, fuel);
    var c :- StmtList(toks, b, fuel);
    WritesStmtsTransitive(st, s0, a);
    WritesStmtsTransitive(st, a, s1);
    WritesStmtsTransitive(st, s1, b);
    WritesStmtsTransitive(st, b, c);
    Done(c)
  }

  /** The alternatives that start with one stmt: nothing more, a second stmt, or a
      stmt_list. */
  function StmtForm(toks: seq<Token>, st: State, rule: ActionRule, fuel: nat): (r: Outcome)
    ensures r.Done? ==> WritesStmts(st, r.st)
    decreases fuel, 1
  {
    var a :- Stmt(toks, st, fuel);
    if rule == TwoStmts then Stmt(toks, a, fuel)
    else if rule == StmtThenList then StmtList(toks, a, fuel)
    else Done(a)
  }

  /** The rule table of action selects an alternative for exactly the categories of
      action's FIRST set other than end of input. */
  lemma RuleForCoversActionFirst(c: Category)
    ensures RuleFor(c) != NoRule <==> In(c, ActionFirst) && c != Eof
  {
  }

  /** stmt on a literal, an identifier or a quote returns at once, so stmt_list calls
      itself again on the same lookahead with no input consumed: whatever the budget,
      the recursion never returns. */
  lemma {:induction false} StmtListDiverges(toks: seq<Token>, st: State, fuel: nat)
    requires StmtStart(Cat(toks, st)) && Cat(toks, st) != LParen
    ensures StmtList(toks, st, fuel) == OutOfFuel
    decreases fuel
  {
    if fuel > 1 {
      assert In(Cat(toks, st), StmtListFirst) && In(Cat(toks, st), StmtFirst);
      assert Stmt(toks, st, fuel - 1) == Done(st);
      StmtListDiverges(toks, st, fuel - 1);
    }
  }

  /** One turn of define's body loop always consumes input: unless the lookahead is
      `)` or end of input, stmt followed by the loop's unconditional read leaves the
      cursor past where the turn started. So, unlike stmt_list, the loop cannot spin
      in place. */
  lemma BodyTurnAdvances(toks: seq<Token>, st: State, fuel: nat)
    requires !In(Cat(toks, st), CloseOrEof)
    ensures var s := Stmt(toks, st, fuel); s.Done? ==> Next(toks, s.st).pos > st.pos
  {
  }

  /** Define without a complete `define ( name` header writes nothing. */
  lemma DefineWithoutHeader(toks: seq<Token>, st: State, fuel: nat)
    requires !HasHeader(toks, Guard(toks, st, DefineFirst).pos)
    ensures var r := Define(toks, st, fuel); r.Done? ==> r.st.out == st.out
  {
    var g := Guard(toks, st, DefineFirst);
    if fuel > 0 && Cat(toks, g) == Category.Define {
      var a := Next(toks, g);
      assert a.pos == g.pos + 1;
      if Cat(toks, a) == LParen {
        var b := Next(toks, a);
        assert b.pos == g.pos + 2 && Cat(toks, b) != Ident;
        assert Define(toks, st, fuel) == Done(Guard(toks, Report(b, DefineNeedsName), DefineFollow));
      }
    }
  }

  /** The state define enters its body loop with, after `define ( name )`: the header
      has been written and the four tokens consumed. */
  function BodyEntry(toks: seq<Token>, g: State): State
  {
    State(g.pos + 4, g.out + [Fragment(0, FunctionHeader(Peek(toks, g.pos + 2).lexeme))], g.diags)
  }

  /** With a complete `define ( name )` after the entry guard, define runs its body loop
      from BodyEntry and then closes the function. */
  lemma DefineOpens(toks: seq<Token>, st: State, fuel: nat)
    requires fuel > 0
    requires
      var p := Guard(toks, st, DefineFirst).pos;
      HasHeader(toks, p) && Peek(toks, p + 3).cat == RParen
    ensures
      var d := DefineBody(toks, BodyEntry(toks, Guard(toks, st, DefineFirst)), fuel - 1);
      Define(toks, st, fuel)
        == if d.Done? then Done(Guard(toks, Emit(d.st, 0, FunctionClose), DefineFollow)) else OutOfFuel
  {
    var g := Guard(toks, st, DefineFirst);
    var a := Next(toks, g);
    assert a.pos == g.pos + 1 && Cat(toks, a) == LParen;
    var b := Next(toks, a);
    assert b.pos == g.pos + 2 && Cat(toks, b) == Ident;
    var c := Next(toks, Emit(b, 0, FunctionHeader(Lexeme(toks, b))));
    assert c.pos == g.pos + 3 && Cat(toks, c) == RParen;
    assert Next(toks, c) == BodyEntry(toks, g);
  }

  /** A complete `define ( name )` writes the function header, then exactly what the
      body loop writes from the token after `)` on, all of it output statements, then
      the closing brace. */
  lemma DefineWritesFunction(toks: seq<Token>, st: State, fuel: nat)
    requires
      var p := Guard(toks, st, DefineFirst).pos;
      HasHeader(toks, p) && Peek(toks, p + 3).cat == RParen
    ensures
      var g := Guard(toks, st, DefineFirst);
      var header := Fragment(0, FunctionHeader(Peek(toks, g.pos + 2).lexeme));
      var entered := State(g.pos + 4, st.out + [header], g.diags);
      var r := Define(toks, st, fuel);
      r.Done? ==>
        fuel > 0 &&
        (var body := DefineBody(toks, entered, fuel - 1);
         && body.Done?
         && r.st.out == st.out + [header] + body.st.out[|entered.out|..] + [Fragment(0, FunctionClose)]
         && forall i :: |entered.out| <= i < |body.st.out| ==> StmtFragment(body.st.out[i]))
  {
    var g := Guard(toks, st, DefineFirst);
    var header := Fragment(0, FunctionHeader(Peek(toks, g.pos + 2).lexeme));
    var entered := BodyEntry(toks, g);
    assert entered == State(g.pos + 4, st.out + [header], g.diags);
    if fuel > 0 {
      DefineOpens(toks, st, fuel);
      var d := DefineBody(toks, entered, fuel - 1);
      if d.Done? {
        CloseAfterBody(toks, entered, d.st);
      }
    }
  }

  /** Closing the function after a body run from `entered` leaves the fragments up to
      `entered` in place, then the body's, then the closing brace. */
  lemma CloseAfterBody(toks: seq<Token>, entered: State, d: State)
    requires Extends(entered, d)
    ensures
      var r := Guard(toks, Emit(d, 0, FunctionClose), DefineFollow);
      r.out == entered.out + d.out[|entered.out|..] + [Fragment(0, FunctionClose)]
  {
    assert d.out == entered.out + d.out[|entered.out|..];
  }

  /** `define ( name` followed by anything but `)` writes the header and nothing else,
      and reports the missing `)` right after the entry guard's diagnostics, followed by
      the exit guard's report of the offending token unless define may end there. */
  lemma DefineMissingClose(toks: seq<Token>, st: State, fuel: nat)
    requires
      var p := Guard(toks, st, DefineFirst).pos;
      HasHeader(toks, p) && Peek(toks, p + 3).cat != RParen
    ensures
      var r := Define(toks, st, fuel);
      var g := Guard(toks, st, DefineFirst);
      var after := Peek(toks, g.pos + 3);
      r.Done? ==>
        && r.st.out == st.out + [Fragment(0, FunctionHeader(Peek(toks, g.pos + 2).lexeme))]
        && r.st.diags == g.diags + [DefineNeedsClose] +
             (if In(after.cat, DefineFollow) then [] else [Unexpected(after.lexeme)])
  {
    var g := Guard(toks, st, DefineFirst);
    var a := Next(toks, g);
    assert a.pos == g.pos + 1 && Cat(toks, a) == LParen;
    var b := Next(toks, a);
    assert b.pos == g.pos + 2 && Cat(toks, b) == Ident;
    var c := Next(toks, Emit(b, 0, FunctionHeader(Lexeme(toks, b))));
    assert c.pos == g.pos + 3 && Cat(toks, c) != RParen;
  }

  /** What action writes for the alternatives that do not parse further statements:
      newline writes exactly its end-of-line statement, display exactly what its
      argument calls for (DisplayArgWrites), and read or an unexpected keyword nothing. */
  lemma ActionWrites(toks: seq<Token>, st: State, fuel: nat)
    requires fuel > 0
    ensures
      var r := Action(toks, st, fuel);
      var g := Guard(toks, st, ActionFirst);
      && (Cat(toks, g) == Newline ==>
            r.Done? && r.st.out == st.out + [Fragment(1, NewlineStmtText)])
      && (Cat(toks, g) == Category.Display ==>
            r.Done? && r.st.out == DisplayArg(toks, Next(toks, g)).out)
      && (RuleFor(Cat(toks, g)) in {ReadRule, NoRule} ==> r.Done? && r.st.out == st.out)
  {
  }
}


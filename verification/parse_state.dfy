/** The state one translation run threads through every production, and the
    primitive steps the productions are built from: reading the lookahead, consuming
    it, reporting a diagnostic, emitting a fragment, and panic-mode recovery. */
module ParseState {
  import opened Tokens
  import opened CodeGen
  import opened Grammar

  /** A diagnostic, as the productions report it to the lexer's error channel.
      Formatting into message text is left to the trace and not modelled. */
  datatype Diag =
    | Unexpected(lexeme: string)   // "'<lexeme>' unexpected"
    | Expected(cat: Category)      // "'<category>' expected"
    | DefineNeedsParen             // "'(' expected after 'define'"
    | DefineNeedsName              // "Function name (identifier) expected after '('"
    | DefineNeedsClose             // "')' expected after function parameters"

  /** The cursor into the token stream, the fragments written to the code generator
      and the diagnostics reported so far. */
  datatype State = State(pos: nat, out: seq<Fragment>, diags: seq<Diag>)

  /** The result of a fuel-bounded production: its final state, or `OutOfFuel` when
      the recursion budget ran out before it returned. */
  datatype Outcome = Done(st: State) | OutOfFuel {
    predicate IsFailure() { OutOfFuel? }
    function PropagateFailure(): Outcome requires OutOfFuel? { OutOfFuel }
    function Extract(): State requires Done? { st }
  }

  /** `st'` can follow `st` in a run: the cursor has not moved back, the fragments
      written so far are still there with new ones only after them, and no diagnostic
      has been withdrawn. */
  predicate Extends(st: State, st': State)
  {
    && st.pos <= st'.pos
    && st.out <= st'.out
    && |st.diags| <= |st'.diags|
  }

  lemma ExtendsTransitive(a: State, b: State, c: State)
    requires Extends(a, b) && Extends(b, c)
    ensures Extends(a, c)
  {
  }

  /** The lookahead token and its category and lexeme. */
  function Look(toks: seq<Token>, st: State): Token
  {
    Peek(toks, st.pos)
  }

  function Cat(toks: seq<Token>, st: State): Category
  {
    Peek(toks, st.pos).cat
  }

  function Lexeme(toks: seq<Token>, st: State): string
  {
    Peek(toks, st.pos).lexeme
  }

  /** GetToken: consume the lookahead. At end of input the cursor stays put and the
      lookahead stays end of input. */
  function Next(toks: seq<Token>, st: State): (r: State)
    ensures Extends(st, r) && r.out == st.out && r.diags == st.diags
    ensures r.pos == Advance(toks, st.pos)
    ensures Cat(toks, st) != Eof ==> r.pos == st.pos + 1
  {
    if st.pos < |toks| then st.(pos := st.pos + 1) else st
  }

  /** ReportError. */
  function Report(st: State, d: Diag): (r: State)
    ensures Extends(st, r)
    ensures r.pos == st.pos && r.out == st.out && r.diags == st.diags + [d]
  {
    st.(diags := st.diags + [d])
  }

  /** WriteCode, recorded as a fragment. */
  function Emit(st: State, tabs: int, text: string): (r: State)
    ensures Extends(st, r)
    ensures r.pos == st.pos && r.diags == st.diags && r.out == st.out + [Fragment(tabs, text)]
  {
    st.(out := st.out + [Fragment(tabs, text)])
  }

  /** A required token at a fixed grammar position: consumed when present, otherwise
      one "expected" diagnostic and nothing consumed. */
  function Expect(toks: seq<Token>, st: State, c: Category): (r: State)
    ensures Extends(st, r) && r.out == st.out
    ensures Cat(toks, st) == c ==> r == Next(toks, st)
    ensures Cat(toks, st) != c ==> r == Report(st, Expected(c))
  {
    if Cat(toks, st) == c then Next(toks, st) else Report(st, Expected(c))
  }

  /** The panic-mode skip loop: consume tokens until the lookahead is in `s`. It stops
      at the first such token and terminates because end of input is in `s`. */
  function Skip(toks: seq<Token>, st: State, s: RecoverySet): (r: State)
    requires In(Eof, s)
    ensures Extends(st, r) && r.out == st.out && r.diags == st.diags
    ensures In(Cat(toks, r), s)
    ensures forall p :: st.pos <= p < r.pos ==> !In(Peek(toks, p).cat, s)
    decreases Remaining(toks, st.pos)
  {
    if In(Cat(toks, st), s) then st else Skip(toks, Next(toks, st), s)
  }

  /** The entry or exit guard of a production: when the lookahead is not in `s`, report
      it as unexpected once and skip to the first token in `s`. */
  function Guard(toks: seq<Token>, st: State, s: RecoverySet): (r: State)
    requires In(Eof, s)
    ensures Extends(st, r) && r.out == st.out
    ensures In(Cat(toks, r), s)
    ensures In(Cat(toks, st), s) ==> r == st
    ensures !In(Cat(toks, st), s) ==>
      && r.diags == st.diags + [Unexpected(Lexeme(toks, st))]
      && st.pos < r.pos
      && forall p :: st.pos <= p < r.pos ==> !In(Peek(toks, p).cat, s)
  {
    if In(Cat(toks, st), s) then st
    else Skip(toks, Report(st, Unexpected(Lexeme(toks, st))), s)
  }
}

/** The command-line driver and the translation run it starts: the argument and
    file-extension checks, then one parse of the whole token stream from the first
    token, with the generated file being the preamble followed by every fragment the
    productions wrote. Reading the source file and writing the output files are left
    out: the token stream is a parameter and the file contents are returned. */
module Driver {
  import opened Tokens
  import opened CodeGen
  import opened ParseState
  import opened Productions

  /** The only accepted source-file extension, and its length. */
  const Extension := ".pl460"

  /** What the driver decides from its arguments: print the usage line, reject the
      file name, or translate the file whose name without extension is `prefix`. */
  datatype Launch = Usage | BadExtension | Accepted(prefix: string)

  /** The extension main compares: the last six characters when the name is longer
      than six, otherwise the empty string. */
  function ExtensionOf(name: string): (ext: string)
    ensures |name| > 6 ==> name == name[..|name| - 6] + ext
    ensures |name| <= 6 ==> ext == ""
  {
    if |name| > 6 then name[|name| - 6..] else ""
  }

  /** main's checks. `args` is argv: the program name, then the file name. */
  function CheckArgs(args: seq<string>): (r: Launch)
    ensures r == Usage <==> |args| < 2
    ensures r.Accepted? <==> |args| >= 2 && |args[1]| > |Extension| && ExtensionOf(args[1]) == Extension
    ensures r.Accepted? ==> r.prefix + Extension == args[1] && |r.prefix| > 0
  {
    if |args| < 2 then Usage
    else
      var name := args[1];
      if ExtensionOf(name) != Extension then BadExtension
      else Accepted(name[..|name| - 6])
  }

  /** Every file name made of a non-empty prefix and the extension is accepted, and the
      prefix handed to the translator is exactly that prefix. */
  lemma {:induction false} CheckArgsRoundTrip(program: string, prefix: string, rest: seq<string>)
    requires |prefix| > 0
    ensures CheckArgs([program, prefix + Extension] + rest) == Accepted(prefix)
  {
    var args := [program, prefix + Extension] + rest;
    assert args[1] == prefix + Extension;
    assert ExtensionOf(args[1]) == Extension by {
      assert args[1][|args[1]| - 6..] == Extension;
    }
    assert args[1][..|args[1]| - 6] == prefix;
  }

  /** A name that is nothing but the extension is rejected: the comparison only looks
      at names longer than six characters. */
  lemma BareExtensionRejected(program: string)
    ensures CheckArgs([program, Extension]) == BadExtension
  {
  }

  /** The outcome of a translation run: the generated file and the diagnostics in the
      order they were reported, or `Exhausted` when the fuel bound was reached. */
  datatype Run = Finished(code: string, diags: seq<Diag>) | Exhausted

  /** The state the constructor starts the parse from: the first token is the
      lookahead, nothing is written and nothing reported. */
  const Start := State(0, [], [])

  /** The tokens come from a lexer: end of input only ever follows them. */
  predicate LexerStream(toks: seq<Token>)
  {
    forall i :: 0 <= i < |toks| ==> toks[i].cat != Eof
  }

  /** The analyzer's constructor: run program on the whole stream, writing the preamble
      for `prefix + ".cpp"` first and every fragment after it. */
  function Translate(prefix: string, toks: seq<Token>, fuel: nat): (r: Run)
    ensures r.Finished? ==>
      var pre := Preamble(prefix + ".cpp");
      |r.code| >= |pre| && r.code[..|pre|] == pre
  {
    match Program(toks, Start, fuel)
    case OutOfFuel => Exhausted
    case Done(st) =>
      var code := Generate(prefix, st.out);
      assert code[..|Preamble(prefix + ".cpp")|] == Preamble(prefix + ".cpp");
      Finished(code, st.diags)
  }

  /** A finished parse of a lexer's stream has read all of it: program only returns at
      end of input. */
  lemma ProgramReadsAll(toks: seq<Token>, fuel: nat)
    requires LexerStream(toks)
    ensures var r := Program(toks, Start, fuel); r.Done? ==> r.st.pos >= |toks|
  {
  }

  /** An empty source file: program reports the missing `(` once and writes nothing. */
  lemma EmptyProgram(fuel: nat)
    requires fuel > 0
    ensures Program([], Start, fuel) == Done(State(0, [], [Unexpected("")]))
  {
  }

  /** So the file generated for an empty source is the preamble alone. */
  lemma EmptyInput(prefix: string)
    ensures Translate(prefix, [], 1) == Finished(Preamble(prefix + ".cpp"), [Unexpected("")])
  {
    EmptyProgram(1);
    assert Concat([]) == "";
  }
}

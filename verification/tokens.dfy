/** Tokens delivered by the lexical analyzer, and the immutable token stream the
    parser reads through a cursor. The lexer itself is not part of this model: a
    run of it is represented by the sequence of tokens it produces. */
module Tokens {

  /** Token categories the parser distinguishes. `ErrorTok` stands for the lexer's
      error token, which no FIRST or FOLLOW set contains. */
  datatype Category =
    | Ident | NumLit | StrLit | TrueLit | FalseLit
    | LParen | RParen | SQuote
    | If | Cond | Else | Let | Define | And | Or | Not
    | Display | Newline | Read
    | ListOp1 | ListOp2 | NumberP | ListP | ZeroP | NullP | EofP | Modulo | Round
    | Plus | Minus | Div | Mult | EqualTo | Gt | Lt | Gte | Lte
    | ErrorTok
    | Eof

  datatype Token = Token(cat: Category, lexeme: string)

  /** What the lexer keeps returning once its input is exhausted. */
  const EofToken := Token(Eof, "")

  /** The token at position `p` of the stream `toks` followed by end of input. */
  function Peek(toks: seq<Token>, p: nat): (t: Token)
    ensures p < |toks| ==> t == toks[p]
    ensures p >= |toks| ==> t.cat == Eof
  {
    if p < |toks| then toks[p] else EofToken
  }

  /** The position after reading the token at `p`: reading at end of input does not
      move. */
  function Advance(toks: seq<Token>, p: nat): nat
  {
    if p < |toks| then p + 1 else p
  }

  /** Number of tokens not yet read from position `p` on. */
  function Remaining(toks: seq<Token>, p: nat): nat
  {
    if p < |toks| then |toks| - p else 0
  }
}

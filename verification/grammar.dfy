/** FIRST and FOLLOW sets of every production, exactly as each production of the
    translator lists them. They drive error recovery only: alternatives are chosen by
    comparing the lookahead's category directly. */
module Grammar {
  import opened Tokens

  /** The categories a quoted datum may start with: every category but `)`, the
      lexer's error token and end of input (see QuotableAsListed for the list the
      productions spell out). */
  predicate Quotable(c: Category)
  {
    !(c == RParen || c == ErrorTok || c == Eof)
  }

  /** The categories that select the statement alternative of stmt_list, else_part
      and stmt_pair_body. */
  predicate StmtStart(c: Category)
  {
    c in {NumLit, TrueLit, FalseLit, LParen, SQuote, Ident, StrLit}
  }

  /** The recovery sets, one per production and side. */
  datatype RecoverySet =
    | ProgramFirst | ProgramFollow
    | MoreDefinesFirst | MoreDefinesFollow
    | DefineFirst | DefineFollow
    | StmtListFirst | StmtListFollow
    | StmtFirst | StmtFollow
    | LiteralFirst | LiteralFollow
    | QuotedLitFirst | QuotedLitFollow
    | LogicalLitFirst | LogicalLitFollow
    | MoreTokensFirst | MoreTokensFollow
    | ParamListFirst | ParamListFollow
    | ElsePartFirst | ElsePartFollow
    | StmtPairFirst | StmtPairFollow
    | StmtPairBodyFirst | StmtPairBodyFollow
    | AssignPairFirst | AssignPairFollow
    | MoreAssignsFirst | MoreAssignsFollow
    | ActionFirst | ActionFollow
    | AnyOtherTokenFirst | AnyOtherTokenFollow
    | CloseOrEof   // `)` or end of input: where define's body loop stops

  /** Membership of a category in a recovery set. */
  predicate In(c: Category, s: RecoverySet)
  {
    match s
    case ProgramFirst => c in {LParen, Eof}
    case ProgramFollow => c == Eof
    case MoreDefinesFirst => c in {Define, Ident, Eof}
    case MoreDefinesFollow => c == Eof
    case DefineFirst => c in {Define, Eof}
    case DefineFollow => c in {LParen, Eof}
    case StmtListFirst => StmtStart(c) || c in {RParen, Eof}
    case StmtListFollow => c in {RParen, Eof}
    case StmtFirst => StmtStart(c) || c == Eof
    case StmtFollow => StmtStart(c) || c in {RParen, Eof}
    case LiteralFirst => c in {NumLit, StrLit, SQuote, TrueLit, FalseLit, Eof}
    case LiteralFollow => StmtStart(c) || c in {RParen, Eof}
    case QuotedLitFirst => Quotable(c) || c == Eof
    case QuotedLitFollow => StmtStart(c) || c in {RParen, Eof}
    case LogicalLitFirst => c in {TrueLit, FalseLit, Eof}
    case LogicalLitFollow => StmtStart(c) || c in {RParen, Eof}
    case MoreTokensFirst => Quotable(c) || c in {RParen, Eof}
    case MoreTokensFollow => c in {RParen, Eof}
    case ParamListFirst => c in {Ident, RParen, Eof}
    case ParamListFollow => c in {RParen, Eof}
    case ElsePartFirst => StmtStart(c) || c in {RParen, Eof}
    case ElsePartFollow => c in {RParen, Eof}
    case StmtPairFirst => c in {LParen, RParen, Eof}
    case StmtPairFollow => c in {RParen, Eof}
    case StmtPairBodyFirst => StmtStart(c) || c in {Else, Eof}
    case StmtPairBodyFollow => c in {RParen, Eof}
    case AssignPairFirst => c in {LParen, Eof}
    case AssignPairFollow => c in {LParen, RParen, Eof}
    case MoreAssignsFirst => c in {LParen, RParen, Eof}
    case MoreAssignsFollow => c in {RParen, Eof}
    case ActionFirst =>
      c in {If, Cond, Let, ListOp1, ListOp2, And, Or, Not, NumberP, ListP, ZeroP, NullP,
            EofP, Plus, Minus, Div, Mult, Modulo, Round, EqualTo, Gt, Lt, Gte, Lte,
            Ident, Display, Newline, Read, Eof}
    case ActionFollow => c in {RParen, Eof}
    case AnyOtherTokenFirst => Quotable(c) || c == Eof
    case AnyOtherTokenFollow => Quotable(c) || c in {RParen, Eof}
    case CloseOrEof => c in {RParen, Eof}
  }

  /** End of input is in every recovery set, so every skip loop stops at the latest
      at end of input; the lexer's error token is in none of them. */
  lemma EofInEverySet(s: RecoverySet)
    ensures In(Eof, s)
    ensures !In(ErrorTok, s)
  {
  }

  /** Quotable is the 36-category list quoted_lit, more_tokens and any_other_token
      spell out. */
  lemma QuotableAsListed(c: Category)
    ensures Quotable(c) <==>
      c in {NumLit, ListOp1, Plus, Minus, Gt, Lt, TrueLit, FalseLit, Div, Mult, EqualTo,
            Gte, Lte, LParen, SQuote, Ident, If, Cond, Display, Newline, And, Or, Not,
            Define, Let, ListOp2, NumberP, ListP, ZeroP, NullP, EofP, Modulo, Round, Read,
            Else, StrLit}
  {
  }
}

/** Token kinds, tokens, their display strings and the keyword table. */
module Tokens {

  import opened Options

  /** The closed set of token kinds. */
  datatype TokenType =
    | Illegal | EOF
    | Ident | Int
    // operators
    | Assign | Plus | Minus | Bang | Asterisk | Slash | Lt | Gt | Eq | NotEq
    | Comma | Semicolon
    | LParen | RParen | LBrace | RBrace
    // keywords
    | Function | Let | True | False | If | Else | Return

  /** A token: its kind and the exact source text it was scanned from.
      `Token::new(kind, literal)` is this constructor; it stores both unchanged. */
  datatype Token = Token(kind: TokenType, literal: string)

  /** The seven reserved words. */
  predicate IsKeyword(k: TokenType) {
    k in {Function, Let, True, False, If, Else, Return}
  }

  /** Operator and punctuation kinds: the ones whose display is their lexeme. */
  predicate IsOperator(k: TokenType) {
    k in {Assign, Plus, Minus, Bang, Asterisk, Slash, Lt, Gt, Eq, NotEq,
          Comma, Semicolon, LParen, RParen, LBrace, RBrace}
  }

  predicate IsUpperWord(s: string) {
    |s| > 0 && forall i :: 0 <= i < |s| ==> 'A' <= s[i] <= 'Z'
  }

  /** `Display for TokenType`: operators render as their lexeme, every other
      kind as an upper-case name. */
  function Display(k: TokenType): (s: string)
    ensures IsOperator(k) ==> 1 <= |s| <= 2 && !('A' <= s[0] <= 'Z')
    ensures !IsOperator(k) ==> IsUpperWord(s)
  {
    match k
    case Illegal => "ILLEGAL"
    case EOF => "EOF"
    case Ident => "IDENT"
    case Int => "INT"
    case Assign => "="
    case Plus => "+"
    case Comma => ","
    case Semicolon => ";"
    case LParen => "("
    case RParen => ")"
    case LBrace => "{"
    case RBrace => "}"
    case Function => "FUNCTION"
    case Let => "LET"
    case Minus => "-"
    case Bang => "!"
    case Asterisk => "*"
    case Slash => "/"
    case Lt => "<"
    case Gt => ">"
    case True => "TRUE"
    case False => "FALSE"
    case If => "IF"
    case Else => "ELSE"
    case Return => "RETURN"
    case Eq => "=="
    case NotEq => "!="
  }

  /** Reads a display string back as a kind; used to show that Display loses nothing. */
  function KindOfDisplay(s: string): Option<TokenType> {
    if |s| == 1 then
      match s[0]
      case '=' => Some(Assign)
      case '+' => Some(Plus)
      case '-' => Some(Minus)
      case '!' => Some(Bang)
      case '*' => Some(Asterisk)
      case '/' => Some(Slash)
      case '<' => Some(Lt)
      case '>' => Some(Gt)
      case ',' => Some(Comma)
      case ';' => Some(Semicolon)
      case '(' => Some(LParen)
      case ')' => Some(RParen)
      case '{' => Some(LBrace)
      case '}' => Some(RBrace)
      case _ => None
    else if s == "==" then Some(Eq)
    else if s == "!=" then Some(NotEq)
    else if s == "ILLEGAL" then Some(Illegal)
    else if s == "EOF" then Some(EOF)
    else if s == "IDENT" then Some(Ident)
    else if s == "INT" then Some(Int)
    else if s == "FUNCTION" then Some(Function)
    else if s == "LET" then Some(Let)
    else if s == "TRUE" then Some(True)
    else if s == "FALSE" then Some(False)
    else if s == "IF" then Some(If)
    else if s == "ELSE" then Some(Else)
    else if s == "RETURN" then Some(Return)
    else None
  }

  /** Display has a left inverse, so distinct kinds render to distinct strings. */
  lemma DisplayRoundTrip(k: TokenType)
    ensures KindOfDisplay(Display(k)) == Some(k)
  {
  }

  lemma DisplayInjective(a: TokenType, b: TokenType)
    ensures Display(a) == Display(b) ==> a == b
  {
    DisplayRoundTrip(a);
    DisplayRoundTrip(b);
  }

  /** The keyword table, built once and never changed: each reserved word
      maps to its keyword kind, and every keyword kind is in it under its
      reserved word. */
  function Keywords(): (table: map<string, TokenType>)
    ensures forall w :: w in table ==> IsKeyword(table[w]) && Spelling(table[w]) == w
    ensures forall k :: IsKeyword(k) ==> Spelling(k) in table && table[Spelling(k)] == k
  {
    map["fn" := Function, "let" := Let, "true" := True, "false" := False,
        "if" := If, "else" := Else, "return" := Return]
  }

  /** The reserved word of a keyword kind: the inverse of the table. */
  function Spelling(k: TokenType): string
    requires IsKeyword(k)
  {
    match k
    case Function => "fn"
    case Let => "let"
    case True => "true"
    case False => "false"
    case If => "if"
    case Else => "else"
    case Return => "return"
  }

  /** `lookup_ident`: the keyword kind of a reserved word, `Ident` for every
      other string (lookup is exact, so `"Let"` is an identifier). */
  function LookupIdent(ident: string): (r: TokenType)
    ensures r == Ident || IsKeyword(r)
    ensures IsKeyword(r) ==> Spelling(r) == ident
    ensures r == Ident ==> forall k :: IsKeyword(k) ==> Spelling(k) != ident
  {
    if ident in Keywords() then Keywords()[ident] else Ident
  }

  /** Lookup is case-sensitive: a capitalised reserved word is a name. */
  lemma CapitalisedKeywordIsIdent()
    ensures LookupIdent("Let") == Ident && LookupIdent("FN") == Ident
  {
  }

  /** Every reserved word is found in the table under its own kind. */
  lemma LookupSpelling(k: TokenType)
    requires IsKeyword(k)
    ensures LookupIdent(Spelling(k)) == k
  {
  }
}

/** The scanner: a cursor over the source text that hands out one token per
    call. `Scan` is the reference definition of one `next_token` step; the
    `Lexer` class is the cursor itself and is proved to follow `Scan`. */
module Lexing {

  import opened Tokens

  /** The character under index `i`, or the sentinel `'\0'` past the end. */
  function CharAt(input: string, i: nat): char {
    if i < |input| then input[i] else '\0'
  }

  predicate IsAscii(input: string) {
    forall i :: 0 <= i < |input| ==> input[i] < 128 as char
  }

  predicate NulFree(input: string) {
    forall i :: 0 <= i < |input| ==> input[i] != '\0'
  }

  lemma NulFreeAppend(a: string, b: string)
    requires NulFree(a) && NulFree(b)
    ensures NulFree(a + b)
  {
  }

  /** `char::is_whitespace` on ASCII: tab, line feed, vertical tab, form feed,
      carriage return and space. */
  predicate IsWhitespace(c: char) {
    c == ' ' || '\t' <= c <= '\r'
  }

  /** `is_alphabetic_ident`: ASCII letters and the underscore. Such a
      character is never a digit, whitespace, the sentinel or one of the
      symbols, so the identifier branch of `next_token` excludes the others. */
  predicate IsIdentChar(c: char): (b: bool)
    ensures b ==> c < 128 as char && !IsDigit(c) && !IsWhitespace(c) && c != '\0'
    ensures b ==> !IsSingleSymbol(c) && c != '=' && c != '!'
  {
    'A' <= c <= 'Z' || 'a' <= c <= 'z' || c == '_'
  }

  /** `char::is_ascii_digit`. */
  predicate IsDigit(c: char) {
    '0' <= c <= '9'
  }

  /** The three character classes the lexer scans runs of. */
  datatype CharClass = Whitespace | IdentChars | Digits

  predicate InClass(c: char, charClass: CharClass) {
    match charClass
    case Whitespace => IsWhitespace(c)
    case IdentChars => IsIdentChar(c)
    case Digits => IsDigit(c)
  }

  /** Where the longest run of characters of `charClass`, starting at `pos`,
      ends. The sentinel belongs to no class, so a run stops at the end of
      the input at the latest. */
  function RunEnd(input: string, pos: nat, charClass: CharClass): (e: nat)
    ensures pos <= e
    ensures e == pos || e <= |input|
    ensures forall i :: pos <= i < e ==> i < |input| && InClass(input[i], charClass)
    ensures !InClass(CharAt(input, e), charClass)
    decreases |input| - pos
  {
    if InClass(CharAt(input, pos), charClass) then RunEnd(input, pos + 1, charClass) else pos
  }

  /** One scanning step: the token found at or after `pos` and the position
      of the character after it. */
  datatype Step = Step(token: Token, next: nat)

  /** Where the token scanned from `pos` starts: after the leading whitespace. */
  function TokenStart(input: string, pos: nat): nat {
    RunEnd(input, pos, Whitespace)
  }

  /** `next_token` as a function of the input and the cursor position:
      skip whitespace, then classify the character found there. */
  function Scan(input: string, pos: nat): (s: Step)
    ensures pos < s.next
    ensures s.token.kind == EOF <==> CharAt(input, TokenStart(input, pos)) == '\0'
    ensures s.token.kind == EOF ==>
              s.token.literal == "" && s.next == TokenStart(input, pos) + 1
    ensures s.token.kind != EOF ==>
              TokenStart(input, pos) < s.next <= |input| &&
              s.token.literal == input[TokenStart(input, pos)..s.next]
    ensures s.token.kind == EOF && NulFree(input) ==> |input| < s.next
  {
    ScanAt(input, TokenStart(input, pos))
  }

  /** The token that starts at `p`: every call consumes at least one
      character, a token other than EOF is the text between `p` and the next
      position, and EOF is found exactly at the sentinel. */
  function ScanAt(input: string, p: nat): (s: Step)
    ensures p < s.next
    ensures s.token.kind == EOF <==> CharAt(input, p) == '\0'
    ensures s.token.kind == EOF ==> s.token.literal == "" && s.next == p + 1
    ensures s.token.kind != EOF ==> s.next <= |input| && s.token.literal == input[p..s.next]
  {
    var c := CharAt(input, p);
    match c
    case '=' =>
      if CharAt(input, p + 1) == '=' then Step(Token(Eq, "=="), p + 2)
      else Step(Token(Assign, "="), p + 1)
    case ';' => Step(Token(Semicolon, ";"), p + 1)
    case ',' => Step(Token(Comma, ","), p + 1)
    case '(' => Step(Token(LParen, "("), p + 1)
    case ')' => Step(Token(RParen, ")"), p + 1)
    case '{' => Step(Token(LBrace, "{"), p + 1)
    case '}' => Step(Token(RBrace, "}"), p + 1)
    case '+' => Step(Token(Plus, "+"), p + 1)
    case '-' => Step(Token(Minus, "-"), p + 1)
    case '!' =>
      if CharAt(input, p + 1) == '=' then Step(Token(NotEq, "!="), p + 2)
      else Step(Token(Bang, "!"), p + 1)
    case '/' => Step(Token(Slash, "/"), p + 1)
    case '*' => Step(Token(Asterisk, "*"), p + 1)
    case '<' => Step(Token(Lt, "<"), p + 1)
    case '>' => Step(Token(Gt, ">"), p + 1)
    case '\0' => Step(Token(EOF, ""), p + 1)
    case _ =>
      if IsIdentChar(c) then
        var e := RunEnd(input, p, IdentChars);
        Step(Token(LookupIdent(input[p..e]), input[p..e]), e)
      else if IsDigit(c) then
        var e := RunEnd(input, p, Digits);
        Step(Token(Int, input[p..e]), e)
      else
        Step(Token(Illegal, [c]), p + 1)
  }

  /** The tokens of `input` from `pos` up to, not including, the first EOF. */
  function Tokenize(input: string, pos: nat): (toks: seq<Token>)
    ensures toks == [] <==> Scan(input, pos).token.kind == EOF
    ensures toks != [] ==> toks[0] == Scan(input, pos).token
    ensures forall t :: t in toks ==> t.kind != EOF
    decreases |input| - pos
  {
    var s := Scan(input, pos);
    if s.token.kind == EOF then [] else [s.token] + Tokenize(input, s.next)
  }

  /** The characters that are a token on their own, whatever follows them. */
  predicate IsSingleSymbol(c: char) {
    c == ';' || c == ',' || c == '(' || c == ')' || c == '{' || c == '}' ||
    c == '+' || c == '-' || c == '/' || c == '*' || c == '<' || c == '>'
  }

  /** Twelve punctuation and operator characters are tokens on their own:
      the literal is that one character and the kind is the one displayed as it. */
  lemma ScanSingleCharacter(input: string, pos: nat)
    requires IsSingleSymbol(CharAt(input, TokenStart(input, pos)))
    ensures var p := TokenStart(input, pos);
            var s := Scan(input, pos);
            p < |input| && s.token.literal == [input[p]] && IsOperator(s.token.kind) &&
            Display(s.token.kind) == s.token.literal && s.next == p + 1
  {
  }

  /** `=` and `!` look one character ahead: followed by `=` they form `==`
      or `!=` and consume two characters, otherwise they stand alone. */
  lemma ScanTwoCharacter(input: string, pos: nat)
    requires CharAt(input, TokenStart(input, pos)) in {'=', '!'}
    ensures var p := TokenStart(input, pos);
            var c := CharAt(input, p);
            var s := Scan(input, pos);
            if CharAt(input, p + 1) == '=' then
              s.token == Token(if c == '=' then Eq else NotEq, [c, '=']) && s.next == p + 2
            else
              s.token == Token(if c == '=' then Assign else Bang, [c]) && s.next == p + 1
  {
  }

  /** An identifier character starts the longest run of them; digits end it. The run is
      looked up in the keyword table and nothing after it is consumed. */
  lemma ScanIdentifier(input: string, pos: nat)
    requires IsIdentChar(CharAt(input, TokenStart(input, pos)))
    ensures var p := TokenStart(input, pos);
            var s := Scan(input, pos);
            s.next == RunEnd(input, p, IdentChars) &&
            s.token.kind == LookupIdent(s.token.literal) &&
            (s.token.kind == Ident || IsKeyword(s.token.kind))
  {
  }

  /** A digit starts the longest run of digits, an integer literal. */
  lemma ScanNumber(input: string, pos: nat)
    requires IsDigit(CharAt(input, TokenStart(input, pos)))
    ensures var s := Scan(input, pos);
            s.token.kind == Int && s.next == RunEnd(input, TokenStart(input, pos), Digits)
  {
  }

  /** Any other character is an illegal token of its own. */
  lemma ScanIllegal(input: string, pos: nat)
    requires var c := CharAt(input, TokenStart(input, pos));
             c != '\0' && c != '=' && c != '!' && !IsSingleSymbol(c) && !IsIdentChar(c) && !IsDigit(c)
    ensures var p := TokenStart(input, pos);
            Scan(input, pos) == Step(Token(Illegal, [input[p]]), p + 1)
  {
  }

  /** Past the end of the input every call yields EOF. */
  lemma ScanPastEnd(input: string, pos: nat)
    requires |input| <= pos
    ensures Scan(input, pos) == Step(Token(EOF, ""), pos + 1)
  {
  }

  /** In input without NUL characters the first EOF is final: the next call
      is EOF again, and so on forever. */
  lemma EofIsFinal(input: string, pos: nat)
    requires NulFree(input) && Scan(input, pos).token.kind == EOF
    ensures var n := Scan(input, pos).next;
            Scan(input, n) == Step(Token(EOF, ""), n + 1)
  {
    ScanPastEnd(input, Scan(input, pos).next);
  }

  /** What a token's literal says about its kind: an operator's literal is
      its display string, a keyword's literal is its reserved word, and an
      identifier's literal is not a reserved word. */
  predicate TokenAgrees(t: Token) {
    (IsOperator(t.kind) ==> t.literal == Display(t.kind)) && WordAgrees(t)
  }

  /** The part of `TokenAgrees` about words: keywords and identifiers. */
  predicate WordAgrees(t: Token) {
    (IsKeyword(t.kind) ==> t.literal == Spelling(t.kind)) &&
    (t.kind == Ident ==> LookupIdent(t.literal) == Ident)
  }

  /** The literal of an operator or punctuation token agrees with its kind. */
  lemma SymbolLiteralAgrees(input: string, pos: nat)
    requires var c := CharAt(input, TokenStart(input, pos));
             IsSingleSymbol(c) || c == '=' || c == '!'
    ensures TokenAgrees(Scan(input, pos).token)
  {
    if IsSingleSymbol(CharAt(input, TokenStart(input, pos))) {
      ScanSingleCharacter(input, pos);
    } else {
      ScanTwoCharacter(input, pos);
    }
  }

  /** The literal of a word, number, illegal or EOF token agrees with its kind. */
  lemma OtherLiteralAgrees(input: string, pos: nat)
    requires var c := CharAt(input, TokenStart(input, pos));
             !IsSingleSymbol(c) && c != '=' && c != '!'
    ensures TokenAgrees(Scan(input, pos).token)
  {
    var c := CharAt(input, TokenStart(input, pos));
    if IsIdentChar(c) {
      ScanIdentifier(input, pos);
    } else if IsDigit(c) {
      ScanNumber(input, pos);
    } else if c != '\0' {
      ScanIllegal(input, pos);
    }
  }

  /** Every scanned token's literal agrees with its kind. */
  lemma LiteralAgreesWithKind(input: string, pos: nat)
    ensures TokenAgrees(Scan(input, pos).token)
  {
    var c := CharAt(input, TokenStart(input, pos));
    if IsSingleSymbol(c) || c == '=' || c == '!' {
      SymbolLiteralAgrees(input, pos);
    } else {
      OtherLiteralAgrees(input, pos);
    }
  }

  /** No token literal contains whitespace. */
  lemma LiteralHasNoWhitespace(input: string, pos: nat)
    ensures var t := Scan(input, pos).token;
            forall i :: 0 <= i < |t.literal| ==> !IsWhitespace(t.literal[i])
  {
  }

  /** A run that reaches the end of the input ends there. */
  lemma {:induction false} RunToEnd(input: string, pos: nat, charClass: CharClass)
    requires pos <= |input|
    requires forall i :: pos <= i < |input| ==> InClass(input[i], charClass)
    ensures RunEnd(input, pos, charClass) == |input|
    decreases |input| - pos
  {
    if pos < |input| {
      RunToEnd(input, pos + 1, charClass);
    }
  }

  /** Scanning the display string of an operator gives back that operator. */
  lemma DisplayRelexes(k: TokenType)
    requires IsOperator(k)
    ensures Scan(Display(k), 0) == Step(Token(k, Display(k)), |Display(k)|)
  {
  }

  /** A non-empty word of identifier characters scans as one token: the whole word, looked
      up in the keyword table. */
  lemma WordRelexes(w: string)
    requires |w| > 0 && forall i :: 0 <= i < |w| ==> IsIdentChar(w[i])
    ensures Scan(w, 0) == Step(Token(LookupIdent(w), w), |w|)
  {
    RunToEnd(w, 0, IdentChars);
    assert w[0..|w|] == w;
  }

  /** Scanning a reserved word gives back its keyword kind. */
  lemma SpellingRelexes(k: TokenType)
    requires IsKeyword(k)
    ensures Scan(Spelling(k), 0) == Step(Token(k, Spelling(k)), |Spelling(k)|)
  {
    WordRelexes(Spelling(k));
    LookupSpelling(k);
  }

  /** The literals of a token sequence, one after another. */
  function Literals(ts: seq<Token>): string {
    if ts == [] then "" else ts[0].literal + Literals(ts[1..])
  }

  /** The text with every whitespace character dropped. */
  function RemoveWhitespace(s: string): string {
    if s == [] then ""
    else (if IsWhitespace(s[0]) then "" else [s[0]]) + RemoveWhitespace(s[1..])
  }

  lemma {:induction false} RemoveWhitespaceAppend(a: string, b: string)
    ensures RemoveWhitespace(a + b) == RemoveWhitespace(a) + RemoveWhitespace(b)
  {
    if a == [] {
      assert a + b == b;
    } else {
      assert (a + b)[1..] == a[1..] + b;
      RemoveWhitespaceAppend(a[1..], b);
    }
  }

  lemma {:induction false} RemoveWhitespaceKeeps(s: string)
    requires forall i :: 0 <= i < |s| ==> !IsWhitespace(s[i])
    ensures RemoveWhitespace(s) == s
  {
    if s != [] {
      RemoveWhitespaceKeeps(s[1..]);
    }
  }

  lemma {:induction false} RemoveWhitespaceDrops(s: string)
    requires forall i :: 0 <= i < |s| ==> IsWhitespace(s[i])
    ensures RemoveWhitespace(s) == ""
  {
    if s != [] {
      RemoveWhitespaceDrops(s[1..]);
    }
  }

  /** Nothing but whitespace is lost: in input without NUL characters, the
      literals of all tokens before the first EOF, put together, are the
      input with its whitespace removed. */
  lemma {:induction false} LiteralsRebuildInput(input: string, pos: nat)
    requires NulFree(input) && pos <= |input|
    ensures Literals(Tokenize(input, pos)) == RemoveWhitespace(input[pos..])
    decreases |input| - pos
  {
    var s := Scan(input, pos);
    var p := TokenStart(input, pos);
    RemoveWhitespaceDrops(input[pos..p]);
    if s.token.kind == EOF {
      assert input[pos..] == input[pos..p];
    } else {
      assert input[pos..] == input[pos..p] + (input[p..s.next] + input[s.next..]);
      RemoveWhitespaceAppend(input[pos..p], input[p..s.next] + input[s.next..]);
      RemoveWhitespaceAppend(input[p..s.next], input[s.next..]);
      LiteralHasNoWhitespace(input, pos);
      RemoveWhitespaceKeeps(input[p..s.next]);
      LiteralsRebuildInput(input, s.next);
      assert Tokenize(input, pos) == [s.token] + Tokenize(input, s.next);
    }
  }

  /** The lexer object: the source text and the three cursors of `lexer.rs`. */
  class Lexer {
    const input: string
    var position: nat
    var readPosition: nat
    var ch: char

    /** The cursor invariant: the read position is one ahead, and `ch` is
        the character under `position` or the sentinel. */
    ghost predicate Valid()
      reads this
    {
      IsAscii(input) && readPosition == position + 1 && ch == CharAt(input, position)
    }

    constructor (input: string)
      requires IsAscii(input)
      ensures Valid() && this.input == input
      ensures position == 0 && readPosition == 1 && ch == CharAt(input, 0)
    {
      this.input := input;
      position, readPosition, ch := 0, 0, '\0';
      new;
      ReadChar();
    }

    /** Moves the cursor one character forward. */
    method ReadChar()
      modifies this
      ensures position == old(readPosition) && readPosition == position + 1
      ensures ch == CharAt(input, position)
    {
      ch := if readPosition >= |input| then '\0' else input[readPosition];
      position := readPosition;
      readPosition := readPosition + 1;
    }

    /** The character after the current one, without moving. */
    function PeekChar(): (c: char)
      reads this
      requires Valid()
      ensures c == CharAt(input, position + 1)
    {
      if readPosition < |input| then input[readPosition] else '\0'
    }

    method SkipWhitespace()
      requires Valid()
      modifies this
      ensures Valid()
      ensures position == TokenStart(input, old(position))
    {
      while IsWhitespace(ch)
        invariant Valid()
        invariant RunEnd(input, position, Whitespace) == TokenStart(input, old(position))
        decreases |input| - position
      {
        ReadChar();
      }
    }

    method ReadIdentifier() returns (literal: string)
      requires Valid() && position <= |input|
      modifies this
      ensures Valid()
      ensures position == RunEnd(input, old(position), IdentChars)
      ensures literal == input[old(position)..position]
    {
      var start := position;
      while IsIdentChar(ch)
        invariant Valid() && start <= position <= |input|
        invariant RunEnd(input, position, IdentChars) == RunEnd(input, start, IdentChars)
        decreases |input| - position
      {
        ReadChar();
      }
      literal := input[start..position];
    }

    method ReadNumber() returns (literal: string)
      requires Valid() && position <= |input|
      modifies this
      ensures Valid()
      ensures position == RunEnd(input, old(position), Digits)
      ensures literal == input[old(position)..position]
    {
      var start := position;
      while IsDigit(ch)
        invariant Valid() && start <= position <= |input|
        invariant RunEnd(input, position, Digits) == RunEnd(input, start, Digits)
        decreases |input| - position
      {
        ReadChar();
      }
      literal := input[start..position];
    }

    /** `next_token`: one scanning step, exactly as `Scan` describes it. */
    method NextToken() returns (token: Token)
      requires Valid()
      modifies this
      ensures Valid()
      ensures Step(token, position) == Scan(input, old(position))
    {
      SkipWhitespace();
      if ch == '=' {
        if PeekChar() == '=' {
          ReadChar();
          token := Token(Eq, "==");
        } else {
          token := Token(Assign, "=");
        }
      } else if ch == ';' {
        token := Token(Semicolon, ";");
      } else if ch == ',' {
        token := Token(Comma, ",");
      } else if ch == '(' {
        token := Token(LParen, "(");
      } else if ch == ')' {
        token := Token(RParen, ")");
      } else if ch == '{' {
        token := Token(LBrace, "{");
      } else if ch == '}' {
        token := Token(RBrace, "}");
      } else if ch == '+' {
        token := Token(Plus, "+");
      } else if ch == '-' {
        token := Token(Minus, "-");
      } else if ch == '!' {
        if PeekChar() == '=' {
          ReadChar();
          token := Token(NotEq, "!=");
        } else {
          token := Token(Bang, "!");
        }
      } else if ch == '/' {
        token := Token(Slash, "/");
      } else if ch == '*' {
        token := Token(Asterisk, "*");
      } else if ch == '<' {
        token := Token(Lt, "<");
      } else if ch == '>' {
        token := Token(Gt, ">");
      } else if ch == '\0' {
        token := Token(EOF, "");
      } else if IsIdentChar(ch) {
        var literal := ReadIdentifier();
        return Token(LookupIdent(literal), literal);
      } else if IsDigit(ch) {
        var literal := ReadNumber();
        return Token(Int, literal);
      } else {
        token := Token(Illegal, [ch]);
      }
      ReadChar();
    }
  }
}

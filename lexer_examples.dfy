/** The lexer's behaviour on the inputs its own tests use: each scanning step,
    in the order the tests call `next_token`. */
module LexerExamples {

  import opened Tokens
  import opened Lexing

  /** Tokenize unrolled by one step. */
  lemma TokenizeCons(input: string, pos: nat, t: Token, next: nat)
    requires Scan(input, pos) == Step(t, next) && t.kind != EOF
    ensures Tokenize(input, pos) == [t] + Tokenize(input, next)
  {
  }

  /** The first four characters of `=+(){},;`, one token each. */
  lemma PunctuationOpening()
    ensures Scan("=+(){},;", 0) == Step(Token(Assign, "="), 1)
    ensures Scan("=+(){},;", 1) == Step(Token(Plus, "+"), 2)
    ensures Scan("=+(){},;", 2) == Step(Token(LParen, "("), 3)
    ensures Scan("=+(){},;", 3) == Step(Token(RParen, ")"), 4)
  {
  }

  /** The last four characters of `=+(){},;`, then EOF. */
  lemma PunctuationClosing()
    ensures Scan("=+(){},;", 4) == Step(Token(LBrace, "{"), 5)
    ensures Scan("=+(){},;", 5) == Step(Token(RBrace, "}"), 6)
    ensures Scan("=+(){},;", 6) == Step(Token(Comma, ","), 7)
    ensures Scan("=+(){},;", 7) == Step(Token(Semicolon, ";"), 8)
    ensures Scan("=+(){},;", 8) == Step(Token(EOF, ""), 9)
  {
  }

  /** The keyword of `let x = 5;`. */
  lemma LetSourceKeyword()
    ensures Scan("let x = 5;", 0) == Step(Token(Let, "let"), 3)
  {
    var s := "let x = 5;";
    assert TokenStart(s, 0) == 0 && RunEnd(s, 0, IdentChars) == 3 && s[0..3] == "let";
  }

  /** The name of `let x = 5;`, after the space. */
  lemma LetSourceName()
    ensures Scan("let x = 5;", 3) == Step(Token(Ident, "x"), 5)
  {
    var s := "let x = 5;";
    assert TokenStart(s, 3) == 4 && RunEnd(s, 4, IdentChars) == 5 && s[4..5] == "x";
  }

  /** The rest of `let x = 5;`: `=`, the number, `;`, then EOF. */
  lemma LetSourceSymbols()
    ensures Scan("let x = 5;", 5) == Step(Token(Assign, "="), 7)
    ensures Scan("let x = 5;", 7) == Step(Token(Int, "5"), 9)
    ensures Scan("let x = 5;", 9) == Step(Token(Semicolon, ";"), 10)
    ensures Scan("let x = 5;", 10) == Step(Token(EOF, ""), 11)
  {
    var s := "let x = 5;";
    assert TokenStart(s, 5) == 6;
    assert TokenStart(s, 7) == 8 && RunEnd(s, 8, Digits) == 9 && s[8..9] == "5";
  }

  /** `let x = 5;` is a keyword, a name, `=`, a number and `;`. */
  lemma LetTokens()
    ensures Tokenize("let x = 5;", 0) ==
      [Token(Let, "let"), Token(Ident, "x"), Token(Assign, "="), Token(Int, "5"),
       Token(Semicolon, ";")]
  {
    var s := "let x = 5;";
    LetSourceKeyword();
    LetSourceName();
    LetSourceSymbols();
    TokenizeCons(s, 9, Token(Semicolon, ";"), 10);
    TokenizeCons(s, 7, Token(Int, "5"), 9);
    TokenizeCons(s, 5, Token(Assign, "="), 7);
    TokenizeCons(s, 3, Token(Ident, "x"), 5);
    TokenizeCons(s, 0, Token(Let, "let"), 3);
  }

  /** Digits do not continue an identifier: `x1` is the name `x`, then the
      number `1`. */
  lemma DigitEndsIdentifier()
    ensures Scan("x1", 0) == Step(Token(Ident, "x"), 1)
    ensures Scan("x1", 1) == Step(Token(Int, "1"), 2)
  {
    assert RunEnd("x1", 0, IdentChars) == 1;
    assert RunEnd("x1", 1, Digits) == 2;
  }

  /** A minus sign is a token of its own, not part of the number. */
  lemma MinusBeforeNumber()
    ensures Scan("-5", 0) == Step(Token(Minus, "-"), 1)
    ensures Scan("-5", 1) == Step(Token(Int, "5"), 2)
  {
    assert RunEnd("-5", 1, Digits) == 2;
  }

  /** An embedded NUL reads as the end of the input, but the cursor moves on
      past it and the next call scans what follows. */
  lemma NulIsNotFinal()
    ensures Scan("a\0b", 1) == Step(Token(EOF, ""), 2)
    ensures Scan("a\0b", 2) == Step(Token(Ident, "b"), 3)
  {
    assert RunEnd("a\0b", 2, IdentChars) == 3;
  }
}

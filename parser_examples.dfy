/** The parser on the inputs its own test and its loop condition single out. */
module ParserExamples {

  import opened Options
  import opened Tokens
  import opened Lexing
  import opened Ast
  import opened Parsing
  import LexerExamples

  /** `let` alone: the only token never reaches the current slot while the
      peek slot is not EOF, so the program is empty. */
  lemma LetAloneIsEmpty()
    ensures ParseSource("let") == []
  {
    var s := "let";
    assert Scan(s, 0) == Step(Token(TokenType.Let, "let"), 3) by {
      assert TokenStart(s, 0) == 0 && RunEnd(s, 0, IdentChars) == 3 && s[0..3] == s;
    }
    ScanPastEnd(s, 3);
    LastTokenNeverParsed(s);
  }

  /** `let x = 5;` is one statement naming `x`, with no value. */
  lemma SingleLet()
    ensures ParseSource("let x = 5;") ==
      [Statement.Let(LetStatement(Token(TokenType.Let, "let"),
                                  Identifier(Token(Ident, "x"), "x"), None))]
  {
    LexerExamples.LetSourceKeyword();
    LexerExamples.LetSourceName();
    LexerExamples.LetSourceSymbols();
    LeadingLetIsTheProgram("let x = 5;");
  }

  /** The first token of the three-statement `let` test: the newline is
      skipped, then `let`. */
  lemma ThreeLetsFirst(input: string)
    requires input == "\nlet x = 5;\n" + "let y = 10;\n" + "let foobar = 838383;\n"
    ensures Scan(input, 0) == Step(Token(TokenType.Let, "let"), 4)
  {
    assert input[..12] == "\nlet x = 5;\n";
    assert input[0] == '\n' && input[1] == 'l' && input[2] == 'e' && input[3] == 't' && input[4] == ' ';
    assert RunEnd(input, 1, Whitespace) == 1;
    assert RunEnd(input, 4, IdentChars) == 4;
    assert RunEnd(input, 3, IdentChars) == 4;
    assert RunEnd(input, 2, IdentChars) == 4;
    assert input[1..4] == "let";
  }

  /** The second and third tokens of the test: `x`, then `=`. */
  lemma ThreeLetsNext(input: string)
    requires input == "\nlet x = 5;\n" + "let y = 10;\n" + "let foobar = 838383;\n"
    ensures Scan(input, 4) == Step(Token(Ident, "x"), 6)
    ensures Scan(input, 6).token.kind == Assign
  {
    assert input[..12] == "\nlet x = 5;\n";
    assert input[4] == ' ' && input[5] == 'x' && input[6] == ' ' && input[7] == '=' && input[8] == ' ';
    assert RunEnd(input, 5, Whitespace) == 5;
    assert RunEnd(input, 6, IdentChars) == 6;
    assert input[5..6] == "x";
    assert RunEnd(input, 7, Whitespace) == 7;
  }

  lemma ThreeLetsNulFree(input: string)
    requires input == "\nlet x = 5;\n" + "let y = 10;\n" + "let foobar = 838383;\n"
    ensures NulFree(input)
  {
    NulFreeAppend("\nlet x = 5;\n", "let y = 10;\n");
    NulFreeAppend("\nlet x = 5;\n" + "let y = 10;\n", "let foobar = 838383;\n");
  }

  /** The three-statement `let` test: the first statement's loop skips to
      EOF, so the program holds one statement, for `x`, not three. */
  lemma ThreeLetsGiveOne(input: string)
    requires input == "\nlet x = 5;\n" + "let y = 10;\n" + "let foobar = 838383;\n"
    ensures ParseSource(input) ==
      [Statement.Let(LetStatement(Token(TokenType.Let, "let"),
                                  Identifier(Token(Ident, "x"), "x"), None))]
  {
    ThreeLetsFirst(input);
    ThreeLetsNext(input);
    ThreeLetsNulFree(input);
    LeadingLetIsTheProgram(input);
  }
}

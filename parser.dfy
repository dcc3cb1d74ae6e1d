/** The parser: a two-token window over the lexer. `Window` and the functions
    over it describe each parser operation on values; the `Parser` class holds
    the window in fields and is proved to follow them. */
module Parsing {

  import opened Options
  import opened Tokens
  import opened Lexing
  import opened Ast

  /** The parser's state beside the input text: the current and peek token
      slots and the lexer's position. */
  datatype Window = Window(cur: Option<Token>, peek: Option<Token>, pos: nat)

  /** `current_token_is`: despite its name it looks at the peek slot. */
  predicate PeekIs(w: Window, k: TokenType) {
    w.peek.Some? && w.peek.value.kind == k
  }

  /** Holds from the parser's construction on: the peek slot is full, and
      only an EOF token can have left the lexer past the end of the text. */
  predicate Primed(input: string, w: Window) {
    w.peek.Some? && (w.peek.value.kind != EOF ==> w.pos <= |input|)
  }

  /** The termination measure of the parser's loops. */
  function Remaining(input: string, w: Window): nat {
    if w.pos <= |input| then |input| + 1 - w.pos else 0
  }

  /** `read_token`: the peek token becomes current and the lexer's next
      token fills the peek slot. */
  function Advance(input: string, w: Window): (r: Window)
    ensures r.cur == w.peek && r.peek.Some?
    ensures w.pos < r.pos
    ensures Primed(input, r)
  {
    var s := Scan(input, w.pos);
    Window(w.peek, Some(s.token), s.next)
  }

  /** `Parser::new` over a lexer at `pos`: two reads fill both slots. */
  function Prime(input: string, pos: nat): (r: Window)
    ensures var s1 := Scan(input, pos);
            var s2 := Scan(input, s1.next);
            r.cur == Some(s1.token) && r.peek == Some(s2.token) && r.pos == s2.next
    ensures pos < r.pos && Primed(input, r)
  {
    Advance(input, Advance(input, Window(None, None, pos)))
  }

  /** `expect_peek`: on a match the window advances one token, which puts the
      expected token in the current slot; otherwise nothing changes. */
  function PeekExpected(input: string, w: Window, k: TokenType): (res: (bool, Window))
    ensures res.0 <==> PeekIs(w, k)
    ensures res.0 ==> res.1.cur == w.peek && res.1.cur.value.kind == k && w.pos < res.1.pos
    ensures !res.0 ==> res.1 == w
  {
    if PeekIs(w, k) then (true, Advance(input, w)) else (false, w)
  }

  /** The loop that discards the rest of a `let` statement: read until the
      peek token is EOF. */
  function SkippedToEof(input: string, w: Window): (r: Window)
    requires Primed(input, w)
    ensures Primed(input, r) && PeekIs(r, EOF)
    ensures w.pos <= r.pos
    ensures PeekIs(w, EOF) ==> r == w
    decreases Remaining(input, w)
  {
    if PeekIs(w, EOF) then w else SkippedToEof(input, Advance(input, w))
  }

  /** `parse_let_statement`. The current token is taken; the statement is
      built only when the next two tokens are an identifier and `=`, and then
      everything up to EOF is skipped. */
  function LetParsed(input: string, w: Window): (res: (Option<LetStatement>, Window))
    requires Primed(input, w)
    ensures Primed(input, res.1) && w.pos <= res.1.pos
    ensures res.0.Some? <==>
            w.cur.Some? && PeekIs(w, Ident) && Scan(input, w.pos).token.kind == Assign
    ensures res.0.Some? ==>
            res.0.value == LetStatement(w.cur.value, NewIdentifier(w.peek.value), None) &&
            PeekIs(res.1, EOF)
    ensures res.0.None? ==>
            res.1 == if w.cur.Some? && PeekIs(w, Ident) then Advance(input, w).(cur := None)
                     else w.(cur := None)
  {
    if w.cur.None? then (None, w)
    else
      var current := w.cur.value;
      var e1 := PeekExpected(input, w.(cur := None), Ident);
      if !e1.0 then (None, e1.1)
      else if e1.1.cur.None? then (None, e1.1)
      else
        var name := NewIdentifier(e1.1.cur.value);
        var e2 := PeekExpected(input, e1.1.(cur := None), Assign);
        if !e2.0 then (None, e2.1)
        else (Some(LetStatement(current, name, None)), SkippedToEof(input, e2.1))
  }

  /** `parse_statement`: only a current `let` token starts a statement. */
  function StatementParsed(input: string, w: Window): (res: (Option<Statement>, Window))
    requires Primed(input, w)
    ensures Primed(input, res.1) && w.pos <= res.1.pos
    ensures (w.cur.None? || w.cur.value.kind != TokenType.Let) ==> res == (None, w)
    ensures res.0.Some? <==>
            w.cur.Some? && w.cur.value.kind == TokenType.Let &&
            PeekIs(w, Ident) && Scan(input, w.pos).token.kind == Assign
    ensures res.0.Some? ==>
            res.0.value == Statement.Let(LetStatement(w.cur.value, NewIdentifier(w.peek.value), None)) &&
            PeekIs(res.1, EOF)
  {
    if w.cur.None? then (None, w)
    else if w.cur.value.kind == TokenType.Let then
      var r := LetParsed(input, w);
      (if r.0.Some? then Some(Statement.Let(r.0.value)) else None, r.1)
    else (None, w)
  }

  /** The statements `parse_program` collects from window `w` on: while the
      peek token is not EOF, parse a statement, keep it if there is one, and
      read a token. */
  function ParseFrom(input: string, w: Window): (stmts: seq<Statement>)
    requires Primed(input, w)
    ensures PeekIs(w, EOF) ==> stmts == []
    decreases Remaining(input, w)
  {
    if PeekIs(w, EOF) then []
    else
      var r := StatementParsed(input, w);
      (if r.0.Some? then [r.0.value] else []) + ParseFrom(input, Advance(input, r.1))
  }

  lemma AppendAssociates<T>(a: seq<T>, b: seq<T>, c: seq<T>)
    ensures a + (b + c) == (a + b) + c
  {
  }

  /** Lexing, priming the parser and parsing a whole text. */
  function ParseSource(input: string): seq<Statement> {
    ParseFrom(input, Prime(input, 0))
  }

  /** `current_token_is` gives the same answer whatever the current slot holds. */
  lemma CurrentSlotIgnored(w: Window, c: Option<Token>, k: TokenType)
    ensures PeekIs(w.(cur := c), k) == PeekIs(w, k)
  {
  }

  /** What the window keeps true while the lexer feeds it: the keyword and
      identifier tokens in both slots agree with their kinds, and in text
      without NUL characters an EOF in the peek slot means the lexer has run
      past the end. */
  predicate Sound(input: string, w: Window) {
    Primed(input, w) &&
    (w.cur.Some? ==> WordAgrees(w.cur.value)) && WordAgrees(w.peek.value) &&
    (NulFree(input) && PeekIs(w, EOF) ==> |input| < w.pos)
  }

  /** A statement as the parser builds it: the `let` token, a name that is
      not a reserved word and whose value is its token's text, no value. */
  predicate WellFormed(s: Statement) {
    s.stmt.token.kind == TokenType.Let && LetLiteral(s.stmt) == "let" &&
    s.stmt.name.token.kind == Ident &&
    s.stmt.name.value == s.stmt.name.token.literal &&
    LookupIdent(s.stmt.name.value) == Ident &&
    s.stmt.value == None
  }

  lemma AdvanceSound(input: string, w: Window)
    requires w.peek.Some? ==> WordAgrees(w.peek.value)
    ensures Sound(input, Advance(input, w))
  {
    LiteralAgreesWithKind(input, w.pos);
  }

  lemma PrimeSound(input: string, pos: nat)
    ensures Sound(input, Prime(input, pos))
  {
    AdvanceSound(input, Window(None, None, pos));
    AdvanceSound(input, Advance(input, Window(None, None, pos)));
  }

  lemma {:induction false} SkippedSound(input: string, w: Window)
    requires Sound(input, w)
    ensures Sound(input, SkippedToEof(input, w))
    decreases Remaining(input, w)
  {
    if !PeekIs(w, EOF) {
      AdvanceSound(input, w);
      SkippedSound(input, Advance(input, w));
    }
  }

  /** `parse_let_statement` leaves a sound window behind, and what it builds
      is well formed. */
  lemma LetSound(input: string, w: Window)
    requires Sound(input, w) && w.cur.Some? && w.cur.value.kind == TokenType.Let
    ensures var r := LetParsed(input, w);
            Sound(input, r.1) && (r.0.Some? ==> WellFormed(Statement.Let(r.0.value)))
  {
    if PeekIs(w, Ident) {
      var w1 := Advance(input, w.(cur := None));
      AdvanceSound(input, w.(cur := None));
      if PeekIs(w1, Assign) {
        var w2 := Advance(input, w1.(cur := None));
        AdvanceSound(input, w1.(cur := None));
        SkippedSound(input, w2);
      }
    }
  }

  lemma StatementSound(input: string, w: Window)
    requires Sound(input, w)
    ensures var r := StatementParsed(input, w);
            Sound(input, r.1) && (r.0.Some? ==> WellFormed(r.0.value))
  {
    if w.cur.Some? && w.cur.value.kind == TokenType.Let {
      LetSound(input, w);
    }
  }

  /** Every statement `parse_program` collects is a well-formed `let`: its
      literal is "let" and its name's value is the identifier's text. */
  lemma {:induction false} StatementsWellFormed(input: string, w: Window)
    requires Sound(input, w)
    ensures forall s :: s in ParseFrom(input, w) ==> WellFormed(s)
    decreases Remaining(input, w)
  {
    if !PeekIs(w, EOF) {
      var r := StatementParsed(input, w);
      StatementSound(input, w);
      AdvanceSound(input, r.1);
      StatementsWellFormed(input, Advance(input, r.1));
    }
  }

  /** After a successful `let` the peek token is EOF and, in text without NUL
      characters, the lexer only yields EOF from then on: nothing more is
      parsed. */
  lemma NothingAfterLet(input: string, w: Window)
    requires NulFree(input) && Sound(input, w) && !PeekIs(w, EOF)
    requires StatementParsed(input, w).0.Some?
    ensures ParseFrom(input, w) == [StatementParsed(input, w).0.value]
  {
    var r := StatementParsed(input, w);
    StatementSound(input, w);
    ScanPastEnd(input, r.1.pos);
    assert ParseFrom(input, Advance(input, r.1)) == [];
  }

  /** In text without NUL characters a program holds at most one statement. */
  lemma {:induction false} AtMostOneStatement(input: string, w: Window)
    requires NulFree(input) && Sound(input, w)
    ensures |ParseFrom(input, w)| <= 1
    decreases Remaining(input, w)
  {
    if !PeekIs(w, EOF) {
      var r := StatementParsed(input, w);
      if r.0.Some? {
        NothingAfterLet(input, w);
      } else {
        StatementSound(input, w);
        AdvanceSound(input, r.1);
        AtMostOneStatement(input, Advance(input, r.1));
      }
    }
  }

  /** `parse_program` stops as soon as the peek token is EOF, so when the
      text holds at most one token that token is never parsed. */
  lemma LastTokenNeverParsed(input: string)
    requires Scan(input, Scan(input, 0).next).token.kind == EOF
    ensures ParseSource(input) == []
  {
  }

  /** In text without NUL characters that starts `let <name> =`, the program
      is exactly that one statement, whatever follows. */
  lemma LeadingLetIsTheProgram(input: string)
    requires NulFree(input)
    requires var s1 := Scan(input, 0);
             var s2 := Scan(input, s1.next);
             s1.token.kind == TokenType.Let && s2.token.kind == Ident &&
             Scan(input, s2.next).token.kind == Assign
    ensures var s1 := Scan(input, 0);
            ParseSource(input) ==
              [Statement.Let(LetStatement(s1.token, NewIdentifier(Scan(input, s1.next).token), None))]
  {
    PrimeSound(input, 0);
    NothingAfterLet(input, Prime(input, 0));
  }

  /** The parser object: the lexer it owns and the two token slots. */
  class Parser {
    const lexer: Lexer
    var curToken: Option<Token>
    var peekToken: Option<Token>

    /** The window the fields hold. */
    function Snapshot(): Window
      reads this, lexer
    {
      Window(curToken, peekToken, lexer.position)
    }

    ghost predicate Valid()
      reads this, lexer
    {
      lexer.Valid() && Primed(lexer.input, Snapshot())
    }

    /** `Parser::new`: two reads, so the current slot holds the lexer's
        next token and the peek slot the one after. */
    constructor (lexer: Lexer)
      requires lexer.Valid()
      modifies lexer
      ensures this.lexer == lexer && Valid()
      ensures Snapshot() == Prime(lexer.input, old(lexer.position))
    {
      this.lexer := lexer;
      curToken := None;
      peekToken := None;
      new;
      ReadToken();
      ReadToken();
    }

    method ReadToken()
      requires lexer.Valid()
      modifies this, lexer
      ensures lexer.Valid()
      ensures Snapshot() == Advance(lexer.input, old(Snapshot()))
    {
      curToken := peekToken;
      var token := lexer.NextToken();
      peekToken := Some(token);
    }

    /** `current_token_is`: reads the peek slot only. */
    function CurrentTokenIs(k: TokenType): (b: bool)
      reads this, lexer
      ensures b <==> PeekIs(Snapshot(), k)
    {
      peekToken.Some? && peekToken.value.kind == k
    }

    method ExpectPeek(k: TokenType) returns (ok: bool)
      requires Valid()
      modifies this, lexer
      ensures Valid()
      ensures (ok, Snapshot()) == PeekExpected(lexer.input, old(Snapshot()), k)
    {
      if CurrentTokenIs(k) {
        ReadToken();
        return true;
      }
      return false;
    }

    method ParseLetStatement() returns (stmt: Option<LetStatement>)
      requires Valid()
      modifies this, lexer
      ensures Valid()
      ensures (stmt, Snapshot()) == LetParsed(lexer.input, old(Snapshot()))
    {
      if curToken.None? {
        return None;
      }
      var current := curToken.value;
      curToken := None;
      var ok := ExpectPeek(Ident);
      if !ok {
        return None;
      }
      if curToken.None? {
        return None;
      }
      var name := NewIdentifier(curToken.value);
      curToken := None;
      ok := ExpectPeek(Assign);
      if !ok {
        return None;
      }
      ghost var start := Snapshot();
      while !CurrentTokenIs(EOF)
        invariant Valid()
        invariant SkippedToEof(lexer.input, Snapshot()) == SkippedToEof(lexer.input, start)
        decreases Remaining(lexer.input, Snapshot())
      {
        ReadToken();
      }
      return Some(LetStatement(current, name, None));
    }

    method ParseStatement() returns (stmt: Option<Statement>)
      requires Valid()
      modifies this, lexer
      ensures Valid()
      ensures (stmt, Snapshot()) == StatementParsed(lexer.input, old(Snapshot()))
    {
      if curToken.None? {
        return None;
      }
      if curToken.value.kind == TokenType.Let {
        var letStatement := ParseLetStatement();
        stmt := if letStatement.Some? then Some(Statement.Let(letStatement.value)) else None;
      } else {
        stmt := None;
      }
    }

    /** `parse_program`: the statements `ParseFrom` describes, pushed in order. */
    method ParseProgram() returns (program: Program)
      requires Valid()
      modifies this, lexer
      ensures Valid() && PeekIs(Snapshot(), EOF)
      ensures program.statements == ParseFrom(lexer.input, old(Snapshot()))
    {
      program := Program([]);
      while !CurrentTokenIs(EOF)
        invariant Valid()
        invariant program.statements + ParseFrom(lexer.input, Snapshot()) ==
                  ParseFrom(lexer.input, old(Snapshot()))
        decreases Remaining(lexer.input, Snapshot())
      {
        ghost var before := Snapshot();
        ghost var done := program.statements;
        var stmt := ParseStatement();
        if stmt.Some? {
          program := program.(statements := program.statements + [stmt.value]);
        }
        ReadToken();
        ghost var found := if stmt.Some? then [stmt.value] else [];
        ghost var rest := ParseFrom(lexer.input, Snapshot());
        assert ParseFrom(lexer.input, before) == found + rest;
        assert program.statements == done + found;
        AppendAssociates(done, found, rest);
      }
    }
  }

  /** Lexing and parsing a text from the start, as the `let` test does. */
  method ParseText(input: string) returns (program: Program)
    requires IsAscii(input)
    ensures program.statements == ParseSource(input)
    ensures forall s :: s in program.statements ==> WellFormed(s)
    ensures NulFree(input) ==> |program.statements| <= 1
  {
    var lexer := new Lexer(input);
    var parser := new Parser(lexer);
    program := parser.ParseProgram();
    PrimeSound(input, 0);
    StatementsWellFormed(input, Prime(input, 0));
    if NulFree(input) {
      AtMostOneStatement(input, Prime(input, 0));
    }
  }
}

/** The syntax tree: identifiers, `let` statements, statements and programs,
    with the literal each of them reports. */
module Ast {

  import opened Options
  import opened Tokens

  /** A name: the identifier token and its text. */
  datatype Identifier = Identifier(token: Token, value: string)

  /** The literal of an identifier is the literal of its token. */
  function IdentifierLiteral(id: Identifier): string {
    id.token.literal
  }

  /** `Identifier::new`: a name built from its token, whose value is the
      token's text. */
  function NewIdentifier(token: Token): (id: Identifier)
    ensures id.token == token
    ensures id.value == IdentifierLiteral(id)
  {
    Identifier(token, token.literal)
  }

  /** Expressions have no variants yet; the parser never builds one, so the
      single constructor here only gives the type a value. */
  datatype Expression = Unparsed

  /** `let <name> = <value>;` with the `let` token kept. */
  datatype LetStatement = LetStatement(token: Token, name: Identifier, value: Option<Expression>)

  /** The literal of a `let` statement is the literal of its token. */
  function LetLiteral(s: LetStatement): string {
    s.token.literal
  }

  /** The statement kinds; `let` is the only one. */
  datatype Statement = Let(stmt: LetStatement)

  /** `TokenLiteral for Statement`: every statement reports the empty string. */
  function StatementLiteral(s: Statement): (r: string)
    ensures |r| == 0
  {
    ""
  }

  datatype Program = Program(statements: seq<Statement>)

  /** `TokenLiteral for Program`: the literal of the first statement, or the
      empty string when there is none. */
  function ProgramLiteral(p: Program): (r: string)
    ensures p.statements == [] ==> r == ""
    ensures p.statements != [] ==> r == StatementLiteral(p.statements[0])
  {
    if |p.statements| == 0 then "" else StatementLiteral(p.statements[0])
  }

  /** Statements appended after the first do not change the literal. */
  lemma ProgramLiteralAppend(p: Program, more: seq<Statement>)
    requires p.statements != []
    ensures ProgramLiteral(Program(p.statements + more)) == ProgramLiteral(p)
  {
    assert (p.statements + more)[0] == p.statements[0];
  }

  /** With statements that all report "", every program reports "". */
  lemma ProgramLiteralIsEmpty(p: Program)
    ensures ProgramLiteral(p) == ""
  {
  }
}

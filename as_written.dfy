/**
 * `expect` and three of the declaration parsers of parser.py (signal, field
 * and default) exactly as they are written, next to the corrected ones in
 * `Parser`, and the inputs on which they part:
 *
 *  - `expect` builds a `SyntaxError` and returns it instead of raising it,
 *    so a delimiter of the wrong kind is accepted, and a wrong name or
 *    number surfaces as an `AttributeError` on the error object's `.value`;
 *  - `parse_field` stores `Field(name, smb, lsb)`, a name that is never
 *    bound, so every complete field declaration raises `NameError`;
 *  - `parse_default` reads `peek().kind`, an attribute tokens do not have
 *    (their kind is `.type`), so every non-empty default block raises
 *    `AttributeError`.
 */
module AsWritten {
  import opened Wrappers
  import opened Ast
  import opened Lexer
  import opened Parser
  import opened ParserProps

  /** What escapes a parser method as written. */
  datatype Raised =
    | Raise(err: ParseError)        // SyntaxError, IndexError or ValueError, as in `Parser`
    | AttributeError(attr: string)  // an attribute the object does not have
    | NameError(name: string)       // a name that is not bound

  /** What `expect` returns: the token, or the `SyntaxError` it built and did not raise. */
  datatype Expected = Matched(token: Token) | ErrorObject(kind: Kind, got: Token)

  /** `expect(kind)` as written: only reading past the end escapes. */
  function ExpectAsWritten(toks: seq<Token>, p: nat, kind: Kind): (r: Result<Expected, Raised>)
    ensures r.Ok? <==> p < |toks|
    ensures r.Ok? ==> r.value == if toks[p].kind == kind then Matched(toks[p]) else ErrorObject(kind, toks[p])
  {
    TokenAtIndex(toks, p);
    match TokenAt(toks, p)
    case Err(e) => Err(Raise(e))
    case Ok(t) => Ok(if t.kind == kind then Matched(t) else ErrorObject(kind, t))
  }

  /** `.value` on what `expect` returned: a `SyntaxError` has no such attribute. */
  function ValueOf(x: Expected): (r: Result<Token, Raised>)
    ensures r.Ok? <==> x.Matched?
  {
    match x
    case Matched(t) => Ok(t)
    case ErrorObject(_, _) => Err(AttributeError("value"))
  }

  /** `int(...)` of a token's lexeme. */
  function IntAsWritten(t: Token, base: nat): Result<int, Raised>
    requires IsRadix(base)
  {
    match IntOf(t, base)
    case Ok(n) => Ok(n)
    case Err(e) => Err(Raise(e))
  }

  /** `parse_signal` as written, at `p`. */
  function SignalAtAsWritten(toks: seq<Token>, p: nat): Result<Signal, Raised> {
    var _ :- ExpectAsWritten(toks, p, SIGNAL);
    var nameResult :- ExpectAsWritten(toks, p + 1, IDENT);
    var name :- ValueOf(nameResult);
    var _ :- ExpectAsWritten(toks, p + 2, COLON);
    var numberResult :- ExpectAsWritten(toks, p + 3, NUMBER);
    var number :- ValueOf(numberResult);
    var bitpos :- IntAsWritten(number, 10);
    var _ :- ExpectAsWritten(toks, p + 4, SEMICOL);
    Ok(Signal(name.value, bitpos))
  }

  /** `parse_field` as written, at `p`: after reading every token it builds the record from `smb`. */
  function FieldAtAsWritten(toks: seq<Token>, p: nat): Result<Field, Raised> {
    var _ :- ExpectAsWritten(toks, p, FIELD);
    var nameResult :- ExpectAsWritten(toks, p + 1, IDENT);
    var name :- ValueOf(nameResult);
    var _ :- ExpectAsWritten(toks, p + 2, COLON);
    var _ :- ExpectAsWritten(toks, p + 3, LBRACKET);
    var highResult :- ExpectAsWritten(toks, p + 4, NUMBER);
    var high :- ValueOf(highResult);
    var msb :- IntAsWritten(high, 10);
    var _ :- ExpectAsWritten(toks, p + 5, COLON);
    var lowResult :- ExpectAsWritten(toks, p + 6, NUMBER);
    var low :- ValueOf(lowResult);
    var lsb :- IntAsWritten(low, 10);
    var _ :- ExpectAsWritten(toks, p + 7, RBRACKET);
    var _ :- ExpectAsWritten(toks, p + 8, SEMICOL);
    Err(NameError("smb"))
  }

  /** What `parse_default` as written leaves: the list, and what escaped, if anything. */
  datatype Outcome = Outcome(items: seq<Assignment>, err: Option<Raised>)

  /**
   * `parse_default` as written, at `p`, appending to `acc`. The loop body
   * never completes: it raises at `.value` or at `.kind` before it appends.
   */
  function DefaultAtAsWritten(toks: seq<Token>, p: nat, acc: seq<Assignment>): Outcome {
    match ExpectAsWritten(toks, p, DEFAULT)
    case Err(e) => Outcome(acc, Some(e))
    case Ok(_) =>
    match ExpectAsWritten(toks, p + 1, LBRACE)
    case Err(e) => Outcome(acc, Some(e))
    case Ok(_) =>
    match TokenAt(toks, p + 2)
    case Err(e) => Outcome(acc, Some(Raise(e)))
    case Ok(next) =>
    if next.kind == RBRACE then
      match ExpectAsWritten(toks, p + 2, RBRACE)
      case Err(e) => Outcome(acc, Some(e))
      case Ok(_) => Outcome(acc, None)
    else
      match ExpectAsWritten(toks, p + 2, IDENT)
      case Err(e) => Outcome(acc, Some(e))
      case Ok(nameResult) =>
      match ValueOf(nameResult)
      case Err(e) => Outcome(acc, Some(e))
      case Ok(_) =>
      match TokenAt(toks, p + 3)
      case Err(e) => Outcome(acc, Some(Raise(e)))
      case Ok(_) => Outcome(acc, Some(AttributeError("kind")))
  }

  // ---------------------------------------------------------------------
  // `expect` returns its error

  /**
   * As written, `parse_signal` checks only the kinds of the name and the
   * number: the keyword, the colon and the semicolon may be any tokens.
   */
  lemma SignalAsWrittenIff(toks: seq<Token>, p: nat)
    ensures SignalAtAsWritten(toks, p).Ok? <==>
      && p + 5 <= |toks|
      && toks[p + 1].kind == IDENT && toks[p + 3].kind == NUMBER
      && ParseInt(toks[p + 3].value, 10).Some?
  {
  }

  /** `signal a , 3 ,` is stored as written; the corrected parser stops at the comma. */
  lemma WrongDelimiterAccepted()
    ensures var toks := [Tok(SIGNAL, "signal"), Tok(IDENT, "a"), Tok(COMMA, ","), Number(3), Tok(COMMA, ",")];
      && SignalAtAsWritten(toks, 0) == Ok(Signal("a", 3))
      && SignalAt(toks, 0) == Err(Expected(COLON, Tok(COMMA, ",")))
  {
    var toks := [Tok(SIGNAL, "signal"), Tok(IDENT, "a"), Tok(COMMA, ","), Number(3), Tok(COMMA, ",")];
    ParseIntRoundTrip(3, 10);
    SignalAsWrittenIff(toks, 0);
    ExpectOk(toks, 0, SIGNAL);
    ExpectOk(toks, 1, IDENT);
    ExpectOk(toks, 2, COLON);
  }

  /** `signal 3 ...`: as written the error object's `.value` raises `AttributeError`, not `SyntaxError`. */
  lemma MissingNameRaisesAttributeError(toks: seq<Token>, p: nat)
    requires p + 1 < |toks| && toks[p + 1].kind != IDENT
    ensures SignalAtAsWritten(toks, p) == Err(AttributeError("value"))
    ensures FieldAtAsWritten(toks, p) == Err(AttributeError("value"))
  {
  }

  // ---------------------------------------------------------------------
  // `smb`

  /** As written, no field declaration is ever stored. */
  lemma FieldAsWrittenNeverStores(toks: seq<Token>, p: nat)
    ensures FieldAtAsWritten(toks, p).Err?
  {
  }

  /** Every field declaration the corrected parser stores raises `NameError` as written. */
  lemma FieldAsWrittenRaisesNameError(toks: seq<Token>, p: nat)
    requires FieldAt(toks, p).Ok?
    ensures FieldAtAsWritten(toks, p) == Err(NameError("smb"))
  {
    FieldAtShape(toks, p);
  }

  // ---------------------------------------------------------------------
  // `.kind`

  /**
   * As written, a default block with an entry raises `AttributeError` for
   * `kind` and appends nothing, while the corrected parser reads it.
   */
  lemma DefaultEntryRaises(name: string, value: Value, acc: seq<Assignment>)
    ensures var toks := Render(DefaultDecl([SetField(name, value)]));
      && DefaultAtAsWritten(toks, 0, acc) == Outcome(acc, Some(AttributeError("kind")))
      && DefaultAt(toks, 0, acc) == Entries(acc + [Assignment(name, Some(ValueToken(value).value), false)], |toks|, None)
  {
    var es := [SetField(name, value)];
    var toks := Render(DefaultDecl(es));
    HoldsSlice(toks, 0, |toks|);
    assert toks[0..|toks|] == toks;
    DefaultRendered(toks, 0, es, acc);
    assert EntryRecords(es) == [EntryRecord(es[0])] + EntryRecords([]);
    TokenAtIndex(toks, 2);
    TokenAtIndex(toks, 3);
  }

  /** An empty default block is read alike as written and corrected. */
  lemma EmptyDefaultAgrees(acc: seq<Assignment>)
    ensures var toks := Render(DefaultDecl([]));
      && DefaultAtAsWritten(toks, 0, acc) == Outcome(acc, None)
      && DefaultAt(toks, 0, acc) == Entries(acc, 3, None)
  {
    var toks := Render(DefaultDecl([]));
    HoldsSlice(toks, 0, |toks|);
    assert toks[0..|toks|] == toks;
    DefaultRendered(toks, 0, [], acc);
    TokenAtIndex(toks, 2);
  }
}

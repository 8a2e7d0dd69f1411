/**
 * The recursive-descent parser of the encoding DSL (parser.py).
 *
 * `Parser` keeps a cursor `pointer` over `tokens`, the name-keyed tables
 * `signals`, `fields`, `consts`, `groups` and the ordered lists `defaults`,
 * `patterns`. Every method that changes the parser is proved against a
 * function over the token sequence and a start position: `ExpectAt`,
 * `SignalAt`, `FieldAt`, `ConstAt`, `DefaultAt` and `DocumentFrom` say
 * what each declaration parser and the top-level loop compute.
 *
 * Where the source is defective (see `AsWritten`) this model follows the
 * evident intent: a failed `expect` raises, `parse_field` stores `msb`,
 * and `parse_default` reads the token's type.
 */
module Parser {
  import opened Wrappers
  import opened Ast
  import opened Lexer

  /** The `SyntaxError`s (and the `IndexError` of reading past the end) that stop a parse. */
  datatype ParseError =
    | Expected(kind: Kind, got: Token)   // `expect(kind)` met another kind
    | BadConstValue(got: Token)          // a const value that is no number literal
    | BadDefaultValue(got: Token)        // a default value that is no number literal or identifier
    | UnexpectedToken(got: Token)        // a declaration cannot start with this token
    | Unsupported(got: Token)            // `group` and `pattern` declarations have no parser
    | BadInt(got: Token)                 // `int()` rejects the lexeme
    | OutOfTokens                        // the cursor ran past the last token

  // ---------------------------------------------------------------------
  // Integer literals: `int(s, base)`

  /** The value of a digit character in any radix up to 36; 36 for a non-digit. */
  function DigitValue(c: char): nat {
    if '0' <= c <= '9' then c as nat - '0' as nat
    else if 'a' <= c <= 'z' then c as nat - 'a' as nat + 10
    else if 'A' <= c <= 'Z' then c as nat - 'A' as nat + 10
    else 36
  }

  /** A non-empty string of digits of radix `base`. */
  predicate IsDigitString(s: string, base: nat) {
    |s| > 0 && forall i :: 0 <= i < |s| ==> DigitValue(s[i]) < base
  }

  /** The number a digit string spells in radix `base`, most significant digit first. */
  function DigitsValue(s: string, base: nat): nat {
    if |s| == 0 then 0 else DigitsValue(s[..|s| - 1], base) * base + DigitValue(s[|s| - 1])
  }

  predicate IsRadix(base: nat) {
    base == 2 || base == 10 || base == 16
  }

  /** The digits `int(s, base)` reads: a `0b`/`0B` prefix is dropped in radix 2, `0x`/`0X` in radix 16. */
  function Unprefixed(s: string, base: nat): string {
    if base == 2 && |s| >= 2 && s[0] == '0' && (s[1] == 'b' || s[1] == 'B') then s[2..]
    else if base == 16 && |s| >= 2 && s[0] == '0' && (s[1] == 'x' || s[1] == 'X') then s[2..]
    else s
  }

  /** `int(s, base)` on the literals the grammar admits; None where Python raises `ValueError`. */
  function ParseInt(s: string, base: nat): (r: Option<nat>)
    requires IsRadix(base)
    ensures r.Some? <==> IsDigitString(Unprefixed(s, base), base)
  {
    var digits := Unprefixed(s, base);
    if IsDigitString(digits, base) then Some(DigitsValue(digits, base)) else None
  }

  /** The lower-case digit character of value `d`. */
  function DigitChar(d: nat): char
    requires d < 16
  {
    "0123456789abcdef"[d]
  }

  /** The canonical digits of `n` in radix `base`, without leading zeros. */
  function ToDigits(n: nat, base: nat): (s: string)
    requires IsRadix(base)
    ensures IsDigitString(s, base)
    decreases n
  {
    if n < base then [DigitChar(n)] else ToDigits(n / base, base) + [DigitChar(n % base)]
  }

  // ---------------------------------------------------------------------
  // What each parsing step computes, as functions of the tokens and a position

  /**
   * `self.tokens[p]`, which raises `IndexError` past the end; written as a
   * walk down the list so that the verifier unfolds it only on demand.
   */
  function TokenAt(toks: seq<Token>, p: nat): (r: Result<Token, ParseError>)
    decreases p
  {
    if p >= |toks| then Err(OutOfTokens)
    else if p > 0 then TokenAt(toks[1..], p - 1)
    else Ok(toks[0])
  }

  /** `expect(kind)` at position `p`: the token there, if it has that kind. */
  function ExpectAt(toks: seq<Token>, p: nat, kind: Kind): (r: Result<Token, ParseError>)
    decreases p
  {
    if p >= |toks| then Err(OutOfTokens)
    else if p > 0 then ExpectAt(toks[1..], p - 1, kind)
    else if toks[0].kind == kind then Ok(toks[0])
    else Err(Expected(kind, toks[0]))
  }

  /** `TokenAt` is indexing, with `OutOfTokens` past the end. */
  lemma {:induction false} TokenAtIndex(toks: seq<Token>, p: nat)
    ensures p < |toks| ==> TokenAt(toks, p) == Ok(toks[p])
    ensures p >= |toks| ==> TokenAt(toks, p) == Err(OutOfTokens)
    decreases p
  {
    if p > 0 && p < |toks| {
      TokenAtIndex(toks[1..], p - 1);
    }
  }

  /** `ExpectAt` is `TokenAt` followed by the kind check. */
  lemma {:induction false} ExpectAtToken(toks: seq<Token>, p: nat, kind: Kind)
    ensures ExpectAt(toks, p, kind) ==
      match TokenAt(toks, p)
      case Err(e) => Err(e)
      case Ok(t) => if t.kind == kind then Ok(t) else Err(Expected(kind, t))
    decreases p
  {
    if p > 0 && p < |toks| {
      ExpectAtToken(toks[1..], p - 1, kind);
    }
  }

  /** `int(t.value, base)`. */
  function IntOf(t: Token, base: nat): Result<int, ParseError>
    requires IsRadix(base)
  {
    match ParseInt(t.value, base)
    case Some(n) => Ok(n)
    case None => Err(BadInt(t))
  }

  /** `signal IDENT : NUMBER ;` at `p`: five tokens. */
  function SignalAt(toks: seq<Token>, p: nat): Result<Signal, ParseError> {
    match ExpectAt(toks, p, SIGNAL)
    case Err(e) => Err(e)
    case Ok(_) =>
    match ExpectAt(toks, p + 1, IDENT)
    case Err(e) => Err(e)
    case Ok(name) =>
    match ExpectAt(toks, p + 2, COLON)
    case Err(e) => Err(e)
    case Ok(_) =>
    match ExpectAt(toks, p + 3, NUMBER)
    case Err(e) => Err(e)
    case Ok(number) =>
    match IntOf(number, 10)
    case Err(e) => Err(e)
    case Ok(bitpos) =>
    match ExpectAt(toks, p + 4, SEMICOL)
    case Err(e) => Err(e)
    case Ok(_) => Ok(Signal(name.value, bitpos))
  }

  /** `field IDENT : [ NUMBER : NUMBER ] ;` at `p`: nine tokens; the first number is the msb. */
  function FieldAt(toks: seq<Token>, p: nat): Result<Field, ParseError> {
    match ExpectAt(toks, p, FIELD)
    case Err(e) => Err(e)
    case Ok(_) =>
    match ExpectAt(toks, p + 1, IDENT)
    case Err(e) => Err(e)
    case Ok(name) =>
    match ExpectAt(toks, p + 2, COLON)
    case Err(e) => Err(e)
    case Ok(_) =>
    match ExpectAt(toks, p + 3, LBRACKET)
    case Err(e) => Err(e)
    case Ok(_) =>
    match ExpectAt(toks, p + 4, NUMBER)
    case Err(e) => Err(e)
    case Ok(high) =>
    match IntOf(high, 10)
    case Err(e) => Err(e)
    case Ok(msb) =>
    match ExpectAt(toks, p + 5, COLON)
    case Err(e) => Err(e)
    case Ok(_) =>
    match ExpectAt(toks, p + 6, NUMBER)
    case Err(e) => Err(e)
    case Ok(low) =>
    match IntOf(low, 10)
    case Err(e) => Err(e)
    case Ok(lsb) =>
    match ExpectAt(toks, p + 7, RBRACKET)
    case Err(e) => Err(e)
    case Ok(_) =>
    match ExpectAt(toks, p + 8, SEMICOL)
    case Err(e) => Err(e)
    case Ok(_) => Ok(Field(name.value, msb, lsb))
  }

  /** The radix a const value is read in, by the kind of its literal. */
  function RadixOf(t: Token): (r: Result<nat, ParseError>)
    ensures r.Ok? ==> IsRadix(r.value)
  {
    if t.kind == NUMBER then Ok(10)
    else if t.kind == BIN_NUMBER then Ok(2)
    else if t.kind == HEX_NUMBER then Ok(16)
    else Err(BadConstValue(t))
  }

  /** `const IDENT = literal ;` at `p`: five tokens. */
  function ConstAt(toks: seq<Token>, p: nat): Result<Const, ParseError> {
    match ExpectAt(toks, p, CONST)
    case Err(e) => Err(e)
    case Ok(_) =>
    match ExpectAt(toks, p + 1, IDENT)
    case Err(e) => Err(e)
    case Ok(name) =>
    match ExpectAt(toks, p + 2, ASSIGN)
    case Err(e) => Err(e)
    case Ok(_) =>
    match TokenAt(toks, p + 3)
    case Err(e) => Err(e)
    case Ok(literal) =>
    match RadixOf(literal)
    case Err(e) => Err(e)
    case Ok(radix) =>
    match IntOf(literal, radix)
    case Err(e) => Err(e)
    case Ok(value) =>
    match ExpectAt(toks, p + 4, SEMICOL)
    case Err(e) => Err(e)
    case Ok(_) => Ok(Const(name.value, value))
  }

  /** The token kinds a default entry may assign. */
  predicate IsDefaultValue(k: Kind) {
    k == NUMBER || k == BIN_NUMBER || k == HEX_NUMBER || k == IDENT
  }

  /**
   * One entry of a default block at `p`: `IDENT : value ;` is a field
   * assignment carrying the value's lexeme, `IDENT ;` a signal assertion.
   * On success, also the position after the entry.
   */
  function EntryAt(toks: seq<Token>, p: nat): (r: Result<(Assignment, nat), ParseError>)
    ensures r.Ok? ==> p < r.value.1
  {
    match ExpectAt(toks, p, IDENT)
    case Err(e) => Err(e)
    case Ok(name) =>
    match TokenAt(toks, p + 1)
    case Err(e) => Err(e)
    case Ok(next) =>
    if next.kind == COLON then
      match TokenAt(toks, p + 2)
      case Err(e) => Err(e)
      case Ok(value) =>
      if !IsDefaultValue(value.kind) then Err(BadDefaultValue(value))
      else
        match ExpectAt(toks, p + 3, SEMICOL)
        case Err(e) => Err(e)
        case Ok(_) => Ok((Assignment(name.value, Some(value.value), false), p + 4))
    else
      match ExpectAt(toks, p + 1, SEMICOL)
      case Err(e) => Err(e)
      case Ok(_) => Ok((Assignment(name.value, None, true), p + 2))
  }

  /**
   * The defaults list after reading entries from `p`, and where reading
   * stopped: at the closing brace, or at an error. The source appends each
   * entry as it is read, so an error keeps the entries before it.
   */
  datatype Entries = Entries(items: seq<Assignment>, next: nat, err: Option<ParseError>)

  /** The entries of a default block from `p` up to its closing brace, appended to `acc`. */
  function EntriesFrom(toks: seq<Token>, p: nat, acc: seq<Assignment>): (r: Entries)
    ensures r.err.None? ==> p <= r.next < |toks| && toks[r.next].kind == RBRACE
    decreases |toks| - p, 1
  {
    if p >= |toks| then Entries(acc, p, Some(OutOfTokens))
    else if toks[p].kind == RBRACE then Entries(acc, p, None)
    else EntryFrom(toks, p, acc)
  }

  /** One entry at `p`, appended to `acc`, then the rest of the block. */
  function EntryFrom(toks: seq<Token>, p: nat, acc: seq<Assignment>): (r: Entries)
    requires p < |toks|
    ensures r.err.None? ==> p < r.next < |toks| && toks[r.next].kind == RBRACE
    decreases |toks| - p, 0
  {
    match EntryAt(toks, p)
    case Err(e) => Entries(acc, p, Some(e))
    case Ok((a, q)) => EntriesFrom(toks, q, acc + [a])
  }

  /**
   * `default { entries }` at `p`, appending to the list `acc`; on success
   * `next` is the position after the closing brace.
   */
  function DefaultAt(toks: seq<Token>, p: nat, acc: seq<Assignment>): (r: Entries)
    ensures r.err.None? ==> p < r.next <= |toks|
  {
    match ExpectAt(toks, p, DEFAULT)
    case Err(e) => Entries(acc, p, Some(e))
    case Ok(_) =>
      match ExpectAt(toks, p + 1, LBRACE)
      case Err(e) => Entries(acc, p, Some(e))
      case Ok(_) =>
        var body := EntriesFrom(toks, p + 2, acc);
        if body.err.Some? then body else body.(next := body.next + 1)
  }

  /** The parser's tables. */
  datatype Tables = Tables(
    signals: map<string, Signal>,
    fields: map<string, Field>,
    consts: map<string, Const>,
    groups: map<string, Group>,
    defaults: seq<Assignment>,
    patterns: seq<Pattern>)

  /** The tables after a parse, and the error that stopped it, if any. */
  datatype Parsed = Parsed(tables: Tables, err: Option<ParseError>)

  /** One turn of the top-level loop: the parse ends, or goes on at `next` with new tables. */
  datatype Step = Done(result: Parsed) | Continue(next: nat, tables: Tables)

  /**
   * One turn of the top-level loop at `p` with tables `t`: dispatch on the
   * leading token's kind. A signal, field or const declaration stores its
   * record under its name, replacing an earlier one; a default block
   * appends its entries, keeping them even when it stops at an error; EOF
   * ends the parse; anything else is an error.
   */
  function DeclarationAt(toks: seq<Token>, p: nat, t: Tables): (r: Step)
    requires p < |toks|
    ensures r.Continue? ==> p < r.next <= |toks|
  {
    var lead := toks[p];
    if lead.kind == SIGNAL then
      match SignalAt(toks, p)
      case Err(e) => Done(Parsed(t, Some(e)))
      case Ok(s) => Continue(p + 5, t.(signals := t.signals[s.name := s]))
    else if lead.kind == FIELD then
      match FieldAt(toks, p)
      case Err(e) => Done(Parsed(t, Some(e)))
      case Ok(f) => Continue(p + 9, t.(fields := t.fields[f.name := f]))
    else if lead.kind == CONST then
      match ConstAt(toks, p)
      case Err(e) => Done(Parsed(t, Some(e)))
      case Ok(c) => Continue(p + 5, t.(consts := t.consts[c.name := c]))
    else if lead.kind == DEFAULT then
      var d := DefaultAt(toks, p, t.defaults);
      var t' := t.(defaults := d.items);
      if d.err.Some? then Done(Parsed(t', d.err)) else Continue(d.next, t')
    else if lead.kind == GROUP || lead.kind == PATTERN then Done(Parsed(t, Some(Unsupported(lead))))
    else if lead.kind == EOF then Done(Parsed(t, None))
    else Done(Parsed(t, Some(UnexpectedToken(lead))))
  }

  /** The top-level loop from `p` with tables `t`, until EOF, an error or the end of the tokens. */
  function DocumentFrom(toks: seq<Token>, p: nat, t: Tables): Parsed
    requires p <= |toks|
    decreases |toks| - p, 1
  {
    if p == |toks| then Parsed(t, None) else TurnFrom(toks, p, t)
  }

  /** One turn of the top-level loop at `p`, then the rest of the loop. */
  function TurnFrom(toks: seq<Token>, p: nat, t: Tables): Parsed
    requires p < |toks|
    decreases |toks| - p, 0
  {
    match DeclarationAt(toks, p, t)
    case Done(r) => r
    case Continue(q, t') => DocumentFrom(toks, q, t')
  }

  // ---------------------------------------------------------------------
  // The parser object

  class Parser {
    var signals: map<string, Signal>
    var fields: map<string, Field>
    var consts: map<string, Const>
    var groups: map<string, Group>
    var defaults: seq<Assignment>
    var patterns: seq<Pattern>
    var pointer: nat
    var tokens: seq<Token>

    /** The cursor never runs past the end of the tokens. */
    ghost predicate Valid()
      reads this
    {
      pointer <= |tokens|
    }

    /** The tables, as one value. */
    function State(): Tables
      reads this`signals, this`fields, this`consts, this`groups, this`defaults, this`patterns
    {
      Tables(signals, fields, consts, groups, defaults, patterns)
    }

    /** Empty tables and lists. */
    constructor()
      ensures Valid()
      ensures State() == Tables(map[], map[], map[], map[], [], [])
      ensures pointer == 0 && tokens == []
    {
      signals := map[];
      fields := map[];
      consts := map[];
      groups := map[];
      defaults := [];
      patterns := [];
      pointer := 0;
      tokens := [];
    }

    /** `at_end`. */
    predicate AtEnd()
      reads this
    {
      pointer >= |tokens|
    }

    /** `peek`: the token under the cursor, without moving it. */
    method Peek() returns (r: Result<Token, ParseError>)
      requires Valid()
      ensures r.Ok? <==> !AtEnd()
      ensures r.Ok? ==> r.value == tokens[pointer]
      ensures r == TokenAt(tokens, pointer)
    {
      TokenAtIndex(tokens, pointer);
      if pointer >= |tokens| {
        return Err(OutOfTokens);
      }
      r := Ok(tokens[pointer]);
    }

    /** `advance`: the token under the cursor, moving the cursor past it. */
    method Advance() returns (r: Result<Token, ParseError>)
      requires Valid()
      modifies this`pointer
      ensures Valid()
      ensures r == TokenAt(tokens, old(pointer))
      ensures pointer == if r.Ok? then old(pointer) + 1 else old(pointer)
    {
      TokenAtIndex(tokens, pointer);
      if pointer >= |tokens| {
        return Err(OutOfTokens);
      }
      var token := tokens[pointer];
      pointer := pointer + 1;
      r := Ok(token);
    }

    /** `expect(kind)`: consume one token and fail unless it has that kind. */
    method Expect(kind: Kind) returns (r: Result<Token, ParseError>)
      requires Valid()
      modifies this`pointer
      ensures Valid()
      ensures r == ExpectAt(tokens, old(pointer), kind)
      ensures pointer == if old(pointer) < |tokens| then old(pointer) + 1 else old(pointer)
    {
      ExpectAtToken(tokens, pointer, kind);
      TokenAtIndex(tokens, pointer);
      var token :- Advance();
      if token.kind != kind {
        return Err(Expected(kind, token));
      }
      r := Ok(token);
    }

    /** `parse_signal`. */
    method ParseSignal() returns (r: Result<(), ParseError>)
      requires Valid()
      modifies this`pointer, this`signals
      ensures Valid()
      ensures match SignalAt(tokens, old(pointer))
        case Ok(s) => r.Ok? && pointer == old(pointer) + 5 && signals == old(signals)[s.name := s]
        case Err(e) => r == Err(e) && signals == old(signals)
    {
      var _ :- Expect(SIGNAL);
      var name :- Expect(IDENT);
      var _ :- Expect(COLON);
      var number :- Expect(NUMBER);
      var bitpos :- IntOf(number, 10);
      var _ :- Expect(SEMICOL);
      signals := signals[name.value := Signal(name.value, bitpos)];
      r := Ok(());
    }

    /** `parse_field`. */
    method ParseField() returns (r: Result<(), ParseError>)
      requires Valid()
      modifies this`pointer, this`fields
      ensures Valid()
      ensures match FieldAt(tokens, old(pointer))
        case Ok(f) => r.Ok? && pointer == old(pointer) + 9 && fields == old(fields)[f.name := f]
        case Err(e) => r == Err(e) && fields == old(fields)
    {
      var _ :- Expect(FIELD);
      var name :- Expect(IDENT);
      var _ :- Expect(COLON);
      var _ :- Expect(LBRACKET);
      var high :- Expect(NUMBER);
      var msb :- IntOf(high, 10);
      var _ :- Expect(COLON);
      var low :- Expect(NUMBER);
      var lsb :- IntOf(low, 10);
      var _ :- Expect(RBRACKET);
      var _ :- Expect(SEMICOL);
      fields := fields[name.value := Field(name.value, msb, lsb)];
      r := Ok(());
    }

    /** `parse_const`. */
    method ParseConst() returns (r: Result<(), ParseError>)
      requires Valid()
      modifies this`pointer, this`consts
      ensures Valid()
      ensures match ConstAt(tokens, old(pointer))
        case Ok(c) => r.Ok? && pointer == old(pointer) + 5 && consts == old(consts)[c.name := c]
        case Err(e) => r == Err(e) && consts == old(consts)
    {
      var _ :- Expect(CONST);
      var name :- Expect(IDENT);
      var _ :- Expect(ASSIGN);
      var literal :- Advance();
      var value: int;
      if literal.kind == NUMBER {
        value :- IntOf(literal, 10);
      } else if literal.kind == BIN_NUMBER {
        value :- IntOf(literal, 2);
      } else if literal.kind == HEX_NUMBER {
        value :- IntOf(literal, 16);
      } else {
        return Err(BadConstValue(literal));
      }
      var _ :- Expect(SEMICOL);
      consts := consts[name.value := Const(name.value, value)];
      r := Ok(());
    }

    /**
     * One turn of `parse_default`'s loop: `IDENT : value ;` is a field
     * assignment carrying the value's lexeme, `IDENT ;` a signal assertion.
     */
    method ParseEntry() returns (r: Result<Assignment, ParseError>)
      requires Valid()
      modifies this`pointer
      ensures Valid()
      ensures var e := EntryAt(tokens, old(pointer));
        && (e.Ok? ==> r == Ok(e.value.0) && pointer == e.value.1)
        && (e.Err? ==> r == Err(e.error))
    {
      var name := Expect(IDENT);
      if name.Err? { return Err(name.error); }
      var look := Peek();
      if look.Err? { return Err(look.error); }
      if look.value.kind == COLON {
        var colon := Advance();
        var value := Advance();
        if value.Err? { return Err(value.error); }
        if !IsDefaultValue(value.value.kind) {
          return Err(BadDefaultValue(value.value));
        }
        var semicolon := Expect(SEMICOL);
        if semicolon.Err? { return Err(semicolon.error); }
        r := Ok(Assignment(name.value.value, Some(value.value.value), false));
      } else {
        var semicolon := Expect(SEMICOL);
        if semicolon.Err? { return Err(semicolon.error); }
        r := Ok(Assignment(name.value.value, None, true));
      }
    }

    /** `parse_default`: entries are appended one by one, so those read before an error stay. */
    method ParseDefault() returns (r: Result<(), ParseError>)
      requires Valid()
      modifies this`pointer, this`defaults
      ensures Valid()
      ensures var d := DefaultAt(tokens, old(pointer), old(defaults));
        && defaults == d.items
        && (d.err.None? ==> r.Ok? && pointer == d.next)
        && (d.err.Some? ==> r == Err(d.err.value))
    {
      var keyword := Expect(DEFAULT);
      if keyword.Err? { return Err(keyword.error); }
      var brace := Expect(LBRACE);
      if brace.Err? { return Err(brace.error); }
      ghost var body := EntriesFrom(tokens, pointer, defaults);
      while true
        invariant Valid()
        invariant EntriesFrom(tokens, pointer, defaults) == body
        decreases |tokens| - pointer
      {
        var next := Peek();
        if next.Err? { return Err(next.error); }
        if next.value.kind == RBRACE {
          break;
        }
        var entry := ParseEntry();
        if entry.Err? { return Err(entry.error); }
        defaults := defaults + [entry.value];
      }
      ExpectAtToken(tokens, pointer, RBRACE);
      var close := Expect(RBRACE);
      r := Ok(());
    }

    /**
     * `parse`: the top-level loop over `toks`, adding to the tables this
     * parser already holds. The result is None when the loop ends at EOF or
     * at the end of the tokens, and the error that stopped it otherwise.
     */
    method Parse(toks: seq<Token>) returns (err: Option<ParseError>)
      modifies this
      ensures Valid() && tokens == toks
      ensures Parsed(State(), err) == DocumentFrom(toks, 0, old(State()))
    {
      pointer := 0;
      tokens := toks;
      while !AtEnd()
        invariant Valid() && tokens == toks
        invariant DocumentFrom(toks, pointer, State()) == DocumentFrom(toks, 0, old(State()))
        decreases |tokens| - pointer
      {
        var peeked := Peek();
        var token := peeked.value;
        var r: Result<(), ParseError>;
        if token.kind == SIGNAL {
          r := ParseSignal();
        } else if token.kind == FIELD {
          r := ParseField();
        } else if token.kind == CONST {
          r := ParseConst();
        } else if token.kind == DEFAULT {
          r := ParseDefault();
        } else if token.kind == GROUP || token.kind == PATTERN {
          return Some(Unsupported(token));
        } else if token.kind == EOF {
          return None;
        } else {
          return Some(UnexpectedToken(token));
        }
        if r.Err? {
          return Some(r.error);
        }
      }
      err := None;
    }
  }
}

/**
 * What the parser promises about whole inputs: integer literals round-trip
 * through `int()`, every number literal the lexer yields is one `int()`
 * accepts, a rendered sequence of declarations parses back into the
 * tables it describes, and a parse only ever adds to the tables.
 */
module ParserProps {
  import opened Wrappers
  import opened Ast
  import opened Lexer
  import opened Parser

  // ---------------------------------------------------------------------
  // Integer literals

  lemma DigitCharValue(d: nat)
    requires d < 16
    ensures DigitValue(DigitChar(d)) == d
  {
  }

  /** The canonical digits of `n` spell `n`. */
  lemma {:induction false} ToDigitsValue(n: nat, base: nat)
    requires IsRadix(base)
    ensures DigitsValue(ToDigits(n, base), base) == n
    decreases n
  {
    if n < base {
      DigitCharValue(n);
      assert ToDigits(n, base)[..0] == [];
    } else {
      ToDigitsValue(n / base, base);
      DigitCharValue(n % base);
      var s := ToDigits(n, base);
      assert s[..|s| - 1] == ToDigits(n / base, base);
    }
  }

  /** `int(str(n), base) == n`: the canonical digits read back as the number. */
  lemma ParseIntRoundTrip(n: nat, base: nat)
    requires IsRadix(base)
    ensures ParseInt(ToDigits(n, base), base) == Some(n)
  {
    ToDigitsValue(n, base);
    var s := ToDigits(n, base);
    if |s| >= 2 {
      assert DigitValue(s[1]) < base;
    }
    assert Unprefixed(s, base) == s;
  }

  /** `int("0b..." , 2)` and `int("0x...", 16)` accept the prefixed spellings too. */
  lemma PrefixedRoundTrip(n: nat)
    ensures ParseInt("0b" + ToDigits(n, 2), 2) == Some(n)
    ensures ParseInt("0x" + ToDigits(n, 16), 16) == Some(n)
  {
    ToDigitsValue(n, 2);
    ToDigitsValue(n, 16);
    assert ("0b" + ToDigits(n, 2))[2..] == ToDigits(n, 2);
    assert ("0x" + ToDigits(n, 16))[2..] == ToDigits(n, 16);
  }

  /** `int()` rejects an empty lexeme and a lone prefix. */
  lemma ParseIntRejects(base: nat)
    requires IsRadix(base)
    ensures ParseInt("", base).None?
    ensures ParseInt("0b", 2).None? && ParseInt("0x", 16).None?
  {
    assert "0b"[2..] == [];
    assert "0x"[2..] == [];
  }

  // ---------------------------------------------------------------------
  // Lexer and parser agree on number literals

  /** Where a number literal alternative matches, `int()` accepts the matched text in its radix. */
  lemma MatchedLiteralDecodes(code: string, p: nat, e: nat, k: Kind)
    requires p <= |code|
    requires k == NUMBER || k == BIN_NUMBER || k == HEX_NUMBER
    requires MatchKind(k, code, p) == Some(e)
    ensures var t := Token(k, code[p..e], 0, 0);
      RadixOf(t).Ok? && ParseInt(code[p..e], RadixOf(t).value).Some?
  {
    var text := code[p..e];
    var skip := if k == NUMBER then 0 else 2;
    var base := if k == NUMBER then 10 else if k == BIN_NUMBER then 2 else 16;
    var cls := if k == NUMBER then Digits else if k == BIN_NUMBER then BinDigits else HexDigits;
    var prefix := if k == NUMBER then "" else if k == BIN_NUMBER then "0b" else "0x";
    assert MatchPrefixedRun(code, p, prefix, cls) == Some(e);
    assert e == RunEnd(code, p + skip, cls);
    if k != NUMBER {
      StartsWithAt(code, p, prefix, 0);
      StartsWithAt(code, p, prefix, 1);
      assert text[0] == '0' && text[1] == prefix[1];
    }
    assert Unprefixed(text, base) == text[skip..];
    assert p + skip < e && |text| == e - p;
    assert text[skip..] == code[p + skip..e];
    RunIsDigitString(code, p + skip, e, cls, base);
  }

  lemma StartsWithAt(code: string, p: nat, s: string, i: nat)
    requires StartsWith(code, p, s) && i < |s|
    ensures p + i < |code| && code[p + i] == s[i]
  {
    assert code[p..p + |s|][i] == code[p + i];
  }

  /** A non-empty run of one of the three digit classes spells a digit string of its radix. */
  lemma RunIsDigitString(code: string, a: nat, e: nat, cls: CharClass, base: nat)
    requires a < e <= |code|
    requires (cls == Digits && base == 10) || (cls == BinDigits && base == 2) || (cls == HexDigits && base == 16)
    requires forall q :: a <= q < e ==> InClass(code[q], cls)
    ensures IsDigitString(code[a..e], base)
  {
    forall i | 0 <= i < e - a
      ensures DigitValue(code[a..e][i]) < base
    {
      assert code[a..e][i] == code[a + i];
      assert InClass(code[a + i], cls);
    }
  }

  /**
   * Every NUMBER, BIN_NUMBER or HEX_NUMBER token `Tokenize` produces is
   * read by `int()` without error in the radix `parse_const` picks for it.
   */
  lemma LexedLiteralsDecode(code: string, tokens: seq<Token>, i: nat)
    requires DescribesTokens(code, Matches(code), tokens)
    requires i < |tokens| && RadixOf(tokens[i]).Ok?
    ensures IntOf(tokens[i], RadixOf(tokens[i]).value).Ok?
  {
    var ms := Matches(code);
    var idx := Significant(ms, |ms|);
    var j := idx[i];
    var m := ms[j];
    NoReclassification(code, j);
    assert tokens[i] == TokenFor(code, ms, j);
    FindIterSound(MatchAt, code, 0);
    FirstIsEarliest(code, m.start, m.kind, m.end);
    MatchedLiteralDecodes(code, m.start, m.end, m.kind);
  }

  // ---------------------------------------------------------------------
  // Declarations and the tokens that spell them

  /** The radix a const literal is written in. */
  datatype Radix = Binary | Decimal | Hexadecimal

  /** The value of a default entry: a number literal in some radix, or the name of a const. */
  datatype Value = Num(n: nat, radix: Radix) | Ref(ident: string)

  /** One entry of a default block: `name : value ;` or `name ;`. */
  datatype Entry = SetField(name: string, value: Value) | RaiseSignal(name: string)

  /** A declaration of the language, as the parser's tables record it. */
  datatype Decl =
    | SignalDecl(name: string, bitpos: nat)
    | FieldDecl(name: string, msb: nat, lsb: nat)
    | ConstDecl(name: string, value: nat, radix: Radix)
    | DefaultDecl(entries: seq<Entry>)

  /** A token as the parser sees it: only its kind and lexeme matter. */
  function Tok(k: Kind, v: string): Token {
    Token(k, v, 1, 0)
  }

  function Number(n: nat): Token {
    Tok(NUMBER, ToDigits(n, 10))
  }

  /** The literal spelling `n` in radix `r`, with the `0b`/`0x` prefix the lexer requires. */
  function Literal(n: nat, r: Radix): Token {
    match r
    case Binary => Tok(BIN_NUMBER, "0b" + ToDigits(n, 2))
    case Decimal => Number(n)
    case Hexadecimal => Tok(HEX_NUMBER, "0x" + ToDigits(n, 16))
  }

  /** The token a default value is written as. */
  function ValueToken(v: Value): Token {
    match v
    case Num(n, radix) => Literal(n, radix)
    case Ref(ident) => Tok(IDENT, ident)
  }

  function RenderEntry(e: Entry): seq<Token> {
    match e
    case SetField(name, value) => [Tok(IDENT, name), Tok(COLON, ":"), ValueToken(value), Tok(SEMICOL, ";")]
    case RaiseSignal(name) => [Tok(IDENT, name), Tok(SEMICOL, ";")]
  }

  function RenderEntries(es: seq<Entry>): seq<Token> {
    if |es| == 0 then [] else RenderEntry(es[0]) + RenderEntries(es[1..])
  }

  /** The tokens of one declaration. */
  function Render(d: Decl): seq<Token> {
    match d
    case SignalDecl(name, bitpos) =>
      [Tok(SIGNAL, "signal"), Tok(IDENT, name), Tok(COLON, ":"), Number(bitpos), Tok(SEMICOL, ";")]
    case FieldDecl(name, msb, lsb) =>
      [Tok(FIELD, "field"), Tok(IDENT, name), Tok(COLON, ":"), Tok(LBRACKET, "["), Number(msb),
       Tok(COLON, ":"), Number(lsb), Tok(RBRACKET, "]"), Tok(SEMICOL, ";")]
    case ConstDecl(name, value, radix) =>
      [Tok(CONST, "const"), Tok(IDENT, name), Tok(ASSIGN, "="), Literal(value, radix), Tok(SEMICOL, ";")]
    case DefaultDecl(entries) =>
      [Tok(DEFAULT, "default"), Tok(LBRACE, "{")] + RenderEntries(entries) + [Tok(RBRACE, "}")]
  }

  function RenderAll(ds: seq<Decl>): seq<Token> {
    if |ds| == 0 then [] else Render(ds[0]) + RenderAll(ds[1..])
  }

  /** The record a default entry becomes: the value keeps its lexeme. */
  function EntryRecord(e: Entry): Assignment {
    match e
    case SetField(name, value) => Assignment(name, Some(ValueToken(value).value), false)
    case RaiseSignal(name) => Assignment(name, None, true)
  }

  function EntryRecords(es: seq<Entry>): seq<Assignment> {
    if |es| == 0 then [] else [EntryRecord(es[0])] + EntryRecords(es[1..])
  }

  /**
   * What a declaration does to the tables: a signal, field or const is
   * stored under its name, replacing any earlier one; a default block
   * appends its entries.
   */
  function Apply(d: Decl, t: Tables): Tables {
    match d
    case SignalDecl(name, bitpos) => t.(signals := t.signals[name := Signal(name, bitpos)])
    case FieldDecl(name, msb, lsb) => t.(fields := t.fields[name := Field(name, msb, lsb)])
    case ConstDecl(name, value, _) => t.(consts := t.consts[name := Const(name, value)])
    case DefaultDecl(entries) => t.(defaults := t.defaults + EntryRecords(entries))
  }

  function ApplyAll(ds: seq<Decl>, t: Tables): Tables
    decreases |ds|
  {
    if |ds| == 0 then t else ApplyAll(ds[1..], Apply(ds[0], t))
  }

  /**
   * `toks` holds `r` from position `p` on, token by token. It is stated
   * by recursion from the last token rather than as a slice equality, so
   * that a proof sees the tokens it asks for and no others.
   */
  predicate Holds(toks: seq<Token>, p: nat, r: seq<Token>)
    decreases |r|
  {
    if |r| == 0 then p <= |toks|
    else Holds(toks, p, r[..|r| - 1]) && p + |r| <= |toks| && toks[p + |r| - 1] == r[|r| - 1]
  }

  lemma {:induction false} HoldsAt(toks: seq<Token>, p: nat, r: seq<Token>, i: nat)
    requires Holds(toks, p, r) && i < |r|
    ensures p + i < |toks| && toks[p + i] == r[i]
    decreases |r|
  {
    if i < |r| - 1 {
      HoldsAt(toks, p, r[..|r| - 1], i);
    }
  }

  lemma HoldsBound(toks: seq<Token>, p: nat, r: seq<Token>)
    requires Holds(toks, p, r)
    ensures p + |r| <= |toks|
  {
  }

  lemma {:induction false} HoldsSplit(toks: seq<Token>, p: nat, a: seq<Token>, b: seq<Token>)
    requires Holds(toks, p, a + b)
    ensures Holds(toks, p, a) && Holds(toks, p + |a|, b)
    decreases |b|
  {
    if |b| == 0 {
      assert a + b == a;
    } else {
      var c := a + b;
      assert c[..|c| - 1] == a + b[..|b| - 1];
      HoldsSplit(toks, p, a, b[..|b| - 1]);
    }
  }

  /** The `n` tokens from `p` on hold at `p`. */
  lemma {:induction false} HoldsSlice(toks: seq<Token>, p: nat, n: nat)
    requires p + n <= |toks|
    ensures Holds(toks, p, toks[p..p + n])
    decreases n
  {
    if n > 0 {
      assert toks[p..p + n][..n - 1] == toks[p..p + n - 1];
      HoldsSlice(toks, p, n - 1);
    }
  }

  /** `expect(kind)` succeeds on a token of that kind. */
  lemma ExpectHit(toks: seq<Token>, q: nat, kind: Kind)
    requires q < |toks| && toks[q].kind == kind
    ensures ExpectAt(toks, q, kind) == Ok(toks[q])
  {
    ExpectAtToken(toks, q, kind);
    TokenAtIndex(toks, q);
  }

  lemma LiteralValue(n: nat, r: Radix)
    ensures RadixOf(Literal(n, r)).Ok?
    ensures IntOf(Literal(n, r), RadixOf(Literal(n, r)).value) == Ok(n)
  {
    var t := Literal(n, r);
    assert RadixOf(t).Ok? && ParseInt(t.value, RadixOf(t).value) == Some(n) by {
      PrefixedRoundTrip(n);
      ParseIntRoundTrip(n, 10);
    }
  }

  /** `expect(kind)` at `q` succeeds exactly on a token of that kind, and yields it. */
  lemma ExpectOk(toks: seq<Token>, q: nat, kind: Kind)
    ensures ExpectAt(toks, q, kind).Ok? <==> q < |toks| && toks[q].kind == kind
    ensures ExpectAt(toks, q, kind).Ok? ==> ExpectAt(toks, q, kind).value == toks[q]
  {
    ExpectAtToken(toks, q, kind);
    TokenAtIndex(toks, q);
  }

  /**
   * `parse_signal` accepts exactly `signal IDENT : NUMBER ;` whose number
   * `int()` reads, and builds the signal from the name and that number.
   */
  lemma SignalAtIff(toks: seq<Token>, p: nat)
    ensures SignalAt(toks, p).Ok? <==>
      && p + 5 <= |toks|
      && toks[p].kind == SIGNAL && toks[p + 1].kind == IDENT && toks[p + 2].kind == COLON
      && toks[p + 3].kind == NUMBER && toks[p + 4].kind == SEMICOL
      && ParseInt(toks[p + 3].value, 10).Some?
    ensures SignalAt(toks, p).Ok? ==>
      SignalAt(toks, p).value == Signal(toks[p + 1].value, ParseInt(toks[p + 3].value, 10).value)
  {
    ExpectOk(toks, p, SIGNAL);
    ExpectOk(toks, p + 1, IDENT);
    ExpectOk(toks, p + 2, COLON);
    ExpectOk(toks, p + 3, NUMBER);
    ExpectOk(toks, p + 4, SEMICOL);
  }

  /** The tokens of `field IDENT : [ NUMBER : NUMBER ] ;` whose numbers `int()` reads. */
  predicate FieldShape(toks: seq<Token>, p: nat) {
    && p + 9 <= |toks|
    && toks[p].kind == FIELD && toks[p + 1].kind == IDENT && toks[p + 2].kind == COLON
    && toks[p + 3].kind == LBRACKET && toks[p + 4].kind == NUMBER && toks[p + 5].kind == COLON
    && toks[p + 6].kind == NUMBER && toks[p + 7].kind == RBRACKET && toks[p + 8].kind == SEMICOL
    && ParseInt(toks[p + 4].value, 10).Some? && ParseInt(toks[p + 6].value, 10).Some?
  }

  /** `parse_field` accepts exactly the field shape; the first number is the msb. */
  lemma FieldAtIff(toks: seq<Token>, p: nat)
    ensures FieldAt(toks, p).Ok? <==> FieldShape(toks, p)
    ensures FieldAt(toks, p).Ok? ==>
      FieldAt(toks, p).value ==
        Field(toks[p + 1].value, ParseInt(toks[p + 4].value, 10).value, ParseInt(toks[p + 6].value, 10).value)
  {
    if FieldAt(toks, p).Ok? {
      FieldAtShape(toks, p);
    }
    if FieldShape(toks, p) {
      ShapeFieldAt(toks, p);
    }
  }

  lemma FieldAtShape(toks: seq<Token>, p: nat)
    requires FieldAt(toks, p).Ok?
    ensures FieldShape(toks, p)
  {
    ExpectOk(toks, p, FIELD);
    ExpectOk(toks, p + 1, IDENT);
    ExpectOk(toks, p + 2, COLON);
    ExpectOk(toks, p + 3, LBRACKET);
    ExpectOk(toks, p + 4, NUMBER);
    ExpectOk(toks, p + 5, COLON);
    ExpectOk(toks, p + 6, NUMBER);
    ExpectOk(toks, p + 7, RBRACKET);
    ExpectOk(toks, p + 8, SEMICOL);
  }

  lemma ShapeFieldAt(toks: seq<Token>, p: nat)
    requires FieldShape(toks, p)
    ensures FieldAt(toks, p) ==
      Ok(Field(toks[p + 1].value, ParseInt(toks[p + 4].value, 10).value, ParseInt(toks[p + 6].value, 10).value))
  {
    ExpectHit(toks, p, FIELD);
    ExpectHit(toks, p + 1, IDENT);
    ExpectHit(toks, p + 2, COLON);
    ExpectHit(toks, p + 3, LBRACKET);
    ExpectHit(toks, p + 4, NUMBER);
    ExpectHit(toks, p + 5, COLON);
    ExpectHit(toks, p + 6, NUMBER);
    ExpectHit(toks, p + 7, RBRACKET);
    ExpectHit(toks, p + 8, SEMICOL);
  }

  /**
   * `parse_const` accepts exactly `const IDENT = literal ;` with a
   * NUMBER, BIN_NUMBER or HEX_NUMBER literal that `int()` reads in radix
   * 10, 2 or 16 respectively.
   */
  lemma ConstAtIff(toks: seq<Token>, p: nat)
    ensures ConstAt(toks, p).Ok? <==>
      && p + 5 <= |toks|
      && toks[p].kind == CONST && toks[p + 1].kind == IDENT && toks[p + 2].kind == ASSIGN
      && RadixOf(toks[p + 3]).Ok? && toks[p + 4].kind == SEMICOL
      && ParseInt(toks[p + 3].value, RadixOf(toks[p + 3]).value).Some?
    ensures ConstAt(toks, p).Ok? ==>
      ConstAt(toks, p).value ==
        Const(toks[p + 1].value, ParseInt(toks[p + 3].value, RadixOf(toks[p + 3]).value).value)
  {
    ExpectOk(toks, p, CONST);
    ExpectOk(toks, p + 1, IDENT);
    ExpectOk(toks, p + 2, ASSIGN);
    TokenAtIndex(toks, p + 3);
    ExpectOk(toks, p + 4, SEMICOL);
  }

  /** The tokens of a rendered signal declaration, one by one. */
  lemma SignalTokens(toks: seq<Token>, p: nat, name: string, bitpos: nat)
    requires Holds(toks, p, Render(SignalDecl(name, bitpos)))
    ensures p + 5 <= |toks|
    ensures toks[p].kind == SIGNAL && toks[p + 1] == Tok(IDENT, name) && toks[p + 2].kind == COLON
    ensures toks[p + 3] == Number(bitpos) && toks[p + 4].kind == SEMICOL
  {
    var r := Render(SignalDecl(name, bitpos));
    HoldsAt(toks, p, r, 0);
    HoldsAt(toks, p, r, 1);
    HoldsAt(toks, p, r, 2);
    HoldsAt(toks, p, r, 3);
    HoldsAt(toks, p, r, 4);
  }

  /** A rendered signal declaration parses back into its record. */
  lemma SignalRendered(toks: seq<Token>, p: nat, name: string, bitpos: nat)
    requires Holds(toks, p, Render(SignalDecl(name, bitpos)))
    ensures SignalAt(toks, p) == Ok(Signal(name, bitpos))
  {
    SignalTokens(toks, p, name, bitpos);
    ExpectHit(toks, p, SIGNAL);
    ExpectHit(toks, p + 1, IDENT);
    ExpectHit(toks, p + 2, COLON);
    ExpectHit(toks, p + 3, NUMBER);
    ExpectHit(toks, p + 4, SEMICOL);
    ParseIntRoundTrip(bitpos, 10);
  }

  /** The tokens of a rendered field declaration, one by one. */
  lemma FieldTokens(toks: seq<Token>, p: nat, name: string, msb: nat, lsb: nat)
    requires Holds(toks, p, Render(FieldDecl(name, msb, lsb)))
    ensures p + 9 <= |toks|
    ensures toks[p].kind == FIELD && toks[p + 1] == Tok(IDENT, name) && toks[p + 2].kind == COLON
    ensures toks[p + 3].kind == LBRACKET && toks[p + 4] == Number(msb) && toks[p + 5].kind == COLON
    ensures toks[p + 6] == Number(lsb) && toks[p + 7].kind == RBRACKET && toks[p + 8].kind == SEMICOL
  {
    var r := Render(FieldDecl(name, msb, lsb));
    HoldsAt(toks, p, r, 0);
    HoldsAt(toks, p, r, 1);
    HoldsAt(toks, p, r, 2);
    HoldsAt(toks, p, r, 3);
    HoldsAt(toks, p, r, 4);
    HoldsAt(toks, p, r, 5);
    HoldsAt(toks, p, r, 6);
    HoldsAt(toks, p, r, 7);
    HoldsAt(toks, p, r, 8);
  }

  /** A rendered field declaration parses back into its record, msb first. */
  lemma FieldRendered(toks: seq<Token>, p: nat, name: string, msb: nat, lsb: nat)
    requires Holds(toks, p, Render(FieldDecl(name, msb, lsb)))
    ensures FieldAt(toks, p) == Ok(Field(name, msb, lsb))
  {
    FieldTokens(toks, p, name, msb, lsb);
    ExpectHit(toks, p, FIELD);
    ExpectHit(toks, p + 1, IDENT);
    ExpectHit(toks, p + 2, COLON);
    ExpectHit(toks, p + 3, LBRACKET);
    ExpectHit(toks, p + 4, NUMBER);
    ExpectHit(toks, p + 5, COLON);
    ExpectHit(toks, p + 6, NUMBER);
    ExpectHit(toks, p + 7, RBRACKET);
    ExpectHit(toks, p + 8, SEMICOL);
    ParseIntRoundTrip(msb, 10);
    ParseIntRoundTrip(lsb, 10);
  }

  /** The tokens of a rendered const declaration, one by one. */
  lemma ConstTokens(toks: seq<Token>, p: nat, name: string, value: nat, radix: Radix)
    requires Holds(toks, p, Render(ConstDecl(name, value, radix)))
    ensures p + 5 <= |toks|
    ensures toks[p].kind == CONST && toks[p + 1] == Tok(IDENT, name) && toks[p + 2].kind == ASSIGN
    ensures toks[p + 3] == Literal(value, radix) && toks[p + 4].kind == SEMICOL
  {
    var r := Render(ConstDecl(name, value, radix));
    HoldsAt(toks, p, r, 0);
    HoldsAt(toks, p, r, 1);
    HoldsAt(toks, p, r, 2);
    HoldsAt(toks, p, r, 3);
    HoldsAt(toks, p, r, 4);
  }

  /** A rendered const declaration parses back into its value, in whichever radix it is written. */
  lemma ConstRendered(toks: seq<Token>, p: nat, name: string, value: nat, radix: Radix)
    requires Holds(toks, p, Render(ConstDecl(name, value, radix)))
    ensures ConstAt(toks, p) == Ok(Const(name, value))
  {
    ConstTokens(toks, p, name, value, radix);
    ExpectHit(toks, p, CONST);
    ExpectHit(toks, p + 1, IDENT);
    ExpectHit(toks, p + 2, ASSIGN);
    TokenAtIndex(toks, p + 3);
    ExpectHit(toks, p + 4, SEMICOL);
    LiteralValue(value, radix);
  }

  /** The number of tokens a default entry is written with. */
  function EntryWidth(e: Entry): nat {
    if e.SetField? then 4 else 2
  }

  /** The tokens of a rendered default entry, one by one. */
  lemma EntryTokens(toks: seq<Token>, p: nat, e: Entry)
    requires Holds(toks, p, RenderEntry(e))
    ensures p + EntryWidth(e) <= |toks| && toks[p] == Tok(IDENT, e.name)
    ensures e.SetField? ==>
      toks[p + 1].kind == COLON && toks[p + 2] == ValueToken(e.value) && toks[p + 3].kind == SEMICOL
    ensures e.RaiseSignal? ==> toks[p + 1].kind == SEMICOL
  {
    var r := RenderEntry(e);
    HoldsAt(toks, p, r, 0);
    HoldsAt(toks, p, r, 1);
    if e.SetField? {
      HoldsAt(toks, p, r, 2);
      HoldsAt(toks, p, r, 3);
    }
  }

  /**
   * The tokens of a default entry: `IDENT : value ;` with a NUMBER,
   * BIN_NUMBER, HEX_NUMBER or IDENT value, or `IDENT ;`.
   */
  predicate EntryShape(toks: seq<Token>, p: nat) {
    && p + 2 <= |toks| && toks[p].kind == IDENT
    && if toks[p + 1].kind == COLON
       then p + 4 <= |toks| && IsDefaultValue(toks[p + 2].kind) && toks[p + 3].kind == SEMICOL
       else toks[p + 1].kind == SEMICOL
  }

  /**
   * The entry loop reads an entry exactly on the entry shape: a value
   * entry keeps the value's lexeme, whatever its kind, and a bare one is a
   * signal assertion.
   */
  lemma EntryAtIff(toks: seq<Token>, p: nat)
    ensures EntryAt(toks, p).Ok? <==> EntryShape(toks, p)
    ensures EntryAt(toks, p).Ok? ==>
      EntryAt(toks, p).value ==
        if toks[p + 1].kind == COLON then (Assignment(toks[p].value, Some(toks[p + 2].value), false), p + 4)
        else (Assignment(toks[p].value, None, true), p + 2)
  {
    ExpectOk(toks, p, IDENT);
    TokenAtIndex(toks, p + 1);
    TokenAtIndex(toks, p + 2);
    ExpectOk(toks, p + 1, SEMICOL);
    ExpectOk(toks, p + 3, SEMICOL);
  }

  /** After `IDENT :`, a value of any other kind is a `SyntaxError` naming that token. */
  lemma DefaultValueRejected(toks: seq<Token>, p: nat)
    requires p + 3 <= |toks| && toks[p].kind == IDENT && toks[p + 1].kind == COLON
    requires !IsDefaultValue(toks[p + 2].kind)
    ensures EntryAt(toks, p) == Err(BadDefaultValue(toks[p + 2]))
  {
    ExpectHit(toks, p, IDENT);
    TokenAtIndex(toks, p + 1);
    TokenAtIndex(toks, p + 2);
  }

  /** A rendered default entry is read as its record, and reading resumes just after it. */
  lemma EntryRendered(toks: seq<Token>, p: nat, e: Entry)
    requires Holds(toks, p, RenderEntry(e))
    ensures p < |toks| && toks[p].kind == IDENT
    ensures EntryAt(toks, p) == Ok((EntryRecord(e), p + EntryWidth(e)))
  {
    EntryTokens(toks, p, e);
    ExpectHit(toks, p, IDENT);
    TokenAtIndex(toks, p + 1);
    if e.SetField? {
      TokenAtIndex(toks, p + 2);
      ExpectHit(toks, p + 3, SEMICOL);
    } else {
      ExpectHit(toks, p + 1, SEMICOL);
    }
  }

  /** `toks` holds the rendering of each of `es` in turn, from `p` on. */
  predicate HoldsEntries(toks: seq<Token>, p: nat, es: seq<Entry>)
    decreases |es|, 1
  {
    if |es| == 0 then p <= |toks| else HoldsFirstEntry(toks, p, es)
  }

  /** `toks` holds the rendering of the first of `es` at `p`, and of the others after it. */
  predicate HoldsFirstEntry(toks: seq<Token>, p: nat, es: seq<Entry>)
    requires |es| > 0
    decreases |es|, 0
  {
    Holds(toks, p, RenderEntry(es[0])) && HoldsEntries(toks, p + EntryWidth(es[0]), es[1..])
  }

  lemma {:induction false} HoldsEntriesRendered(toks: seq<Token>, p: nat, es: seq<Entry>)
    requires Holds(toks, p, RenderEntries(es))
    ensures HoldsEntries(toks, p, es)
    decreases |es|
  {
    if |es| == 0 {
      HoldsBound(toks, p, RenderEntries(es));
    } else {
      HoldsSplit(toks, p, RenderEntry(es[0]), RenderEntries(es[1..]));
      assert |RenderEntry(es[0])| == EntryWidth(es[0]);
      HoldsEntriesRendered(toks, p + EntryWidth(es[0]), es[1..]);
      assert HoldsFirstEntry(toks, p, es);
    }
  }

  /**
   * The first of a run of rendered entries, seen from the entry loop: it
   * goes on after that entry's tokens with its record appended, and the
   * rest of the run follows.
   */
  lemma EntryTurnRendered(toks: seq<Token>, p: nat, es: seq<Entry>, acc: seq<Assignment>)
    requires |es| > 0 && HoldsFirstEntry(toks, p, es)
    ensures p + EntryWidth(es[0]) <= |toks| && HoldsEntries(toks, p + EntryWidth(es[0]), es[1..])
    ensures EntriesFrom(toks, p, acc) == EntriesFrom(toks, p + EntryWidth(es[0]), acc + [EntryRecord(es[0])])
  {
    EntryRendered(toks, p, es[0]);
    assert EntriesFrom(toks, p, acc) == EntryFrom(toks, p, acc);
  }

  /** After a run of rendered entries ending at `e`, the entry loop goes on there with all of them appended. */
  lemma {:induction false} EntriesRead(toks: seq<Token>, p: nat, es: seq<Entry>, acc: seq<Assignment>, e: nat)
    requires HoldsEntries(toks, p, es) && e == p + EntriesWidth(es)
    ensures e <= |toks|
    ensures EntriesFrom(toks, p, acc) == EntriesFrom(toks, e, acc + EntryRecords(es))
    decreases |es|
  {
    RecordsAppended(acc, es);
    if |es| > 0 {
      var q, acc' := p + EntryWidth(es[0]), acc + [EntryRecord(es[0])];
      EntryTurnRendered(toks, p, es, acc);
      EntriesRead(toks, q, es[1..], acc', e);
    }
  }

  lemma RecordsAppended(acc: seq<Assignment>, es: seq<Entry>)
    ensures |es| == 0 ==> acc + EntryRecords(es) == acc
    ensures |es| > 0 ==> acc + [EntryRecord(es[0])] + EntryRecords(es[1..]) == acc + EntryRecords(es)
  {
    if |es| > 0 {
      assert EntryRecords(es) == [EntryRecord(es[0])] + EntryRecords(es[1..]);
    }
  }

  /**
   * Entries are appended as they are read: after a run of rendered
   * entries, reading goes on from their end with all of them appended,
   * whatever follows.
   */
  lemma EntriesRendered(toks: seq<Token>, p: nat, es: seq<Entry>, acc: seq<Assignment>)
    requires Holds(toks, p, RenderEntries(es))
    ensures p + |RenderEntries(es)| <= |toks|
    ensures EntriesFrom(toks, p, acc) ==
      EntriesFrom(toks, p + |RenderEntries(es)|, acc + EntryRecords(es))
  {
    HoldsEntriesRendered(toks, p, es);
    EntriesRead(toks, p, es, acc, p + EntriesWidth(es));
    EntriesWidthRendered(es);
  }

  /** A rendered default block appends its entries and ends after its closing brace. */
  lemma DefaultRendered(toks: seq<Token>, p: nat, es: seq<Entry>, acc: seq<Assignment>)
    requires Holds(toks, p, Render(DefaultDecl(es)))
    ensures DefaultAt(toks, p, acc) ==
      Entries(acc + EntryRecords(es), p + |Render(DefaultDecl(es))|, None)
  {
    var q, acc' := p + 2 + |RenderEntries(es)|, acc + EntryRecords(es);
    DefaultTokens(toks, p, es);
    ExpectHit(toks, p, DEFAULT);
    ExpectHit(toks, p + 1, LBRACE);
    EntriesRendered(toks, p + 2, es, acc);
    assert EntriesFrom(toks, p + 2, acc) == EntriesFrom(toks, q, acc');
    assert EntriesFrom(toks, q, acc') == Entries(acc', q, None);
  }

  /** The tokens of a rendered default block: its head, its entries and its closing brace. */
  lemma DefaultTokens(toks: seq<Token>, p: nat, es: seq<Entry>)
    requires Holds(toks, p, Render(DefaultDecl(es)))
    ensures var q := p + 2 + |RenderEntries(es)|;
      && q < |toks| && q + 1 == p + |Render(DefaultDecl(es))|
      && toks[p].kind == DEFAULT && toks[p + 1].kind == LBRACE
      && Holds(toks, p + 2, RenderEntries(es)) && toks[q].kind == RBRACE
  {
    var r := Render(DefaultDecl(es));
    var head := [Tok(DEFAULT, "default"), Tok(LBRACE, "{")];
    var body := RenderEntries(es);
    var tail := [Tok(RBRACE, "}")];
    HoldsSplit(toks, p, head + body, tail);
    HoldsSplit(toks, p, head, body);
    HoldsAt(toks, p, head, 0);
    HoldsAt(toks, p, head, 1);
    assert p + |head + body| == p + 2 + |body|;
    HoldsAt(toks, p + 2 + |body|, tail, 0);
  }

  /** One rendered declaration: the top-level loop applies it and carries on after its tokens. */
  lemma DeclRendered(toks: seq<Token>, p: nat, d: Decl, t: Tables)
    requires Holds(toks, p, Render(d))
    ensures p < |toks| && DeclarationAt(toks, p, t) == Continue(p + |Render(d)|, Apply(d, t))
  {
    HoldsAt(toks, p, Render(d), 0);
    match d
    case SignalDecl(name, bitpos) => SignalRendered(toks, p, name, bitpos);
    case FieldDecl(name, msb, lsb) => FieldRendered(toks, p, name, msb, lsb);
    case ConstDecl(name, value, radix) => ConstRendered(toks, p, name, value, radix);
    case DefaultDecl(es) => DefaultRendered(toks, p, es, t.defaults);
  }

  /** The number of tokens a declaration is written with. */
  function Width(d: Decl): nat {
    match d
    case SignalDecl(_, _) => 5
    case FieldDecl(_, _, _) => 9
    case ConstDecl(_, _, _) => 5
    case DefaultDecl(es) => 3 + EntriesWidth(es)
  }

  function EntriesWidth(es: seq<Entry>): nat {
    if |es| == 0 then 0 else EntryWidth(es[0]) + EntriesWidth(es[1..])
  }

  function Widths(ds: seq<Decl>): nat {
    if |ds| == 0 then 0 else Width(ds[0]) + Widths(ds[1..])
  }

  lemma {:induction false} EntriesWidthRendered(es: seq<Entry>)
    ensures |RenderEntries(es)| == EntriesWidth(es)
  {
    if |es| > 0 {
      EntriesWidthRendered(es[1..]);
    }
  }

  lemma WidthRendered(d: Decl)
    ensures |Render(d)| == Width(d)
  {
    if d.DefaultDecl? {
      EntriesWidthRendered(d.entries);
    }
  }

  lemma {:induction false} WidthsRendered(ds: seq<Decl>)
    ensures |RenderAll(ds)| == Widths(ds)
  {
    if |ds| > 0 {
      WidthRendered(ds[0]);
      WidthsRendered(ds[1..]);
    }
  }

  /** `toks` holds the rendering of each of `ds` in turn, from `p` on. */
  predicate HoldsEach(toks: seq<Token>, p: nat, ds: seq<Decl>)
    decreases |ds|, 1
  {
    if |ds| == 0 then p <= |toks| else HoldsFirst(toks, p, ds)
  }

  /** `toks` holds the rendering of the first of `ds` at `p`, and of the others after it. */
  predicate HoldsFirst(toks: seq<Token>, p: nat, ds: seq<Decl>)
    requires |ds| > 0
    decreases |ds|, 0
  {
    Holds(toks, p, Render(ds[0])) && HoldsEach(toks, p + Width(ds[0]), ds[1..])
  }

  lemma {:induction false} HoldsEachRendered(toks: seq<Token>, p: nat, ds: seq<Decl>)
    requires Holds(toks, p, RenderAll(ds))
    ensures HoldsEach(toks, p, ds)
    decreases |ds|
  {
    if |ds| == 0 {
      HoldsBound(toks, p, RenderAll(ds));
    } else {
      HoldsSplit(toks, p, Render(ds[0]), RenderAll(ds[1..]));
      WidthRendered(ds[0]);
      HoldsEachRendered(toks, p + Width(ds[0]), ds[1..]);
      assert HoldsFirst(toks, p, ds);
    }
  }

  /**
   * The first of a run of rendered declarations, seen from the top-level
   * loop: it goes on after that declaration's tokens with it applied, and
   * the rest of the run follows.
   */
  lemma DeclTurnRendered(toks: seq<Token>, p: nat, ds: seq<Decl>, t: Tables)
    requires |ds| > 0 && HoldsFirst(toks, p, ds)
    ensures p + Width(ds[0]) <= |toks| && HoldsEach(toks, p + Width(ds[0]), ds[1..])
    ensures DocumentFrom(toks, p, t) == DocumentFrom(toks, p + Width(ds[0]), Apply(ds[0], t))
  {
    var d := ds[0];
    DeclRendered(toks, p, d, t);
    WidthRendered(d);
    DocumentSteps(toks, p, t, p + Width(d), Apply(d, t));
  }

  /** After a run of rendered declarations, the top-level loop goes on with all of them applied. */
  lemma {:induction false} DeclsRead(toks: seq<Token>, p: nat, ds: seq<Decl>, t: Tables, e: nat)
    requires HoldsEach(toks, p, ds) && e == p + Widths(ds)
    ensures e <= |toks|
    ensures DocumentFrom(toks, p, t) == DocumentFrom(toks, e, ApplyAll(ds, t))
    decreases |ds|
  {
    if |ds| > 0 {
      var q, t' := p + Width(ds[0]), Apply(ds[0], t);
      DeclTurnRendered(toks, p, ds, t);
      DeclsRead(toks, q, ds[1..], t', e);
    }
  }

  /**
   * Round trip: rendered declarations, followed by EOF or by nothing at
   * all, parse without error into the tables they describe.
   */
  lemma DocumentRendered(toks: seq<Token>, p: nat, ds: seq<Decl>, t: Tables)
    requires Holds(toks, p, RenderAll(ds))
    requires var q := p + |RenderAll(ds)|; q == |toks| || (q < |toks| && toks[q].kind == EOF)
    ensures DocumentFrom(toks, p, t) == Parsed(ApplyAll(ds, t), None)
  {
    HoldsEachRendered(toks, p, ds);
    DeclsRead(toks, p, ds, t, p + Widths(ds));
    WidthsRendered(ds);
    DocumentEnds(toks, p + Widths(ds), ApplyAll(ds, t));
  }

  /** The loop stops without error at EOF and at the end of the tokens. */
  lemma DocumentEnds(toks: seq<Token>, p: nat, t: Tables)
    requires p == |toks| || (p < |toks| && toks[p].kind == EOF)
    ensures DocumentFrom(toks, p, t) == Parsed(t, None)
  {
  }

  /**
   * A leading token that starts no declaration and is not EOF stops the
   * parse with an error naming it, the tables unchanged: `group` and
   * `pattern` as unsupported, any other as unexpected.
   */
  lemma LeadingTokenRejected(toks: seq<Token>, p: nat, t: Tables)
    requires p < |toks| && toks[p].kind !in {SIGNAL, FIELD, CONST, DEFAULT, EOF}
    ensures DocumentFrom(toks, p, t) ==
      Parsed(t, Some(if toks[p].kind in {GROUP, PATTERN} then Unsupported(toks[p]) else UnexpectedToken(toks[p])))
  {
  }

  /** A declaration that lets the loop go on hands it the position after it and the new tables. */
  lemma DocumentSteps(toks: seq<Token>, p: nat, t: Tables, q: nat, t': Tables)
    requires p < |toks| && DeclarationAt(toks, p, t) == Continue(q, t')
    ensures q <= |toks| && DocumentFrom(toks, p, t) == DocumentFrom(toks, q, t')
  {
  }

  /** A token list made of rendered declarations and a final EOF parses into the tables they describe. */
  lemma ParseRendered(ds: seq<Decl>, t: Tables)
    ensures DocumentFrom(RenderAll(ds) + [Tok(EOF, "")], 0, t) == Parsed(ApplyAll(ds, t), None)
  {
    var toks := RenderAll(ds) + [Tok(EOF, "")];
    HoldsSlice(toks, 0, |toks|);
    assert toks[0..|toks|] == RenderAll(ds) + [Tok(EOF, "")];
    HoldsSplit(toks, 0, RenderAll(ds), [Tok(EOF, "")]);
    DocumentRendered(toks, 0, ds, t);
  }

  /** A later declaration of the same name replaces the earlier one. */
  lemma LaterSignalWins(name: string, first: nat, second: nat, t: Tables)
    ensures var r := DocumentFrom(RenderAll([SignalDecl(name, first), SignalDecl(name, second)]) + [Tok(EOF, "")], 0, t);
      r.err.None? && name in r.tables.signals && r.tables.signals[name] == Signal(name, second)
  {
    var ds := [SignalDecl(name, first), SignalDecl(name, second)];
    ParseRendered(ds, t);
    var t1 := Apply(ds[0], t);
    assert ApplyAll(ds, t) == ApplyAll(ds[1..], t1);
    assert ApplyAll(ds[1..], t1) == ApplyAll([], Apply(ds[1], t1));
  }

  // ---------------------------------------------------------------------
  // A parse only adds to the tables

  /** Reading default entries only appends to the list. */
  lemma {:induction false} EntriesFromExtends(toks: seq<Token>, p: nat, acc: seq<Assignment>)
    ensures acc <= EntriesFrom(toks, p, acc).items
    decreases |toks| - p
  {
    if p < |toks| && toks[p].kind != RBRACE {
      match EntryAt(toks, p)
      case Err(_) =>
      case Ok((a, q)) =>
        EntriesFromExtends(toks, q, acc + [a]);
    }
  }

  /** A default block, read to its end or to an error, only appends to the list. */
  lemma DefaultAtExtends(toks: seq<Token>, p: nat, acc: seq<Assignment>)
    ensures acc <= DefaultAt(toks, p, acc).items
  {
    EntriesFromExtends(toks, p + 2, acc);
  }

  /** When the entries end without error, the closing `expect("RBRACE")` succeeds. */
  lemma ClosingBraceExpected(toks: seq<Token>, p: nat, acc: seq<Assignment>)
    ensures var r := EntriesFrom(toks, p, acc);
      r.err.None? ==> r.next < |toks| && ExpectAt(toks, r.next, RBRACE) == Ok(toks[r.next])
  {
    var r := EntriesFrom(toks, p, acc);
    if r.err.None? {
      ExpectHit(toks, r.next, RBRACE);
    }
  }

  /**
   * One declaration never removes anything: keys stay, defaults only
   * grow, groups and patterns are untouched. A declaration that fails
   * leaves the tables as they were, except that a default block keeps the
   * entries it read before the error.
   */
  lemma DeclarationOnlyAdds(toks: seq<Token>, p: nat, t: Tables)
    requires p < |toks|
    ensures match DeclarationAt(toks, p, t)
      case Continue(_, t') =>
        && t.signals.Keys <= t'.signals.Keys && t.fields.Keys <= t'.fields.Keys
        && t.consts.Keys <= t'.consts.Keys && t.defaults <= t'.defaults
        && t'.groups == t.groups && t'.patterns == t.patterns
      case Done(r) =>
        && (toks[p].kind != DEFAULT ==> r.tables == t)
        && (toks[p].kind == DEFAULT ==> r.tables == t.(defaults := r.tables.defaults) && t.defaults <= r.tables.defaults)
  {
    DefaultAtExtends(toks, p, t.defaults);
  }

  /** A whole parse never removes anything from the tables it starts with. */
  lemma {:induction false} DocumentOnlyAdds(toks: seq<Token>, p: nat, t: Tables)
    requires p <= |toks|
    ensures var r := DocumentFrom(toks, p, t).tables;
      && t.signals.Keys <= r.signals.Keys && t.fields.Keys <= r.fields.Keys
      && t.consts.Keys <= r.consts.Keys && t.defaults <= r.defaults
      && r.groups == t.groups && r.patterns == t.patterns
    decreases |toks| - p
  {
    if p < |toks| {
      DeclarationOnlyAdds(toks, p, t);
      match DeclarationAt(toks, p, t)
      case Done(_) =>
      case Continue(q, t') =>
        DocumentOnlyAdds(toks, q, t');
    }
  }
}

/**
 * The scanner of the encoding DSL (lexer.py).
 *
 * The source joins the alternatives of TOKEN_SPEC into one regular
 * expression and walks `finditer` over the input. Here each alternative is a
 * hand-written matcher, `MatchAt` tries them in TOKEN_SPEC order (the first
 * that matches wins), `FindIter` is the sequence of matches `finditer`
 * yields, and `Tokenize` is the source's loop over those matches.
 */
module Lexer {
  import opened Wrappers

  /** The names of TOKEN_SPEC's alternatives, plus the synthetic EOF. */
  datatype Kind =
    | PATTERN | SIGNAL | FIELD | CONST | FOR | IN | GROUP | DEFAULT
    | PATTERN_STR | BIN_NUMBER | HEX_NUMBER | NUMBER | IDENT
    | COLON | COMMA | LBRACE | RBRACE | LBRACKET | RBRACKET | SEMICOL
    | ASSIGN | OR | PLUS | MINUS | MULT | RANGE
    | SKIP | COMMENT | NEWLINE
    | EOF

  /** A token: its kind, the exact text it matched, its line and column. */
  datatype Token = Token(kind: Kind, value: string, line: int, column: int)

  /** One match of the combined expression: the winning alternative and the span [start, end). */
  datatype Match = Match(kind: Kind, start: nat, end: nat)

  /** The number of alternatives in TOKEN_SPEC. */
  const SpecSize: nat := 29

  /** TOKEN_SPEC: the alternative the combined expression tries `i`-th. */
  function KindAt(i: nat): Kind
    requires i < SpecSize
  {
    match i
    case 0 => PATTERN
    case 1 => SIGNAL
    case 2 => FIELD
    case 3 => CONST
    case 4 => FOR
    case 5 => IN
    case 6 => GROUP
    case 7 => DEFAULT
    case 8 => PATTERN_STR
    case 9 => BIN_NUMBER
    case 10 => HEX_NUMBER
    case 11 => NUMBER
    case 12 => IDENT
    case 13 => COLON
    case 14 => COMMA
    case 15 => LBRACE
    case 16 => RBRACE
    case 17 => LBRACKET
    case 18 => RBRACKET
    case 19 => SEMICOL
    case 20 => ASSIGN
    case 21 => OR
    case 22 => PLUS
    case 23 => MINUS
    case 24 => MULT
    case 25 => RANGE
    case 26 => SKIP
    case 27 => COMMENT
    case _ => NEWLINE
  }

  /** The spellings an identifier is reclassified from. */
  const Keywords: set<string> := {"pattern", "signal", "field", "const", "for", "in", "group", "default"}

  /** The kinds of the eight keyword alternatives. */
  predicate IsKeyword(k: Kind) {
    k == PATTERN || k == SIGNAL || k == FIELD || k == CONST || k == FOR || k == IN || k == GROUP || k == DEFAULT
  }

  /** Matches that the scanner drops instead of turning into tokens. */
  predicate IsTrivia(k: Kind) {
    k == SKIP || k == COMMENT || k == NEWLINE
  }

  /** The kind's name as the source spells it. */
  function Name(k: Kind): string {
    match k
    case PATTERN => "PATTERN"
    case SIGNAL => "SIGNAL"
    case FIELD => "FIELD"
    case CONST => "CONST"
    case FOR => "FOR"
    case IN => "IN"
    case GROUP => "GROUP"
    case DEFAULT => "DEFAULT"
    case PATTERN_STR => "PATTERN_STR"
    case BIN_NUMBER => "BIN_NUMBER"
    case HEX_NUMBER => "HEX_NUMBER"
    case NUMBER => "NUMBER"
    case IDENT => "IDENT"
    case COLON => "COLON"
    case COMMA => "COMMA"
    case LBRACE => "LBRACE"
    case RBRACE => "RBRACE"
    case LBRACKET => "LBRACKET"
    case RBRACKET => "RBRACKET"
    case SEMICOL => "SEMICOL"
    case ASSIGN => "ASSIGN"
    case OR => "OR"
    case PLUS => "PLUS"
    case MINUS => "MINUS"
    case MULT => "MULT"
    case RANGE => "RANGE"
    case SKIP => "SKIP"
    case COMMENT => "COMMENT"
    case NEWLINE => "NEWLINE"
    case EOF => "EOF"
  }

  function UpperChar(c: char): char {
    if 'a' <= c <= 'z' then (c as int - 32) as char else c
  }

  /** ASCII upper-casing, as `str.upper` does on the keyword spellings. */
  function Upper(s: string): (u: string)
  {
    seq(|s|, i requires 0 <= i < |s| => UpperChar(s[i]))
  }

  /** The word a keyword alternative spells out (its expression without the `\b`). */
  function Spelling(k: Kind): string
    requires IsKeyword(k)
  {
    match k
    case PATTERN => "pattern"
    case SIGNAL => "signal"
    case FIELD => "field"
    case CONST => "const"
    case FOR => "for"
    case IN => "in"
    case GROUP => "group"
    case DEFAULT => "default"
  }

  /** The keyword alternative that spells out a keyword. */
  function KeywordKind(w: string): (k: Kind)
    requires w in Keywords
    ensures IsKeyword(k) && Spelling(k) == w
  {
    if w == "pattern" then PATTERN
    else if w == "signal" then SIGNAL
    else if w == "field" then FIELD
    else if w == "const" then CONST
    else if w == "for" then FOR
    else if w == "in" then IN
    else if w == "group" then GROUP
    else DEFAULT
  }

  /** Reclassification gives the kind whose name is the upper-cased spelling, as `value.upper()` does. */
  lemma KeywordKindIsUpperCased(w: string)
    requires w in Keywords
    ensures Name(KeywordKind(w)) == Upper(w)
  {
    match KeywordKind(w)
    case PATTERN => assert Upper("pattern") == "PATTERN";
    case SIGNAL => assert Upper("signal") == "SIGNAL";
    case FIELD => assert Upper("field") == "FIELD";
    case CONST => assert Upper("const") == "CONST";
    case FOR => assert Upper("for") == "FOR";
    case IN => assert Upper("in") == "IN";
    case GROUP => assert Upper("group") == "GROUP";
    case DEFAULT => assert Upper("default") == "DEFAULT";
  }

  /** The kind a match is emitted with: an identifier spelled like a keyword becomes that keyword. */
  function Classify(k: Kind, value: string): Kind
  {
    if k == IDENT && value in Keywords then KeywordKind(value) else k
  }

  // ---------------------------------------------------------------------
  // Character classes and the per-alternative matchers

  predicate IsDigit(c: char) {
    '0' <= c <= '9'
  }

  predicate IsIdentStart(c: char) {
    'A' <= c <= 'Z' || 'a' <= c <= 'z' || c == '_'
  }

  /** `\w`, restricted to ASCII. */
  predicate IsWordChar(c: char) {
    IsIdentStart(c) || IsDigit(c)
  }

  datatype CharClass = Digits | BinDigits | HexDigits | WordChars | Blanks | PatternChars

  predicate InClass(c: char, cls: CharClass) {
    match cls
    case Digits => IsDigit(c)
    case BinDigits => c == '0' || c == '1'
    case HexDigits => IsDigit(c) || 'A' <= c <= 'F' || 'a' <= c <= 'f'
    case WordChars => IsWordChar(c)
    case Blanks => c == ' ' || c == '\t'
    case PatternChars => c == '0' || c == '1' || c == '{' || c == '}' || c == ':' || c == '-'
  }

  predicate StartsWith(code: string, p: nat, s: string) {
    p + |s| <= |code| && code[p..p + |s|] == s
  }

  /**
   * The end of the longest run of `cls` characters starting at `i`: what a
   * greedy `[...]*` consumes.
   */
  function RunEnd(code: string, i: nat, cls: CharClass): (j: nat)
    requires i <= |code|
    ensures i <= j <= |code|
    ensures forall q :: i <= q < j ==> InClass(code[q], cls)
    ensures j == |code| || !InClass(code[j], cls)
    decreases |code| - i
  {
    if i < |code| && InClass(code[i], cls) then RunEnd(code, i + 1, cls) else i
  }

  /** `word\b`: the keyword spelled out and not followed by a word character. */
  function MatchKeyword(code: string, p: nat, w: string): Option<nat>
  {
    if StartsWith(code, p, w) && (p + |w| == |code| || !IsWordChar(code[p + |w|]))
    then Some(p + |w|) else None
  }

  /** A fixed operator, delimiter or newline. */
  function MatchSymbol(code: string, p: nat, s: string): Option<nat>
  {
    if StartsWith(code, p, s) then Some(p + |s|) else None
  }

  /** `prefix[cls]+`: the prefix, then a non-empty greedy run. */
  function MatchPrefixedRun(code: string, p: nat, prefix: string, cls: CharClass): Option<nat>
    requires p <= |code|
  {
    if StartsWith(code, p, prefix) && p + |prefix| < |code| && InClass(code[p + |prefix|], cls)
    then Some(RunEnd(code, p + |prefix|, cls)) else None
  }

  /** `[A-Za-z_]\w*`. */
  function MatchIdent(code: string, p: nat): Option<nat>
    requires p <= |code|
  {
    if p < |code| && IsIdentStart(code[p]) then Some(RunEnd(code, p + 1, WordChars)) else None
  }

  /**
   * `"[01{}:\-]+"`. The run cannot contain a quote, so only the longest run
   * can be followed by the closing quote.
   */
  function MatchPatternStr(code: string, p: nat): Option<nat>
    requires p <= |code|
  {
    if p < |code| && code[p] == '"' then
      var e := RunEnd(code, p + 1, PatternChars);
      if e > p + 1 && e < |code| && code[e] == '"' then Some(e + 1) else None
    else None
  }

  // The first star-slash pair at or after `i`: the lazy `.*?` of a block
  // comment stops there.
  function FindClose(code: string, i: nat): (r: Option<nat>)
    requires i <= |code|
    ensures r.Some? ==> i + 2 <= r.value <= |code| && StartsWith(code, r.value - 2, "*/")
    ensures r.Some? ==> forall q :: i <= q < r.value - 2 ==> !StartsWith(code, q, "*/")
    ensures r.None? ==> forall q :: i <= q <= |code| ==> !StartsWith(code, q, "*/")
    decreases |code| - i
  {
    if i + 2 > |code| then None
    else if StartsWith(code, i, "*/") then Some(i + 2)
    else FindClose(code, i + 1)
  }

  // The COMMENT alternative, a line comment or a block comment, under
  // DOTALL: `.` also matches a newline, so a line comment runs to the end of
  // the input, not to the end of the line.
  function MatchComment(code: string, p: nat): Option<nat>
    requires p <= |code|
  {
    if StartsWith(code, p, "//") then Some(|code|)
    else if StartsWith(code, p, "/*") then FindClose(code, p + 2)
    else None
  }

  /** Where alternative `k` of TOKEN_SPEC, tried alone at `p`, ends its match. */
  function MatchKind(k: Kind, code: string, p: nat): (r: Option<nat>)
    requires p <= |code|
    ensures r.Some? ==> p < r.value <= |code|
  {
    match k
    case PATTERN => MatchKeyword(code, p, "pattern")
    case SIGNAL => MatchKeyword(code, p, "signal")
    case FIELD => MatchKeyword(code, p, "field")
    case CONST => MatchKeyword(code, p, "const")
    case FOR => MatchKeyword(code, p, "for")
    case IN => MatchKeyword(code, p, "in")
    case GROUP => MatchKeyword(code, p, "group")
    case DEFAULT => MatchKeyword(code, p, "default")
    case PATTERN_STR => MatchPatternStr(code, p)
    case BIN_NUMBER => MatchPrefixedRun(code, p, "0b", BinDigits)
    case HEX_NUMBER => MatchPrefixedRun(code, p, "0x", HexDigits)
    case NUMBER => MatchPrefixedRun(code, p, "", Digits)
    case IDENT => MatchIdent(code, p)
    case COLON => MatchSymbol(code, p, ":")
    case COMMA => MatchSymbol(code, p, ",")
    case LBRACE => MatchSymbol(code, p, "{")
    case RBRACE => MatchSymbol(code, p, "}")
    case LBRACKET => MatchSymbol(code, p, "[")
    case RBRACKET => MatchSymbol(code, p, "]")
    case SEMICOL => MatchSymbol(code, p, ";")
    case ASSIGN => MatchSymbol(code, p, "=")
    case OR => MatchSymbol(code, p, "|")
    case PLUS => MatchSymbol(code, p, "+")
    case MINUS => MatchSymbol(code, p, "-")
    case MULT => MatchSymbol(code, p, "*")
    case RANGE => MatchSymbol(code, p, "..")
    case SKIP => MatchPrefixedRun(code, p, "", Blanks)
    case COMMENT => MatchComment(code, p)
    case NEWLINE => MatchSymbol(code, p, "\n")
    case EOF => None
  }

  // ---------------------------------------------------------------------
  // First match wins

  /**
   * The first alternative, from index `i` of TOKEN_SPEC on, that matches at
   * `p`: its index and where its match ends.
   */
  function FirstMatch(code: string, p: nat, i: nat): (r: Option<(nat, nat)>)
    requires p <= |code| && i <= SpecSize
    ensures r.Some? ==> i <= r.value.0 < SpecSize
                        && MatchKind(KindAt(r.value.0), code, p) == Some(r.value.1)
    ensures r.Some? ==> forall j :: i <= j < r.value.0 ==> MatchKind(KindAt(j), code, p).None?
    ensures r.None? ==> forall j :: i <= j < SpecSize ==> MatchKind(KindAt(j), code, p).None?
    decreases SpecSize - i
  {
    if i == SpecSize then None
    else match MatchKind(KindAt(i), code, p)
      case Some(e) => Some((i, e))
      case None => FirstMatch(code, p, i + 1)
  }

  /**
   * The combined expression at `p`: the first alternative of TOKEN_SPEC that
   * matches there, and the end of its match.
   */
  function MatchAt(code: string, p: nat): (r: Option<(Kind, nat)>)
    ensures r.Some? ==> p < r.value.1 <= |code| && r.value.0 != EOF
  {
    if p > |code| then None
    else match FirstMatch(code, p, 0)
      case None => None
      case Some((i, e)) => Some((KindAt(i), e))
  }

  /** The position of an alternative in TOKEN_SPEC; the keywords come first. */
  function Rank(k: Kind): (i: nat)
    requires k != EOF
    ensures i < SpecSize && KindAt(i) == k
    ensures IsKeyword(k) <==> i < 8
  {
    match k
    case PATTERN => 0
    case SIGNAL => 1
    case FIELD => 2
    case CONST => 3
    case FOR => 4
    case IN => 5
    case GROUP => 6
    case DEFAULT => 7
    case PATTERN_STR => 8
    case BIN_NUMBER => 9
    case HEX_NUMBER => 10
    case NUMBER => 11
    case IDENT => 12
    case COLON => 13
    case COMMA => 14
    case LBRACE => 15
    case RBRACE => 16
    case LBRACKET => 17
    case RBRACKET => 18
    case SEMICOL => 19
    case ASSIGN => 20
    case OR => 21
    case PLUS => 22
    case MINUS => 23
    case MULT => 24
    case RANGE => 25
    case SKIP => 26
    case COMMENT => 27
    case NEWLINE => 28
  }

  /** Every entry of TOKEN_SPEC names a different alternative. */
  lemma RankOfKindAt(i: nat)
    requires i < SpecSize
    ensures KindAt(i) != EOF && Rank(KindAt(i)) == i
  {
  }

  /** No alternative listed before `k` matches at `p`. */
  ghost predicate NoneBefore(k: Kind, code: string, p: nat)
    requires k != EOF && p <= |code|
  {
    forall k' :: k' != EOF && Rank(k') < Rank(k) ==> MatchKind(k', code, p).None?
  }

  /**
   * TOKEN_SPEC priority: the combined expression yields alternative `k`
   * ending at `e` exactly when `k` matches there up to `e` and no
   * alternative listed before `k` matches at all.
   */
  lemma MatchAtIsFirst(code: string, p: nat, k: Kind, e: nat)
    requires p <= |code| && k != EOF
    ensures MatchAt(code, p) == Some((k, e)) <==> MatchKind(k, code, p) == Some(e) && NoneBefore(k, code, p)
  {
    if MatchAt(code, p) == Some((k, e)) {
      FirstIsEarliest(code, p, k, e);
    }
    if MatchKind(k, code, p) == Some(e) && NoneBefore(k, code, p) {
      EarliestIsFirst(code, p, k, e);
    }
  }

  lemma FirstIsEarliest(code: string, p: nat, k: Kind, e: nat)
    requires p <= |code| && k != EOF && MatchAt(code, p) == Some((k, e))
    ensures MatchKind(k, code, p) == Some(e) && NoneBefore(k, code, p)
  {
    RankOfKindAt(FirstMatch(code, p, 0).value.0);
    forall k' | k' != EOF && Rank(k') < Rank(k) ensures MatchKind(k', code, p).None? {
      assert KindAt(Rank(k')) == k';
    }
  }

  lemma EarliestIsFirst(code: string, p: nat, k: Kind, e: nat)
    requires p <= |code| && k != EOF && MatchKind(k, code, p) == Some(e) && NoneBefore(k, code, p)
    ensures MatchAt(code, p) == Some((k, e))
  {
    assert KindAt(Rank(k)) == k;
    RankOfKindAt(FirstMatch(code, p, 0).value.0);
  }

  /** Nothing is yielded at `p` exactly when no alternative matches there. */
  lemma NoMatchIff(code: string, p: nat)
    requires p <= |code|
    ensures MatchAt(code, p).None? <==> forall k :: k != EOF ==> MatchKind(k, code, p).None?
  {
    if MatchAt(code, p).None? {
      forall k | k != EOF ensures MatchKind(k, code, p).None? {
        assert KindAt(Rank(k)) == k;
      }
    } else {
      RankOfKindAt(FirstMatch(code, p, 0).value.0);
    }
  }

  /** A keyword alternative is its spelling followed by a word boundary. */
  lemma KeywordAlternative(k: Kind, code: string, p: nat)
    requires IsKeyword(k) && p <= |code|
    ensures MatchKind(k, code, p) == MatchKeyword(code, p, Spelling(k))
  {
  }

  /**
   * `\b` at work: a keyword kind is yielded only for the whole word, never
   * for the start of a longer identifier such as `patternX`.
   */
  lemma KeywordIsWholeWord(code: string, p: nat)
    requires p <= |code| && MatchAt(code, p).Some? && IsKeyword(MatchAt(code, p).value.0)
    ensures var (k, e) := MatchAt(code, p).value;
      code[p..e] == Spelling(k) && (e == |code| || !IsWordChar(code[e]))
  {
    var (k, e) := MatchAt(code, p).value;
    MatchAtIsFirst(code, p, k, e);
    KeywordAlternative(k, code, p);
  }

  /**
   * An identifier match never spells a keyword: the keyword alternatives come
   * first in TOKEN_SPEC and the identifier run is maximal, so the keyword
   * would have won. The reclassification in `tokenize` therefore never fires
   * on the matches the expression yields.
   */
  lemma IdentNeverKeyword(code: string, p: nat)
    requires p <= |code| && MatchAt(code, p).Some? && MatchAt(code, p).value.0 == IDENT
    ensures code[p..MatchAt(code, p).value.1] !in Keywords
  {
    var e := MatchAt(code, p).value.1;
    MatchAtIsFirst(code, p, IDENT, e);
    KeywordBeatsIdent(code, p, e);
  }

  /** A maximal identifier run that spells a keyword is matched by that keyword's alternative. */
  lemma KeywordBeatsIdent(code: string, p: nat, e: nat)
    requires p <= |code| && MatchKind(IDENT, code, p) == Some(e)
    ensures code[p..e] in Keywords ==>
      var k := KeywordKind(code[p..e]); Rank(k) < Rank(IDENT) && MatchKind(k, code, p).Some?
  {
    var w := code[p..e];
    if w in Keywords {
      var k := KeywordKind(w);
      KeywordAlternative(k, code, p);
      assert StartsWith(code, p, w);
    }
  }

  /** Whether alternative `k` can match a text that begins with `c`. */
  predicate CanStart(k: Kind, c: char) {
    match k
    case PATTERN => c == 'p'
    case SIGNAL => c == 's'
    case FIELD => c == 'f'
    case CONST => c == 'c'
    case FOR => c == 'f'
    case IN => c == 'i'
    case GROUP => c == 'g'
    case DEFAULT => c == 'd'
    case PATTERN_STR => c == '"'
    case BIN_NUMBER => c == '0'
    case HEX_NUMBER => c == '0'
    case NUMBER => IsDigit(c)
    case IDENT => IsIdentStart(c)
    case COLON => c == ':'
    case COMMA => c == ','
    case LBRACE => c == '{'
    case RBRACE => c == '}'
    case LBRACKET => c == '['
    case RBRACKET => c == ']'
    case SEMICOL => c == ';'
    case ASSIGN => c == '='
    case OR => c == '|'
    case PLUS => c == '+'
    case MINUS => c == '-'
    case MULT => c == '*'
    case RANGE => c == '.'
    case SKIP => c == ' ' || c == '\t'
    case COMMENT => c == '/'
    case NEWLINE => c == '\n'
    case EOF => false
  }

  lemma StartsWithHead(code: string, p: nat, s: string)
    requires |s| > 0 && StartsWith(code, p, s)
    ensures p < |code| && code[p] == s[0]
  {
    assert code[p..p + |s|][0] == code[p];
  }

  /** Every alternative is decided by its first character: no match without a possible first character. */
  lemma MatchKindHead(k: Kind, code: string, p: nat)
    requires p <= |code| && MatchKind(k, code, p).Some?
    ensures p < |code| && CanStart(k, code[p])
  {
    match k
    case PATTERN => StartsWithHead(code, p, "pattern");
    case SIGNAL => StartsWithHead(code, p, "signal");
    case FIELD => StartsWithHead(code, p, "field");
    case CONST => StartsWithHead(code, p, "const");
    case FOR => StartsWithHead(code, p, "for");
    case IN => StartsWithHead(code, p, "in");
    case GROUP => StartsWithHead(code, p, "group");
    case DEFAULT => StartsWithHead(code, p, "default");
    case PATTERN_STR =>
    case BIN_NUMBER => StartsWithHead(code, p, "0b");
    case HEX_NUMBER => StartsWithHead(code, p, "0x");
    case NUMBER =>
    case IDENT =>
    case COLON => StartsWithHead(code, p, ":");
    case COMMA => StartsWithHead(code, p, ",");
    case LBRACE => StartsWithHead(code, p, "{");
    case RBRACE => StartsWithHead(code, p, "}");
    case LBRACKET => StartsWithHead(code, p, "[");
    case RBRACKET => StartsWithHead(code, p, "]");
    case SEMICOL => StartsWithHead(code, p, ";");
    case ASSIGN => StartsWithHead(code, p, "=");
    case OR => StartsWithHead(code, p, "|");
    case PLUS => StartsWithHead(code, p, "+");
    case MINUS => StartsWithHead(code, p, "-");
    case MULT => StartsWithHead(code, p, "*");
    case RANGE => StartsWithHead(code, p, "..");
    case SKIP =>
    case COMMENT =>
      if StartsWith(code, p, "//") {
        StartsWithHead(code, p, "//");
      } else {
        StartsWithHead(code, p, "/*");
      }
    case NEWLINE => StartsWithHead(code, p, "\n");
  }

  /**
   * Alternative `k` is yielded when it matches and every alternative listed
   * before it either cannot start with the character at `p` or fails there.
   */
  lemma WinsByHead(code: string, p: nat, k: Kind, e: nat)
    requires p < |code| && k != EOF && MatchKind(k, code, p) == Some(e)
    requires forall k' :: k' != EOF && Rank(k') < Rank(k) ==> !CanStart(k', code[p]) || MatchKind(k', code, p).None?
    ensures MatchAt(code, p) == Some((k, e))
  {
    forall k' | k' != EOF && Rank(k') < Rank(k) ensures MatchKind(k', code, p).None? {
      if MatchKind(k', code, p).Some? {
        MatchKindHead(k', code, p);
      }
    }
    MatchAtIsFirst(code, p, k, e);
  }

  /** Nothing is yielded at `p` when no alternative can start with the character there. */
  lemma NoneByHead(code: string, p: nat)
    requires p < |code| && forall k :: k != EOF ==> !CanStart(k, code[p])
    ensures MatchAt(code, p).None?
  {
    forall k | k != EOF ensures MatchKind(k, code, p).None? {
      if MatchKind(k, code, p).Some? {
        MatchKindHead(k, code, p);
      }
    }
    NoMatchIff(code, p);
  }

  /** A run of `cls` characters that stops at a character outside `cls` is the greedy run. */
  lemma {:induction false} RunEndIs(code: string, i: nat, j: nat, cls: CharClass)
    requires i <= j <= |code|
    requires forall q :: i <= q < j ==> InClass(code[q], cls)
    requires j == |code| || !InClass(code[j], cls)
    ensures RunEnd(code, i, cls) == j
    decreases j - i
  {
    if i < j {
      RunEndIs(code, i + 1, j, cls);
    }
  }

  /** `0b` and a binary digit: BIN_NUMBER wins over NUMBER, which is listed after it. */
  lemma BinaryPrefixWins(code: string, p: nat)
    requires StartsWith(code, p, "0b") && p + 2 < |code| && InClass(code[p + 2], BinDigits)
    ensures MatchAt(code, p) == Some((BIN_NUMBER, RunEnd(code, p + 2, BinDigits)))
  {
    StartsWithHead(code, p, "0b");
    WinsByHead(code, p, BIN_NUMBER, RunEnd(code, p + 2, BinDigits));
  }

  /** `0x` and a hexadecimal digit: HEX_NUMBER wins over NUMBER, which is listed after it. */
  lemma HexPrefixWins(code: string, p: nat)
    requires StartsWith(code, p, "0x") && p + 2 < |code| && InClass(code[p + 2], HexDigits)
    ensures MatchAt(code, p) == Some((HEX_NUMBER, RunEnd(code, p + 2, HexDigits)))
  {
    StartsWithHead(code, p, "0x");
    assert code[p + 1] == 'x' by { assert code[p..p + 2][1] == code[p + 1]; }
    assert MatchKind(BIN_NUMBER, code, p).None?;
    WinsByHead(code, p, HEX_NUMBER, RunEnd(code, p + 2, HexDigits));
  }

  /**
   * PATTERN_STR is yielded exactly for a double-quoted, non-empty run of
   * `0 1 { } : -`.
   */
  lemma PatternStrIff(code: string, p: nat, e: nat)
    requires p <= |code|
    ensures MatchAt(code, p) == Some((PATTERN_STR, e)) <==> QuotedPatternRun(code, p, e)
  {
    if MatchAt(code, p) == Some((PATTERN_STR, e)) {
      FirstIsEarliest(code, p, PATTERN_STR, e);
      MatchedRunIsQuoted(code, p, e);
    }
    if QuotedPatternRun(code, p, e) {
      QuotedRunMatches(code, p, e);
      WinsByHead(code, p, PATTERN_STR, e);
    }
  }

  /** `code[p..e]` is a double quote, a non-empty run of `0 1 { } : -`, and a double quote. */
  predicate QuotedPatternRun(code: string, p: nat, e: nat) {
    && p + 3 <= e <= |code| && code[p] == '"' && code[e - 1] == '"'
    && forall q :: p < q < e - 1 ==> InClass(code[q], PatternChars)
  }

  /** The PATTERN_STR alternative alone matches only a quoted run of pattern characters. */
  lemma MatchedRunIsQuoted(code: string, p: nat, e: nat)
    requires p <= |code| && MatchKind(PATTERN_STR, code, p) == Some(e)
    ensures QuotedPatternRun(code, p, e)
  {
  }

  /** The PATTERN_STR alternative alone accepts a quoted run of pattern characters. */
  lemma QuotedRunMatches(code: string, p: nat, e: nat)
    requires QuotedPatternRun(code, p, e)
    ensures MatchKind(PATTERN_STR, code, p) == Some(e)
  {
    RunEndIs(code, p + 1, e - 1, PatternChars);
  }

  /**
   * Under DOTALL a line comment is one COMMENT match running to the end of
   * the input: nothing after `//` is scanned, later lines included.
   */
  lemma LineCommentSwallowsRest(code: string, p: nat)
    requires StartsWith(code, p, "//")
    ensures FindIter(MatchAt, code, p) == [Match(COMMENT, p, |code|)]
  {
    StartsWithHead(code, p, "//");
    WinsByHead(code, p, COMMENT, |code|);
  }

  /** A newline character is a NEWLINE match of its own, and NEWLINE matches nothing else. */
  lemma NewlineIff(code: string, p: nat, e: nat)
    requires p <= |code|
    ensures MatchAt(code, p) == Some((NEWLINE, e)) <==> p < |code| && code[p] == '\n' && e == p + 1
  {
    if MatchAt(code, p) == Some((NEWLINE, e)) {
      MatchAtIsFirst(code, p, NEWLINE, e);
      StartsWithHead(code, p, "\n");
    }
    if p < |code| && code[p] == '\n' && e == p + 1 {
      assert StartsWith(code, p, "\n");
      WinsByHead(code, p, NEWLINE, e);
    }
  }

  /**
   * A slash-star with no closing star-slash is no comment: the slash is stepped
   * over and the star is scanned as MULT, so the rest is tokenized.
   */
  lemma UnclosedBlockComment(code: string, p: nat)
    requires StartsWith(code, p, "/*") && FindClose(code, p + 2).None?
    ensures MatchAt(code, p).None?
    ensures MatchAt(code, p + 1) == Some((MULT, p + 2))
  {
    StartsWithHead(code, p, "/*");
    assert code[p + 1] == '*' by { assert code[p..p + 2][1] == code[p + 1]; }
    UnclosedSlashUnmatched(code, p);
    assert StartsWith(code, p + 1, "*");
    WinsByHead(code, p + 1, MULT, p + 2);
  }

  lemma UnclosedSlashUnmatched(code: string, p: nat)
    requires StartsWith(code, p, "/*") && FindClose(code, p + 2).None?
    requires p + 1 < |code| && code[p] == '/' && code[p + 1] == '*'
    ensures MatchAt(code, p).None?
  {
    assert MatchKind(COMMENT, code, p).None?;
    forall k | k != EOF ensures MatchKind(k, code, p).None? {
      if k != COMMENT && MatchKind(k, code, p).Some? {
        MatchKindHead(k, code, p);
      }
    }
    NoMatchIff(code, p);
  }

  /** A character that starts no alternative. */
  predicate IsStray(c: char) {
    !IsWordChar(c) && c !in "\":,{}[];=|+-*./ \t\n"
  }

  /** A character that starts no alternative is not matched: `finditer` steps over it without an error. */
  lemma StrayCharacterUnmatched(code: string, p: nat)
    requires p < |code| && IsStray(code[p])
    ensures MatchAt(code, p).None?
  {
    NoneByHead(code, p);
  }

  /** A compiled expression: what it matches at a position, if anything. */
  type Matcher = (string, nat) -> Option<(Kind, nat)>

  /** A match found at `q` is non-empty and ends inside the input. */
  ghost predicate Advances(rx: Matcher)
  {
    forall code: string, q: nat :: rx(code, q).Some? ==> q < rx(code, q).value.1 <= |code|
  }

  /**
   * `rx.finditer(code)` from `p`: at each position the expression is tried;
   * a match is yielded and the scan resumes at its end, and a position
   * where nothing matches is stepped over.
   */
  function FindIter(rx: Matcher, code: string, p: nat): (ms: seq<Match>)
    requires Advances(rx) && p <= |code|
    ensures forall i :: 0 <= i < |ms| ==> p <= ms[i].start < ms[i].end <= |code|
    decreases |code| - p
  {
    if p == |code| then []
    else match rx(code, p)
      case None => FindIter(rx, code, p + 1)
      case Some((k, e)) => [Match(k, p, e)] + FindIter(rx, code, e)
  }

  /** Every match is what the expression finds at its own start. */
  ghost predicate Sound(rx: Matcher, code: string, ms: seq<Match>)
  {
    forall i :: 0 <= i < |ms| ==> rx(code, ms[i].start) == Some((ms[i].kind, ms[i].end))
  }

  /** Matches come in source order and do not overlap. */
  ghost predicate Ordered(ms: seq<Match>)
  {
    forall i, j :: 0 <= i < j < |ms| ==> ms[i].end <= ms[j].start
  }

  /** Position `q` lies inside one of the matches. */
  ghost predicate Covered(ms: seq<Match>, q: nat)
  {
    exists i :: 0 <= i < |ms| && ms[i].start <= q < ms[i].end
  }

  /** Each yielded match is the expression's result at its own start. */
  lemma {:induction false} FindIterSound(rx: Matcher, code: string, p: nat)
    requires Advances(rx) && p <= |code|
    ensures Sound(rx, code, FindIter(rx, code, p))
    decreases |code| - p
  {
    if p < |code| {
      match rx(code, p)
      case None => FindIterSound(rx, code, p + 1);
      case Some((k, e)) =>
        FindIterSound(rx, code, e);
        var rest := FindIter(rx, code, e);
        var ms := [Match(k, p, e)] + rest;
        assert FindIter(rx, code, p) == ms;
        forall i | 0 <= i < |ms| ensures rx(code, ms[i].start) == Some((ms[i].kind, ms[i].end)) {
          if i > 0 {
            assert ms[i] == rest[i - 1];
          }
        }
    }
  }

  /** The matches are yielded in source order and do not overlap. */
  lemma {:induction false} FindIterOrdered(rx: Matcher, code: string, p: nat)
    requires Advances(rx) && p <= |code|
    ensures Ordered(FindIter(rx, code, p))
    decreases |code| - p
  {
    if p < |code| {
      match rx(code, p)
      case None => FindIterOrdered(rx, code, p + 1);
      case Some((k, e)) =>
        FindIterOrdered(rx, code, e);
        var rest := FindIter(rx, code, e);
        var ms := [Match(k, p, e)] + rest;
        assert FindIter(rx, code, p) == ms;
        forall i, j | 0 <= i < j < |ms| ensures ms[i].end <= ms[j].start {
          assert ms[j] == rest[j - 1];
          if i > 0 {
            assert ms[i] == rest[i - 1];
          }
        }
    }
  }

  /**
   * Only positions where the expression does not match are stepped over:
   * every position from `p` on where it matches lies inside a yielded match.
   */
  lemma {:induction false} FindIterCovers(rx: Matcher, code: string, p: nat, q: nat)
    requires Advances(rx) && p <= q < |code| && rx(code, q).Some?
    ensures Covered(FindIter(rx, code, p), q)
    decreases |code| - p
  {
    match rx(code, p)
    case None =>
      FindIterCovers(rx, code, p + 1, q);
    case Some((k, e)) =>
      var rest := FindIter(rx, code, e);
      var ms := [Match(k, p, e)] + rest;
      assert FindIter(rx, code, p) == ms;
      if q < e {
        assert ms[0].start <= q < ms[0].end;
      } else {
        FindIterCovers(rx, code, e, q);
        var i :| 0 <= i < |rest| && rest[i].start <= q < rest[i].end;
        assert ms[i + 1] == rest[i];
      }
  }

  // ---------------------------------------------------------------------
  // Lines, columns and the emitted tokens

  /** The number of NEWLINE matches among the first `j` matches. */
  function NewlinesBefore(ms: seq<Match>, j: nat): nat
    requires j <= |ms|
  {
    if j == 0 then 0
    else NewlinesBefore(ms, j - 1) + (if ms[j - 1].kind == NEWLINE then 1 else 0)
  }

  /** The end of the last NEWLINE match among the first `j` matches, or 0 if there is none. */
  function LineStartBefore(ms: seq<Match>, j: nat): nat
    requires j <= |ms|
  {
    if j == 0 then 0
    else if ms[j - 1].kind == NEWLINE then ms[j - 1].end
    else LineStartBefore(ms, j - 1)
  }

  /** The indices, in increasing order, of the matches among the first `n` that become tokens. */
  function Significant(ms: seq<Match>, n: nat): (idx: seq<nat>)
    requires n <= |ms|
    ensures forall i :: 0 <= i < |idx| ==> idx[i] < n && !IsTrivia(ms[idx[i]].kind)
    ensures forall i, j :: 0 <= i < j < |idx| ==> idx[i] < idx[j]
  {
    if n == 0 then []
    else Significant(ms, n - 1) + (if IsTrivia(ms[n - 1].kind) then [] else [n - 1])
  }

  /** No match that becomes a token is left out. */
  lemma {:induction false} SignificantComplete(ms: seq<Match>, n: nat)
    requires n <= |ms|
    ensures forall j :: 0 <= j < n && !IsTrivia(ms[j].kind) ==> j in Significant(ms, n)
  {
    if n > 0 {
      SignificantComplete(ms, n - 1);
    }
  }

  /**
   * The token of match `j`: its reclassified kind, the matched text, the
   * line (one more than the newlines before it) and the column (its offset
   * from just after the last newline before it).
   */
  function TokenFor(code: string, ms: seq<Match>, j: nat): Token
    requires j < |ms| && ms[j].start <= ms[j].end <= |code|
  {
    var value := code[ms[j].start..ms[j].end];
    Token(Classify(ms[j].kind, value), value, 1 + NewlinesBefore(ms, j), ms[j].start - LineStartBefore(ms, j))
  }

  /** Every match is non-empty, inside the input, and not the synthetic EOF. */
  ghost predicate InBounds(code: string, ms: seq<Match>)
  {
    forall i :: 0 <= i < |ms| ==> ms[i].start < ms[i].end <= |code| && ms[i].kind != EOF
  }

  /** The matches `Lexer.tokenize` walks over. */
  function Matches(code: string): (ms: seq<Match>)
    ensures InBounds(code, ms) && Ordered(ms)
  {
    FindIterSound(MatchAt, code, 0);
    FindIterOrdered(MatchAt, code, 0);
    FindIter(MatchAt, code, 0)
  }

  /**
   * Reclassification never changes a yielded match's kind: every identifier
   * match spells something other than a keyword.
   */
  lemma NoReclassification(code: string, i: nat)
    requires i < |Matches(code)|
    ensures var m := Matches(code)[i]; Classify(m.kind, code[m.start..m.end]) == m.kind
  {
    var m := Matches(code)[i];
    FindIterSound(MatchAt, code, 0);
    assert MatchAt(code, m.start) == Some((m.kind, m.end));
    if m.kind == IDENT {
      IdentNeverKeyword(code, m.start);
    }
  }

  /** No match, and so no token, starts at a position where no alternative matches. */
  lemma UnmatchedStartsNothing(code: string, q: nat)
    requires MatchAt(code, q).None?
    ensures forall i :: 0 <= i < |Matches(code)| ==> Matches(code)[i].start != q
  {
    FindIterSound(MatchAt, code, 0);
  }

  /** The tokens of the first `n` matches, one per match that is not trivia. */
  function Emitted(code: string, ms: seq<Match>, n: nat): seq<Token>
    requires InBounds(code, ms) && n <= |ms|
  {
    if n == 0 then []
    else Emitted(code, ms, n - 1) + (if IsTrivia(ms[n - 1].kind) then [] else [TokenFor(code, ms, n - 1)])
  }

  /** The `t`-th emitted token is the token of the `t`-th match that is not trivia. */
  lemma {:induction false} EmittedIndexed(code: string, ms: seq<Match>, n: nat)
    requires InBounds(code, ms) && n <= |ms|
    ensures var idx := Significant(ms, n);
      |Emitted(code, ms, n)| == |idx|
      && forall t :: 0 <= t < |idx| ==> Emitted(code, ms, n)[t] == TokenFor(code, ms, idx[t])
  {
    if n > 0 {
      EmittedIndexed(code, ms, n - 1);
      var prev := Significant(ms, n - 1);
      var before := Emitted(code, ms, n - 1);
      if !IsTrivia(ms[n - 1].kind) {
        var idx := prev + [n - 1];
        var toks := before + [TokenFor(code, ms, n - 1)];
        assert Significant(ms, n) == idx;
        assert Emitted(code, ms, n) == toks;
        forall t | 0 <= t < |idx| ensures toks[t] == TokenFor(code, ms, idx[t]) {
          if t < |prev| {
            assert toks[t] == before[t] && idx[t] == prev[t];
          }
        }
      }
    }
  }

  /** The tokens `Tokenize` emits, described match by match. */
  ghost predicate DescribesTokens(code: string, ms: seq<Match>, tokens: seq<Token>)
    requires InBounds(code, ms)
  {
    var idx := Significant(ms, |ms|);
    && |tokens| == |idx| + 1
    && (forall i :: 0 <= i < |idx| ==> tokens[i] == TokenFor(code, ms, idx[i]))
    && tokens[|idx|] == Token(EOF, "", 1 + NewlinesBefore(ms, |ms|), 0)
  }

  /**
   * The shape of every token list: each token but the last is a real token
   * (not EOF, not trivia) with a non-empty value, a line from 1 and a
   * column from 0; the last is the empty EOF token at column 0; line
   * numbers never go down.
   */
  ghost predicate WellFormedTokens(tokens: seq<Token>)
  {
    && |tokens| >= 1
    && (forall i :: 0 <= i < |tokens| - 1 ==>
         && tokens[i].kind != EOF && !IsTrivia(tokens[i].kind)
         && tokens[i].value != [] && tokens[i].line >= 1 && tokens[i].column >= 0)
    && tokens[|tokens| - 1].kind == EOF && tokens[|tokens| - 1].value == []
    && tokens[|tokens| - 1].column == 0
    && forall i, j :: 0 <= i < j < |tokens| ==> tokens[i].line <= tokens[j].line
  }

  /**
   * `Lexer.tokenize`. Each match that is not blank space, a comment or a
   * newline becomes one token, in source order, carrying exactly the text
   * it matched; a newline advances the line and moves the column origin to
   * just after it; one EOF token closes the output.
   */
  method Tokenize(code: string) returns (tokens: seq<Token>)
    ensures DescribesTokens(code, Matches(code), tokens)
    ensures WellFormedTokens(tokens)
  {
    var ms := Matches(code);
    var lineNum := 1;
    var lineStart := 0;
    tokens := [];
    for i := 0 to |ms|
      invariant lineNum == 1 + NewlinesBefore(ms, i)
      invariant lineStart == LineStartBefore(ms, i)
      invariant tokens == Emitted(code, ms, i)
    {
      var m := ms[i];
      var kind := m.kind;
      var value := code[m.start..m.end];
      var column := m.start - lineStart;
      if kind == SKIP || kind == COMMENT {
      } else if kind == NEWLINE {
        lineStart := m.end;
        lineNum := lineNum + 1;
      } else {
        if kind == IDENT && value in Keywords {
          kind := KeywordKind(value);
        }
        assert kind == Classify(m.kind, value);
        assert Token(kind, value, lineNum, column) == TokenFor(code, ms, i);
        tokens := tokens + [Token(kind, value, lineNum, column)];
      }
    }
    tokens := tokens + [Token(EOF, "", lineNum, 0)];
    EmittedDescribes(code, ms, tokens);
    EmittedWellFormed(code, ms, tokens);
  }

  /** The emitted tokens plus EOF are the match-by-match description. */
  lemma EmittedDescribes(code: string, ms: seq<Match>, tokens: seq<Token>)
    requires InBounds(code, ms)
    requires tokens == Emitted(code, ms, |ms|) + [Token(EOF, "", 1 + NewlinesBefore(ms, |ms|), 0)]
    ensures DescribesTokens(code, ms, tokens)
  {
    EmittedIndexed(code, ms, |ms|);
  }

  /** The emitted tokens plus EOF form a well-formed token list. */
  lemma EmittedWellFormed(code: string, ms: seq<Match>, tokens: seq<Token>)
    requires InBounds(code, ms) && Ordered(ms)
    requires tokens == Emitted(code, ms, |ms|) + [Token(EOF, "", 1 + NewlinesBefore(ms, |ms|), 0)]
    ensures WellFormedTokens(tokens)
  {
    var idx := Significant(ms, |ms|);
    EmittedIndexed(code, ms, |ms|);
    forall i | 0 <= i < |idx|
      ensures tokens[i].kind != EOF && !IsTrivia(tokens[i].kind)
      ensures tokens[i].value != [] && tokens[i].line >= 1 && tokens[i].column >= 0
    {
      TokenForFacts(code, ms, idx[i]);
    }
    forall i, j | 0 <= i < j < |tokens|
      ensures tokens[i].line <= tokens[j].line
    {
      NewlinesMonotone(ms, idx[i], if j < |idx| then idx[j] else |ms|);
    }
  }

  /** The token of a match that is not trivia is a real token with a sane position. */
  lemma TokenForFacts(code: string, ms: seq<Match>, j: nat)
    requires Ordered(ms) && forall i :: 0 <= i < |ms| ==> ms[i].start < ms[i].end <= |code| && ms[i].kind != EOF
    requires j < |ms| && !IsTrivia(ms[j].kind)
    ensures var t := TokenFor(code, ms, j);
      t.kind != EOF && !IsTrivia(t.kind) && t.value != [] && t.line >= 1 && t.column >= 0
  {
    LineStartBeforeBound(ms, j);
  }

  /** The line count never goes down along the matches. */
  lemma {:induction false} NewlinesMonotone(ms: seq<Match>, i: nat, j: nat)
    requires i <= j <= |ms|
    ensures NewlinesBefore(ms, i) <= NewlinesBefore(ms, j)
    decreases j - i
  {
    if i < j {
      NewlinesMonotone(ms, i, j - 1);
    }
  }

  /** The column origin lies at or before the start of every later match. */
  lemma {:induction false} LineStartBeforeBound(ms: seq<Match>, j: nat)
    requires Ordered(ms) && j < |ms| && forall i :: 0 <= i < |ms| ==> ms[i].start <= ms[i].end
    ensures LineStartBefore(ms, j) <= ms[j].start
  {
    if j > 0 && ms[j - 1].kind != NEWLINE {
      LineStartBeforeBound(ms, j - 1);
    }
  }
}

# A verified model of the pattern-language front end

The repository reads a small hardware-description language: `signal`,
`field` and `const` declarations, `default { ... }` blocks of assignments,
and `group`/`pattern` blocks. Its front end has three parts, and this
project models each of them in Dafny:

- **the lexer** (`lexer.py`). It is a master regular expression made of 29
  named alternatives: eight keywords, literals, operators, blank space,
  comments and newline. `Lexer.MatchAt` gives the alternative Python's
  `re` picks at one position: the first one in the list that matches, not
  the longest. `Lexer.FindIter` models `finditer`. It scans from left to
  right, skips the characters where nothing matches, and resumes after
  each match. `Lexer.Tokenize` is the `tokenize` loop. It drops blank
  space and comments, counts lines and columns at each newline, turns
  keywords into their upper-case kinds, and adds a closing `EOF` token.
- **the parser** (`parser.py`). It is a `class Parser` with the
  name-indexed tables (`map`), the `defaults` and `patterns` lists (`seq`),
  and a cursor over the tokens. Each method is proved against a
  declarative reading of the grammar, for example `Parser.SignalAt`,
  `Parser.DefaultAt` and `Parser.DocumentFrom`. `ParserProps` proves what
  that reading means:
  - an if-and-only-if for each declaration form and for one entry of a
    default block, and the errors for a value of the wrong kind and for a
    token that starts no declaration;
  - a round trip: rendering any list of declarations as tokens and parsing
    them applies exactly those declarations. Default entries may carry a
    decimal, binary or hexadecimal literal or a name;
  - a later declaration of a name replaces the earlier one;
  - parsing only ever adds to the tables;
  - every integer literal the lexer produces is accepted by `int()`.
- **the syntax tree** (`ast.py`). The records are datatypes. The
  `assignments or []` defaults of `Group` and `Pattern` and the case split
  of `Assignment.__repr__` are modelled too.

The parser as written has three defects. One of them makes it accept
invalid input; the other two make it fail on valid input. `Parser` models
the intended behaviour. `AsWritten` models the code
as it stands and proves, on concrete inputs, where the two differ (see
"Findings").

Exceptions are modelled as values. `SyntaxError`, `IndexError` (reading
past the last token) and `ValueError` (from `int()`) become the
`Parser.ParseError` cases of a `Result`. A method that fails returns `Err`.
Its `ensures` says which tables it has already changed at that point.

## Model

| member | source | states |
|---|---|---|
| Lexer.KeywordKind | lexer.py:49-51 | every word of the keyword set has a keyword kind, and that kind is spelt as the word |
| Lexer.KeywordKindIsUpperCased | lexer.py:75-76 | a keyword's kind is the upper-cased word (`value.upper()`) |
| Lexer.Rank | lexer.py:4-41 | every kind except EOF has exactly one position in the list, and the eight keywords come first |
| Lexer.KindAt | lexer.py:4-41 | the kind of each of the 29 alternatives, by its place in the list |
| Lexer.RunEnd | lexer.py:17-20 | the end of the maximal run of a character class (`\d+`, `[01]+`, `\w*`, ...) from a position |
| Lexer.FindClose | lexer.py:39 | the lazy `.*?\*/` stops at the first `*/`, and finds none when none follows |
| Lexer.FirstMatch | lexer.py:54-57 | the alternatives are tried in list order: the result is the first that matches, and none before it does |
| Lexer.MatchKeyword | lexer.py:6-13 | a keyword alternative `word\b`: the spelling, then the end of the input or a non-word character |
| Lexer.MatchSymbol | lexer.py:23-40 | an operator, delimiter or newline alternative: the fixed text at the position |
| Lexer.MatchPrefixedRun | lexer.py:17-19 | `0b[01]+`, `0x[0-9A-Fa-f]+` and `\d+`: the prefix, then a non-empty greedy run of the class (with no prefix it also reads SKIP's `[ \t]+`, line 38) |
| Lexer.MatchIdent | lexer.py:20 | `[A-Za-z_]\w*`: a letter or underscore, then the greedy run of word characters |
| Lexer.MatchPatternStr | lexer.py:16 | a double quote, a non-empty run of `0 1 { } : -`, and the closing quote |
| Lexer.MatchComment | lexer.py:39 | `//` runs to the end of the input (DOTALL); `/*` runs to the first `*/`, or matches nothing when none follows |
| Lexer.MatchKind | lexer.py:6-40 | an alternative tried alone at a position ends after it, within the input |
| Lexer.MatchAt | lexer.py:54-57 | a match consumes at least one character, stays within the input and is never EOF |
| Lexer.MatchAtIsFirst | lexer.py:54-57 | a kind wins at a position if and only if it matches there and no earlier alternative does |
| Lexer.NoMatchIff | lexer.py:54-57 | nothing matches at a position if and only if no alternative does |
| Lexer.KeywordIsWholeWord | lexer.py:6-13 | a matched keyword is its exact spelling, not followed by a word character (`\b`) |
| Lexer.IdentNeverKeyword | lexer.py:6-20 | a matched IDENT is never one of the keywords, because their alternatives come first |
| Lexer.KeywordBeatsIdent | lexer.py:6-20 | where IDENT matches a keyword, that keyword's alternative ranks earlier and matches too |
| Lexer.BinaryPrefixWins | lexer.py:17-19 | `0b` followed by binary digits lexes as BIN_NUMBER over the whole digit run, not as NUMBER `0` |
| Lexer.HexPrefixWins | lexer.py:18-19 | `0x` followed by hex digits lexes as HEX_NUMBER over the whole digit run |
| Lexer.PatternStrIff | lexer.py:16 | PATTERN_STR matches exactly a double-quoted, non-empty run of `0 1 { } : -` |
| Lexer.LineCommentSwallowsRest | lexer.py:39-57 | with DOTALL, a `//` comment runs to the end of the input, newlines included |
| Lexer.NewlineIff | lexer.py:40 | NEWLINE matches exactly one `\n` |
| Lexer.UnclosedBlockComment | lexer.py:34-39 | an unclosed `/*` matches nothing at the slash, and the star after it lexes as MULT |
| Lexer.StrayCharacterUnmatched | lexer.py:4-41 | a character that starts no alternative matches nothing, so `finditer` skips it |
| Lexer.FindIter | lexer.py:64 | every match found lies within the input, from the starting position on |
| Lexer.FindIterSound | lexer.py:64 | every match `finditer` reports is the regex's match at its start |
| Lexer.FindIterOrdered | lexer.py:64 | the matches are in order and do not overlap |
| Lexer.FindIterCovers | lexer.py:64 | a position where the regex matches is either a match start or inside an earlier match |
| Lexer.Significant | lexer.py:69-74 | the matches kept are the ones that are not blank space, comments or newlines, in order |
| Lexer.SignificantComplete | lexer.py:69-74 | every such match is kept |
| Lexer.Matches | lexer.py:54-64 | the regex's matches over the whole input lie within it and are ordered |
| Lexer.NoReclassification | lexer.py:75-76 | the keyword step never changes the kind of a match, because an IDENT is never a keyword's spelling |
| Lexer.Classify | lexer.py:75-76 | an IDENT whose text is a keyword takes that keyword's kind; every other kind is kept |
| Lexer.TokenFor | lexer.py:65-78 | the token of a kept match: its reclassified kind, its text, the line from the newlines before it and the column from the last line start |
| Lexer.UnmatchedStartsNothing | lexer.py:64 | no match starts where the regex matches nothing |
| Lexer.EmittedIndexed | lexer.py:78 | the emitted tokens are, one for one, the tokens of the kept matches |
| Lexer.Tokenize | lexer.py:59-81 | one token per kept match with its kind, text, line and column, then one empty EOF token; every token before EOF is real and non-empty, and line numbers never decrease |
| Lexer.EmittedWellFormed | lexer.py:59-81 | the tokens built from an ordered match list have the well-formed shape |
| Lexer.LineStartBeforeBound | lexer.py:67-74 | the column origin never lies after the token, so columns are never negative |
| Lexer.NewlinesMonotone | lexer.py:71-74 | the line number never goes down from one match to a later one |
| Ast.NewAssignment | ast.py:30-35 | `Assignment(target, value=None, is_signal=False)` keeps its three arguments |
| Ast.NewGroup | ast.py:43-47 | a group built without assignments gets the empty list, otherwise the given one |
| Ast.NewPattern | ast.py:53-57 | a pattern keeps its bit-pattern and base group; missing assignments become the empty list |
| Ast.BareAssignment | ast.py:32 | an assignment built from a target alone is a field assignment with no value |
| Ast.EmptyPattern | ast.py:54 | a pattern built without arguments has neither part and no assignments |
| Ast.PatternExclusivityNotEnforced | ast.py:54-57 | the constructor accepts a bit-pattern and a base group together |
| Ast.Show | ast.py:37-40 | the repr is `AssignSignal(` exactly when the entry is a signal, and `AssignField(` exactly when it is not |
| Ast.ShowSignalIgnoresValue | ast.py:38-39 | a signal assertion's repr does not depend on its value |
| Parser.ParseInt | parser.py:65-70 | `int(s, base)` succeeds exactly on a non-empty digit string of the base, after a `0b`/`0x` prefix for base 2/16 |
| Parser.ToDigits | parser.py:44 | the digits of a number form a digit string of the base |
| Parser.TokenAtIndex | parser.py:101-102 | reading at a position gives that token, or an error past the end |
| Parser.ExpectAtToken | parser.py:109-113 | `expect` is a read followed by a kind check that fails with `Expected` |
| Parser.SignalAt | parser.py:40-46 | what `parse_signal` reads at a position: five tokens, the number read in base 10 |
| Parser.FieldAt | parser.py:48-58 | what `parse_field` reads at a position: nine tokens, the first number as the msb |
| Parser.ConstAt | parser.py:60-74 | what `parse_const` reads at a position: five tokens, the literal read in the radix of its kind |
| Parser.RadixOf | parser.py:65-72 | NUMBER, BIN_NUMBER and HEX_NUMBER values are read in base 10, 2 and 16; any other kind is an error |
| Parser.EntryAt | parser.py:79-92 | an entry that is read consumes at least one token |
| Parser.EntriesFrom | parser.py:79-92 | when the entries are read without error, reading stops at a closing brace that lies within the tokens |
| Parser.EntryFrom | parser.py:79-92 | one entry read and then the rest of the block: without an error, reading stops at a closing brace past that entry |
| Parser.DefaultAt | parser.py:76-93 | a default block read without error ends after its opening position and within the tokens |
| Parser.DeclarationAt | parser.py:19-36 | a declaration that lets the loop go on moves the cursor forward, within the tokens |
| Parser.DocumentFrom | parser.py:19-36 | the top-level loop from a position: one declaration per turn, until EOF, an error or the end of the tokens |
| Parser.Parser.constructor | parser.py:4-13 | a new parser has empty tables and lists |
| Parser.Parser.Peek | parser.py:101-102 | the token under the cursor, available exactly when not at the end (`at_end`), cursor unmoved |
| Parser.Parser.AtEnd | parser.py:98-99 | the cursor is at or past the end of the tokens |
| Parser.Parser.Advance | parser.py:104-107 | returns the token under the cursor and moves the cursor one step |
| Parser.Parser.Expect | parser.py:109-113 | consumes one token whether or not it matches, fails with `Expected` unless it has the kind asked for, and fails without moving past the end |
| Parser.Parser.ParseSignal | parser.py:40-46 | on `signal NAME : NUMBER ;` stores the signal under its name and moves past the five tokens; on an error leaves the table unchanged |
| Parser.Parser.ParseField | parser.py:48-58 | on `field NAME : [ NUMBER : NUMBER ] ;` stores the field with its msb and lsb and moves past nine tokens; on an error the table is unchanged |
| Parser.Parser.ParseConst | parser.py:60-74 | on `const NAME = literal ;` stores the literal's value in its radix; an error leaves the table unchanged |
| Parser.Parser.ParseEntry | parser.py:80-92 | one turn of the entry loop returns the assignment the grammar reads at the cursor and moves past it, or fails with the grammar's error |
| Parser.Parser.ParseDefault | parser.py:76-93 | appends the block's entries in order and moves past the closing brace; after an error, the entries before it stay appended |
| Parser.Parser.Parse | parser.py:15-38 | the tables and the error after the loop are those of the declarative reading of the whole token list |
| ParserProps.ToDigitsValue | parser.py:44 | the digit string of a number has that number as its value |
| ParserProps.ParseIntRoundTrip | parser.py:65-70 | `int` of a number's digits gives the number back, in every base |
| ParserProps.PrefixedRoundTrip | parser.py:68-70 | `int("0b"...,2)` and `int("0x"...,16)` read the prefixed forms the lexer produces |
| ParserProps.ParseIntRejects | parser.py:65-70 | the empty string and a bare prefix are rejected |
| ParserProps.MatchedLiteralDecodes | parser.py:64-70 | every NUMBER, BIN_NUMBER or HEX_NUMBER lexeme has a radix and `int` accepts it |
| ParserProps.LexedLiteralsDecode | parser.py:64-70 | in any tokenizer output, a number token never makes `int()` fail |
| ParserProps.ExpectOk | parser.py:109-113 | `expect` succeeds exactly on a token of the requested kind, and returns it |
| ParserProps.SignalAtIff | parser.py:40-46 | a signal declaration is accepted exactly on SIGNAL IDENT COLON NUMBER SEMICOL with a decimal number, and gives that name and bit |
| ParserProps.FieldAtIff | parser.py:48-58 | a field declaration is accepted exactly on its nine-token shape, and gives that name, msb and lsb |
| ParserProps.ConstAtIff | parser.py:60-74 | a const declaration is accepted exactly on CONST IDENT ASSIGN literal SEMICOL, and gives the literal's value in its radix |
| ParserProps.LiteralValue | parser.py:65-70 | a number rendered in any radix reads back as that number |
| ParserProps.SignalRendered | parser.py:40-46 | a rendered signal declaration reads back as that signal |
| ParserProps.FieldRendered | parser.py:48-58 | a rendered field declaration reads back as that field |
| ParserProps.ConstRendered | parser.py:60-74 | a rendered const declaration reads back as that const, in any radix |
| ParserProps.EntryRendered | parser.py:80-92 | a rendered entry reads back as its assignment: a value entry (a literal in any radix, or a name) as a field assignment with the value's text, a bare one as a signal assertion |
| ParserProps.EntryAtIff | parser.py:80-92 | an entry is read exactly on `IDENT : value ;` with a NUMBER, BIN_NUMBER, HEX_NUMBER or IDENT value, or on `IDENT ;`; the first gives a field assignment with the value's text, the second a signal assertion |
| ParserProps.DefaultValueRejected | parser.py:83-87 | after `IDENT :`, a value of any other kind is a `SyntaxError` naming that token |
| ParserProps.EntriesRendered | parser.py:79-92 | reading a rendered run of entries appends exactly their assignments, in order |
| ParserProps.EntryTurnRendered | parser.py:79-92 | after the first of a run of rendered entries, the entry loop resumes just past it with its assignment appended, and the rest of the run follows |
| ParserProps.EntriesRead | parser.py:79-92 | after a run of rendered entries, the entry loop resumes past all of them with their assignments appended in order, whatever follows |
| ParserProps.DefaultRendered | parser.py:76-93 | a rendered default block appends exactly its entries and ends after its closing brace |
| ParserProps.DeclRendered | parser.py:19-36 | any rendered declaration is read in one turn of the loop and applied to the tables |
| ParserProps.DocumentSteps | parser.py:19-36 | a declaration read without error hands the loop the position after it and the new tables |
| ParserProps.DocumentEnds | parser.py:19-34 | the loop ends without error at EOF and at the end of the tokens |
| ParserProps.LeadingTokenRejected | parser.py:19-36 | a leading token that starts no declaration and is not EOF stops the parse with the tables unchanged: `Unsupported` for group and pattern, `UnexpectedToken` otherwise |
| ParserProps.DeclTurnRendered | parser.py:19-36 | after the first of a run of rendered declarations, the loop resumes just past its tokens with it applied, and the rest of the run follows |
| ParserProps.DeclsRead | parser.py:19-36 | after a run of rendered declarations, the loop resumes past all of them with all of them applied, whatever follows |
| ParserProps.DocumentRendered | parser.py:15-38 | a rendered list of declarations followed by EOF or the end parses without error into the tables with all of them applied |
| ParserProps.ParseRendered | parser.py:15-38 | rendering any declarations and appending EOF parses them back with no error |
| ParserProps.LaterSignalWins | parser.py:46 | a second declaration of a signal name replaces the first |
| ParserProps.EntriesFromExtends | parser.py:79-92 | reading entries only appends to the defaults list |
| ParserProps.DefaultAtExtends | parser.py:76-93 | a default block only appends to the defaults list |
| ParserProps.ClosingBraceExpected | parser.py:79-93 | where the entries stop without error, the final `expect("RBRACE")` succeeds |
| ParserProps.DeclarationOnlyAdds | parser.py:19-36 | one declaration never removes a name or a default entry and leaves groups and patterns alone; a failed one changes nothing except the defaults appended before the error |
| ParserProps.DocumentOnlyAdds | parser.py:15-38 | a whole parse only adds names and default entries, and leaves groups and patterns unchanged |
| AsWritten.ExpectAsWritten | parser.py:109-113 | as written, `expect` fails only past the end, and otherwise returns the token or an unraised error object |
| AsWritten.ValueOf | parser.py:109-113 | `.value` works only on a token; the error object has no such attribute |
| AsWritten.SignalAsWrittenIff | parser.py:40-46 | as written, a signal declaration is accepted exactly when the name and number tokens have the right kinds, whatever the three other tokens are |
| AsWritten.SignalAtAsWritten | parser.py:40-46 | `parse_signal` as written, with `expect` returning its error instead of raising it |
| AsWritten.FieldAtAsWritten | parser.py:48-58 | `parse_field` as written, ending in the `NameError` for `smb` |
| AsWritten.DefaultAtAsWritten | parser.py:76-93 | `parse_default` as written, reading `.kind` on the token after each entry name |
| AsWritten.WrongDelimiterAccepted | parser.py:40-46 | `signal a , 3 ,` is stored as written, but rejected at the first comma by the corrected parser |
| AsWritten.MissingNameRaisesAttributeError | parser.py:40-50 | a non-name after the keyword raises `AttributeError` on `.value`, not `SyntaxError` |
| AsWritten.FieldAsWrittenNeverStores | parser.py:58 | as written, no field declaration is ever stored |
| AsWritten.FieldAsWrittenRaisesNameError | parser.py:58 | every field declaration the corrected parser accepts raises `NameError` for `smb` as written |
| AsWritten.DefaultEntryRaises | parser.py:81 | as written, a default block with an entry raises `AttributeError` for `kind`; corrected, it appends the entry |
| AsWritten.EmptyDefaultAgrees | parser.py:76-93 | an empty default block reads the same as written and corrected |

## Left out

- Character classes are ASCII: `\w`, `\d` and `\b` use only ASCII letters, digits and `_`. Python's `re` also accepts other Unicode letters and digits in a `str` pattern.
- Parser.ParseInt: accepts only what the lexer can produce for its three literal kinds. It does not model `int()` accepting a sign, underscores or surrounding blank space.
- The `Lexer` class holds only constants: the list of alternatives, the keyword set and the compiled regex. These are module-level declarations here, and `Lexer.Tokenize` is a method of the module.
- `parse_group` is `pass` and never moves the cursor, so `parse` loops forever on `group`. `parse_pattern` is never defined, so `pattern` raises `AttributeError`. Both are modelled as the error `Unsupported`, so group and pattern blocks are not parsed and their tables are never filled.
- Error messages are not modelled: an error carries the offending token rather than the formatted text (parser.py:112 formats the token's line into it). A token's line and column never affect the tables, so the rendered tokens in `ParserProps` carry a fixed position.
- Parser.Parser.ParseSignal: does not state where the cursor ends up after an error. Python raises there, and `parse` does not resume.
- Parser.Parser.ParseField: does not state where the cursor ends up after an error, for the same reason.
- Parser.Parser.ParseConst: does not state where the cursor ends up after an error, for the same reason.
- Parser.Parser.ParseEntry: does not state where the cursor ends up after an error, for the same reason.
- Parser.Parser.ParseDefault: does not state where the cursor ends up after an error, for the same reason.
- Parser.Parser.Parse: after `Unsupported`, the model stops with that error. As written, the source hangs on `group` and raises `AttributeError` on `pattern`.
- `Signal`, `Field`, `Const`, `Group` and `Pattern` `__repr__` are not modelled. Only `Assignment.__repr__` has a case split, and that is modelled.
- The model keeps these behaviours of the code, which a reader of the grammar might not expect:
  - a `//` comment runs to the end of the input, because DOTALL is set;
  - a newline inside a block comment does not advance the line count;
  - a character that starts no token is skipped silently, not reported as an error;
  - declaring a name again replaces the earlier declaration, rather than being an error;
  - an unclosed `/*` lexes as MULT followed by whatever comes after it.
- `parse_const` as written is not modelled beside the corrected `Parser.ConstAt`. It shares the unraised `expect` of `AsWritten.ExpectAsWritten`, whose effect `AsWritten.WrongDelimiterAccepted` shows on a signal declaration.
- The three defects listed under "Findings" are corrected in `Parser`. Their as-written behaviour exists only in `AsWritten`.

## Findings

| source | as written | input that shows it | evidently intended | confidence | as-written member | corrected member |
|---|---|---|---|---|---|---|
| parser.py:109-113 | `expect` returns the `SyntaxError` it builds instead of raising it, so a wrong delimiter or keyword is accepted | tokens `signal a , 3 ,` are stored as `Signal(a@3)` | `raise SyntaxError(...)`, rejecting the first comma | high, not executed | AsWritten.WrongDelimiterAccepted | ParserProps.SignalAtIff |
| parser.py:58 | `Field(name, smb, lsb)` names the unbound `smb` | `field f : [ 7 : 0 ] ;` raises `NameError` | `Field(name, msb, lsb)` | high, not executed | AsWritten.FieldAsWrittenRaisesNameError | ParserProps.FieldAtIff |
| parser.py:81 | `self.peek().kind` reads an attribute that tokens do not have (the field is `type`) | `default { a : 1 ; }` raises `AttributeError` | `self.peek().type == "COLON"` | high, not executed | AsWritten.DefaultEntryRaises | ParserProps.DefaultRendered |

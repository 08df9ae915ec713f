# The DSF / DTXT backtick-string format, modelled in Dafny

DSF (also shipped as DTXT) is a small text format for a tree of values. A document is an
object `{ key: value, ... }` whose values are:

- strings between backticks;
- numbers;
- the literals `T`, `F` and `N`;
- arrays `[ ... ]` and nested objects;
- typed constructors `D(instant)`, `BN(big integer)` and `B(HEX BYTES)`.

Commas may trail, and `//` starts a comment that runs to the end of the line. The
repository ships four independent reference ports, each with a parser and a writer:

| port | file | shape |
|---|---|---|
| Rust | `ref-impl/rs/src/lib.rs` | a byte-cursor recursive-descent parser and a writer into a `String` buffer |
| Go "dsf" | `ref-impl/go/dsf/dsf.go` | a lexer object producing tokens, a parser pulling them one at a time, a recursive writer |
| Go "dtxt" | `ref-impl/go/dtxt/dtxt.go` | a byte-cursor parser like the Rust one, and a writer into a `strings.Builder` |
| Python | `ref-impl/python/dtxt.py` | a tokenizer built from an ordered list of regular expressions, a token-index parser, `dumps` and `dumps_canonical` |

## How the model is laid out

- **Shared modules.**
  - `Values`: the value tree, with `Result`, `Step` and `Option`.
  - `Text`: character classes, byte-wise string order, sorted keys, `Join` and `Repeat`. Its
    `Builder` class stands for the mutable output buffers.
  - `Codec`: upper-case hex and decimal integer text, each with its round trip.
  - `Cursor`: the scanning functions shared by the two byte-cursor parsers, such as blanks
    and comments, identifiers, strings and the number grammar.
  - `Tokens`: the token kinds and the greedy number pattern shared by the two tokenizers.
  - `Layout`: one specification `Render(v, style, level, formats)` of the text every writer
    produces. The writers differ only in their separators, how they print floats, and how
    they print instants.
- **Parsers.** Each parser has two levels:
  - **Functions** are the grammar, one per source routine (`ValueAt`, `ObjectAt`,
    `MembersAt`, …). They take an input and a position and give `Done(value, next)` or
    `Fail(error)`.
  - **A class** holds the source's mutable cursor (`input`, `pos`, or the current token).
    Each of its methods has the loop and the branches of the source routine. Its
    postcondition ties the result and the new cursor to the grammar function of the old
    cursor.
- **Writers.** Each writer is a method appending to a `Builder` (Rust, dtxt) or a recursive
  function (Go dsf, Python). Each is proved to produce exactly `Render` with its port's
  style.
- **Round trips.** Each port has a `ParseRender` lemma: parsing what the writer writes gives
  back the object, for every object the port can write back unchanged.
- **Host facilities as parameters.** Things that belong to each language's standard library
  are parameters rather than code:
  - float printing (`show`);
  - whether a lexeme's float is finite (`Library.finite`);
  - reading an RFC 3339 instant or a calendar date (`Calendar`).

## Model

| member | source | states |
|---|---|---|
| Codec.HexDigitUpper | ref-impl/rs/src/lib.rs:322-328 | the digit written for a nibble is a hex digit and never a lower-case letter |
| Codec.HexValue | ref-impl/go/dtxt/dtxt.go:275-280 | a hex digit's value is between 0 and 15 |
| Codec.HexDigitRoundTrip | ref-impl/rs/src/lib.rs:280-288 | reading the digit written for a nibble gives the nibble back |
| Codec.HexUpper | ref-impl/rs/src/lib.rs:322-328 | bytes are written as two hex digits each: the text is twice as long as the bytes |
| Codec.UpperHex | ref-impl/python/dtxt.py:199-200 | upper-casing hex text keeps its length |
| Codec.HexDecode | ref-impl/go/dsf/dsf.go:320-325 | `hex.DecodeString`: a successful decode gives half as many bytes as the text has characters |
| Codec.HexRoundTrip | ref-impl/go/dsf/dsf.go:320-325 | decoding the upper-case hex of any bytes gives the bytes back |
| Codec.HexDecodeThenEncode | ref-impl/python/dtxt.py:158-162 | re-encoding decoded hex gives the input upper-cased: the only text lost is letter case |
| Codec.HexUpperChars | ref-impl/rs/src/lib.rs:322-328 | written hex holds only upper-case hex digits, so it holds no `)` or blank and ends a payload cleanly |
| Codec.NatDigits | ref-impl/rs/src/lib.rs:312-316 | a natural number's decimal text is non-empty and all digits |
| Codec.DecimalString | ref-impl/go/dtxt/dtxt.go:305-310 | an integer's decimal text is never empty |
| Codec.NatDigitsRoundTrip | ref-impl/go/dtxt/dtxt.go:268-274 | reading a natural number's digits gives the number back |
| Codec.NatDigitsNoLeadingZero | ref-impl/python/dtxt.py:189-191 | a natural number's text starts with a non-zero digit unless it is `0` |
| Codec.DecimalRoundTrip | ref-impl/rs/src/lib.rs:275-279 | the `BN` reader (with or without an accepted `+`) gives back any integer from its decimal text |
| Codec.DecimalStringShape | ref-impl/python/dtxt.py:155-157 | an integer's decimal text is `-` exactly when the integer is negative, then digits with no leading zero: it matches `-?[0-9]+` |
| Codec.DecimalStringFree | ref-impl/go/dsf/dsf.go:124-137 | an integer's decimal text holds no `)`, backtick or blank, so it never ends a payload early |
| Text.SortedKeysSpec | ref-impl/rs/src/lib.rs:363-364 | the key order of the writers is strictly ascending (byte-wise) and holds exactly the object's keys |
| Text.LessTransitive | ref-impl/python/dtxt.py:175 | the byte-wise string order the writers sort by is transitive |
| Text.LessTrichotomy | ref-impl/go/dtxt/dtxt.go:360-396 | any two distinct keys are ordered one way or the other |
| Text.ReplaceAbsent | ref-impl/python/dtxt.py:148 | replacing a substring that does not occur changes nothing |
| Text.ReplaceFrom | ref-impl/python/dtxt.py:148 | every character of the replaced text comes from the original or from the replacement |
| Text.ReplaceKeeps | ref-impl/python/dtxt.py:148 | a character in neither the target nor the replacement occurs in the replaced text exactly when it occurs in the original |
| Text.Builder.Append | ref-impl/rs/src/lib.rs:301-393 | `push_str` / `WriteString`: the buffer becomes its old text followed by the piece |
| Text.Builder.AppendRepeat | ref-impl/rs/src/lib.rs:335-346 | writing the indent `level` times appends `Repeat(indent, level)` |
| Cursor.SkipWs | ref-impl/rs/src/lib.rs:68-86 | skipping stops at the first byte that is neither a blank nor the start of a `//` comment, and never moves back |
| Cursor.SkipWsBlanks | ref-impl/go/dtxt/dtxt.go:41-61 | over a run of blanks followed by a non-blank, skipping lands on the non-blank |
| Cursor.ByteEnd | ref-impl/rs/src/lib.rs:192-204 | scanning for a byte stops at its first occurrence, or at the end |
| Cursor.IdentEnd | ref-impl/rs/src/lib.rs:180-190 | a key or constructor name is the longest run of `[A-Za-z0-9_]` |
| Cursor.DigitsEnd | ref-impl/rs/src/lib.rs:214-221 | a digit run is the longest run of `0-9` |
| Cursor.StringAt | ref-impl/go/dtxt/dtxt.go:187-196 | reading a string always succeeds, moves forward, and gives text with no backtick in it |
| Cursor.AfterComma | ref-impl/rs/src/lib.rs:150-154 | the comma step never moves back and stays within the input (or where it was, past the end) |
| Cursor.NumberEnd | ref-impl/rs/src/lib.rs:206-240 | the number scan ends within the input and never before its start |
| Cursor.NumberLexemeScan | ref-impl/go/dtxt/dtxt.go:198-235 | a number lexeme followed by a byte that cannot continue a number is scanned in full and no further, and its float reads |
| Tokens.GreedyNumberEnd | ref-impl/go/dsf/dsf.go:102-115 | a match of the number pattern `-?(0\|[1-9][0-9]*)(\.[0-9]+)?([eE][+-]?[0-9]+)?` is never empty and stays within the input |
| Tokens.DecimalGreedy | ref-impl/go/dsf/dsf.go:102-115 | the number pattern matches the whole decimal text of any integer |
| Layout.Lines | ref-impl/python/dtxt.py:212-230 | each item of an indented container is on its own line, indented one level deeper and followed by `,` |
| Layout.MemberTexts | ref-impl/python/dtxt.py:175-178 | a member is written as its key, the colon text and its value |
| Layout.ItemTexts | ref-impl/go/dsf/dsf.go:364-367 | the item texts are the items rendered one level deeper, in order |
| Layout.FieldTexts | ref-impl/go/dtxt/dtxt.go:360-396 | the member texts follow ascending key order, each key with its own value |
| Layout.RenderContainer | ref-impl/rs/src/lib.rs:329-391 | an array or object renders as its brackets around its children's texts |
| Layout.JoinLines | ref-impl/rs/src/lib.rs:335-346 | the indented layout is the pieces (item plus `,` and a line break) concatenated |
| Layout.IndentedJoin | ref-impl/python/dtxt.py:220 | joining the items with `,\n` and adding a final `,\n` equals the indented layout |
| Layout.GapShape | ref-impl/go/dsf/dsf.go:368-376 | what lies between two items is blanks around one comma, in both layouts, for every style a writer uses |
| RsParser.HexPair | ref-impl/rs/src/lib.rs:280-288 | `u8::from_str_radix` on two characters: succeeds when the second is a hex digit and the first is a hex digit or `+`, giving the byte they spell |
| RsParser.HexBytes | ref-impl/rs/src/lib.rs:280-288 | the `B` payload is read two characters at a time; a result holds half as many bytes as the payload has characters |
| RsParser.DecodePairs | ref-impl/rs/src/lib.rs:280-288 | the loop over pairs gives what `HexBytes` specifies |
| RsParser.NumberAt | ref-impl/rs/src/lib.rs:206-245 | a number is the scanned lexeme when `f64` parsing accepts it, else `InvalidNumber` of that lexeme |
| RsParser.ValueAt | ref-impl/rs/src/lib.rs:107-130 | a value parse that succeeds moves the cursor forward (the recursion terminates) |
| RsParser.DispatchAt | ref-impl/rs/src/lib.rs:111-129 | the end of input gives `UnexpectedEOF`; the first byte decides the kind: `{` object, `[` array, backtick string, `-` or digit number, never an `Int`; a byte that starts no value gives `UnexpectedChar` at that position; a success moves the cursor forward |
| RsParser.ConstructorAt | ref-impl/rs/src/lib.rs:247-291 | a constructor that succeeds ends after its start and yields a date, a big integer or bytes |
| RsParser.Convert | ref-impl/rs/src/lib.rs:273-289 | `D` always succeeds with the payload as date text; `BN` gives the payload's `i64` value; `B` gives the decoded hex bytes; any other name is `InvalidConstructor` of that name |
| RsParser.ObjectAt | ref-impl/rs/src/lib.rs:132-159 | an object parse that succeeds ends inside the input, after its start |
| RsParser.MembersAt | ref-impl/rs/src/lib.rs:136-155 | the member loop ends inside the input when it succeeds |
| RsParser.MembersAtStep | ref-impl/rs/src/lib.rs:139-154 | a member that parses is stored, overwriting an earlier equal key, and the loop goes on after an optional comma |
| RsParser.MembersAtFail | ref-impl/rs/src/lib.rs:139-147 | a member that fails fails the object with the same error |
| RsParser.MemberAt | ref-impl/rs/src/lib.rs:139-147 | a member parse (key, `:`, value) that succeeds moves the cursor forward |
| RsParser.ArrayAt | ref-impl/rs/src/lib.rs:161-178 | an array parse that succeeds ends inside the input, after its start |
| RsParser.ElemsAt | ref-impl/rs/src/lib.rs:165-174 | the element loop ends inside the input when it succeeds |
| RsParser.ElemsAtStep | ref-impl/rs/src/lib.rs:167-173 | an element that parses is appended, and the loop goes on after an optional comma |
| RsParser.ElemsAtFail | ref-impl/rs/src/lib.rs:167 | an element that fails fails the array with the same error |
| RsParser.RootOpenerUnchecked | ref-impl/rs/src/lib.rs:132-137 | as written, the root's opening byte is skipped unchecked: `[a:1}` parses as the object `{a: 1}` |
| RsParser.ParseChecked | ref-impl/rs/src/lib.rs:97-105 | with the root opener checked, a document parses only when it starts with `{`, and then exactly as before |
| RsParser.ParseNoRoot | ref-impl/rs/src/lib.rs:132-143 | a document of blanks and comments only is an error (`UnexpectedEOF`), with or without the root check; in the source `parse_object` first moves the cursor one past the end (lib.rs:133) and `parse_key` then panics on the out-of-range slice at lib.rs:189 |
| RsParser.DSFParser.constructor | ref-impl/rs/src/lib.rs:46-51 | a new parser is at position 0 of its input |
| RsParser.DSFParser.Advance | ref-impl/rs/src/lib.rs:63-65 | advancing moves the cursor one byte |
| RsParser.DSFParser.SkipWhitespace | ref-impl/rs/src/lib.rs:68-86 | the skipping loop reaches `SkipWs` |
| RsParser.DSFParser.SkipComment | ref-impl/rs/src/lib.rs:72-82 | a comment is skipped to just past its line feed, or to the end |
| RsParser.DSFParser.Parse | ref-impl/rs/src/lib.rs:97-105 | the document method gives the grammar's result: an object, then only blanks, else `TrailingData` at the first leftover byte |
| RsParser.DSFParser.ParseValue | ref-impl/rs/src/lib.rs:107-130 | the value method returns what `ValueAt` gives and leaves the cursor where it ends |
| RsParser.DSFParser.ParseObject | ref-impl/rs/src/lib.rs:132-159 | the object method returns what `ObjectAt` gives and leaves the cursor where it ends |
| RsParser.DSFParser.ParseMember | ref-impl/rs/src/lib.rs:137-155 | one turn of the member loop: its error is the object's error, or the loop goes on with the member stored |
| RsParser.DSFParser.ParseKeyValue | ref-impl/rs/src/lib.rs:139-147 | key, `:` and value as `MemberAt` specifies |
| RsParser.DSFParser.ParseArray | ref-impl/rs/src/lib.rs:161-178 | the array method returns what `ArrayAt` gives and leaves the cursor where it ends |
| RsParser.DSFParser.ParseElement | ref-impl/rs/src/lib.rs:166-174 | one turn of the element loop: its error is the array's error, or the loop goes on with the element appended |
| RsParser.DSFParser.SkipComma | ref-impl/rs/src/lib.rs:150-154 | the optional comma after an item is consumed as `AfterComma` specifies |
| RsParser.DSFParser.ParseKey | ref-impl/rs/src/lib.rs:180-190 | a key is the identifier run at the cursor; past the end it is `UnexpectedEOF` |
| RsParser.DSFParser.ParseString | ref-impl/rs/src/lib.rs:192-204 | a string is read as `StringAt` specifies |
| RsParser.DSFParser.SkipDigits | ref-impl/rs/src/lib.rs:218-220 | the digit loop stops where `DigitsEnd` says |
| RsParser.DSFParser.ParseNumber | ref-impl/rs/src/lib.rs:206-245 | the number method gives what `NumberAt` specifies |
| RsParser.DSFParser.ScanInt | ref-impl/rs/src/lib.rs:209-221 | sign and integer digits end where `AfterInt` says |
| RsParser.DSFParser.ScanFrac | ref-impl/rs/src/lib.rs:223-229 | a `.` is taken with all digits after it, possibly none |
| RsParser.DSFParser.ScanExp | ref-impl/rs/src/lib.rs:231-240 | `e`/`E` is taken with an optional sign and all digits after it, possibly none |
| RsParser.DSFParser.ParseConstructor | ref-impl/rs/src/lib.rs:247-291 | name, `(`, payload up to `)`, then `D`/`BN`/`B` conversion or `InvalidConstructor` |
| RsParser.ParseText | ref-impl/rs/src/lib.rs:396-399 | `parse` runs a new parser over the input and gives `Parse` of it |
| RsStringify.AppendHex | ref-impl/rs/src/lib.rs:322-328 | the byte loop appends the upper-case hex of the bytes |
| RsStringify.StringifyValue | ref-impl/rs/src/lib.rs:301-393 | writing a value appends exactly `Render` of it at its level |
| RsStringify.ArrayLines | ref-impl/rs/src/lib.rs:335-346 | the indented element loop appends the indented lines of the items |
| RsStringify.ArrayJoined | ref-impl/rs/src/lib.rs:347-354 | the compact element loop appends the items joined by `,` |
| RsStringify.ObjectLines | ref-impl/rs/src/lib.rs:366-379 | the indented member loop appends one line per key, in ascending key order |
| RsStringify.ObjectJoined | ref-impl/rs/src/lib.rs:380-389 | the compact member loop appends `key:value` pairs joined by `,`, in ascending key order |
| RsStringify.Stringify | ref-impl/rs/src/lib.rs:295-299 | `stringify` gives `Render` with indent `Some(ind)` as the indented layout and `None` as compact |
| RsStringify.HexUpperConcat | ref-impl/rs/src/lib.rs:322-328 | the hex of a byte sequence is built byte by byte |
| RsRoundTrip.HexBytesRoundTrip | ref-impl/rs/src/lib.rs:280-288 | reading back written hex gives the bytes |
| RsRoundTrip.StrAt | ref-impl/rs/src/lib.rs:303-307 | a written string (free of backticks) reads back as itself |
| RsRoundTrip.NumberAtLexeme | ref-impl/rs/src/lib.rs:206-245 | a number lexeme the writer prints unchanged reads back as the same number |
| RsRoundTrip.LiteralAt | ref-impl/rs/src/lib.rs:114-125 | `T`, `F` and `N` followed by a delimiter read back as true, false and null |
| RsRoundTrip.BigIntAt | ref-impl/rs/src/lib.rs:275-279 | `BN(n)` reads back as `n` when `n` fits in 64 bits |
| RsRoundTrip.DateAt | ref-impl/rs/src/lib.rs:274 | `D(t)` reads back as the same instant text |
| RsRoundTrip.BytesAt | ref-impl/rs/src/lib.rs:280-288 | `B(hex)` reads back as the same bytes |
| RsRoundTrip.ValueText | ref-impl/rs/src/lib.rs:301-393 | any encodable value's text, followed by a delimiter, reads back as the value with the cursor just past it |
| RsRoundTrip.ArrayText | ref-impl/rs/src/lib.rs:161-178 | a written array reads back item by item |
| RsRoundTrip.ObjectText | ref-impl/rs/src/lib.rs:132-159 | a written object reads back member by member |
| RsRoundTrip.ParseRender | ref-impl/rs/src/lib.rs:396-399 | `parse(stringify(obj))` gives `obj` in both layouts, for every object the port can write back unchanged |
| RsRoundTrip.RsStyleSpaced | ref-impl/rs/src/lib.rs:295-299 | any blank indent gives a style the parser reads back |
| RsRoundTrip.StringifyThenParse | ref-impl/rs/src/lib.rs:295-399 | running the writer and then the parser gives the object back |
| DsfLexer.SpaceEnd | ref-impl/go/dsf/dsf.go:155-159 | skipping whitespace stops at the first byte `unicode.IsSpace` rejects: it skips space, tab, line feed, vertical tab, form feed, carriage return, 0x85 and 0xA0 |
| DsfLexer.WordEnd | ref-impl/go/dsf/dsf.go:118-122 | a word is the longest run of identifier bytes |
| DsfLexer.PayloadEnd | ref-impl/go/dsf/dsf.go:126-132 | a constructor payload runs to the first `)`, `(` or blank |
| DsfLexer.Lex | ref-impl/go/dsf/dsf.go:50-153 | `NextToken` never moves back, yields well-formed tokens, and moves forward on every token except EOF |
| DsfLexer.TokenAt | ref-impl/go/dsf/dsf.go:65-152 | the dispatch on the first byte after whitespace and comments keeps the same guarantees |
| DsfLexer.NumberToken | ref-impl/go/dsf/dsf.go:102-115 | a number token is the greedy number match, and only when no identifier byte follows it |
| DsfLexer.WordAt | ref-impl/go/dsf/dsf.go:117-150 | a word gives a key, a literal or a constructor token, moving forward |
| DsfLexer.Lexer.constructor | ref-impl/go/dsf/dsf.go:46-48 | a new lexer is at the start of its input |
| DsfLexer.Lexer.Peek | ref-impl/go/dsf/dsf.go:161-166 | `peek` is the next byte, or 0 at the end |
| DsfLexer.Lexer.NextToken | ref-impl/go/dsf/dsf.go:50-153 | the method returns the token `Lex` specifies and leaves the position where it ends |
| DsfLexer.Lexer.LexString | ref-impl/go/dsf/dsf.go:89-100 | a backtick string token, or `UnterminatedString` |
| DsfLexer.Lexer.LexWord | ref-impl/go/dsf/dsf.go:117-150 | a word or constructor token as `WordAt` specifies |
| DsfLexer.Lexer.LexPayload | ref-impl/go/dsf/dsf.go:124-137 | a payload ends at `)`; a `(` or blank before it is `InvalidPayloadChar`, and the end of input is `UnterminatedConstructor` |
| DsfLexer.Lexer.SkipWhitespace | ref-impl/go/dsf/dsf.go:155-159 | the whitespace loop reaches `SpaceEnd` |
| DsfLexer.Lexer.SkipTo | ref-impl/go/dsf/dsf.go:57-61 | the comment loop stops at the first line feed |
| DsfLexer.Lexer.SkipWord | ref-impl/go/dsf/dsf.go:119-122 | the identifier loop reaches `WordEnd` |
| DsfParser.Advance | ref-impl/go/dsf/dsf.go:184-189 | `nextToken` after an error changes nothing (the error and the last token stick); otherwise it moves forward |
| DsfParser.NumberValue | ref-impl/go/dsf/dsf.go:212-218 | a lexeme with `.`, `e` or `E` is a float when finite; any other lexeme is an `int64` read in decimal; anything else is `InvalidNumber` |
| DsfParser.ReadDate | ref-impl/go/dsf/dsf.go:305-313 | `D` is an RFC 3339 instant, else a calendar date, else the payload as a string |
| DsfParser.ConstructorValue | ref-impl/go/dsf/dsf.go:296-329 | no `(` means `InvalidConstructor`; `BN` is a decimal big integer; `B` is even-length hex |
| DsfParser.ValueAt | ref-impl/go/dsf/dsf.go:202-235 | a value parse that succeeds consumes at least one token and keeps the state consistent |
| DsfParser.ObjectAt | ref-impl/go/dsf/dsf.go:237-272 | an object parse that succeeds consumes at least one token |
| DsfParser.MembersAt | ref-impl/go/dsf/dsf.go:243-266 | the member loop consumes tokens when it succeeds; a repeated key fails before its colon |
| DsfParser.ArrayAt | ref-impl/go/dsf/dsf.go:274-294 | an array parse that succeeds consumes at least one token |
| DsfParser.ElemsAt | ref-impl/go/dsf/dsf.go:277-288 | the element loop consumes tokens when it succeeds |
| DsfParser.ParseReported | ref-impl/go/dsf/dsf.go:191-200 | with lexer errors reported, a document is accepted only when it lexes cleanly to the end, and then as before |
| DsfParser.TrailingLexErrorAccepted | ref-impl/go/dsf/dsf.go:184-200 | as written, `{} @` parses as an empty object: the lexer's error on `@` is stored but never reported |
| DsfParser.TrailingDocument | ref-impl/go/dsf/dsf.go:184-200 | the same fact about `{} @`, stated over the text |
| DsfParser.TrailingStates | ref-impl/go/dsf/dsf.go:184-189 | the states the parser passes through on `{} @`; the last one has the EOF token and the stored error |
| DsfParser.TrailingLex | ref-impl/go/dsf/dsf.go:50-153 | the lexer gives `{`, `}`, then an unexpected-character error at `@` |
| DsfParser.DottedKeyRejected | ref-impl/go/dsf/dsf_test.go:72-77 | `{ user.name: 1 }` fails: the lexer stops at `.`, leaving the EOF token where the parser expects a colon |
| DsfParser.DigitLedKey | ref-impl/go/dsf/dsf.go:102-114 | `123abc` lexes as one key token, because the number match is followed by an identifier character |
| DsfParser.Parser.constructor | ref-impl/go/dsf/dsf.go:178-182 | `NewParser` reads the first token |
| DsfParser.Parser.NextToken | ref-impl/go/dsf/dsf.go:184-189 | the method moves the state as `Advance` specifies |
| DsfParser.Parser.Parse | ref-impl/go/dsf/dsf.go:191-200 | the document is an object followed by the EOF token, else `TrailingData` |
| DsfParser.Parser.ParseValue | ref-impl/go/dsf/dsf.go:202-235 | the value method returns what `ValueAt` gives and leaves the state where it ends |
| DsfParser.Parser.ParseObject | ref-impl/go/dsf/dsf.go:237-272 | the object method returns what `ObjectAt` gives and leaves the state where it ends |
| DsfParser.Parser.ParseArray | ref-impl/go/dsf/dsf.go:274-294 | the array method returns what `ArrayAt` gives and leaves the state where it ends |
| DsfParser.ParseText | ref-impl/go/dsf/dsf.go:405-408 | `Parse` runs a new parser and gives `ParseAll` of the input |
| DsfStringify.ObjectItems | ref-impl/go/dsf/dsf.go:342-350 | the member texts are in ascending key order, each key followed by the colon text and its value |
| DsfStringify.ArrayItems | ref-impl/go/dsf/dsf.go:364-367 | the item texts are the items written one level deeper, in order |
| DsfStringify.Stringify | ref-impl/go/dsf/dsf.go:331-333 | `Stringify` gives `Render`: a non-empty indent gives the indented layout and an empty one the compact layout with items joined by `,`; both put `: ` between a key and its value |
| DsfStringify.StringifyRender | ref-impl/go/dsf/dsf.go:335-403 | the recursive writer equals `Render` at every level |
| DsfStringify.ObjectRender | ref-impl/go/dsf/dsf.go:338-359 | an object's text equals `Render` of it |
| DsfStringify.ArrayRender | ref-impl/go/dsf/dsf.go:360-376 | an array's text equals `Render` of it |
| DsfRoundTrip.StringLex | ref-impl/go/dsf/dsf.go:89-100 | a written string lexes as one string token |
| DsfRoundTrip.NumberLex | ref-impl/go/dsf/dsf.go:102-115 | a written number lexes as one number token |
| DsfRoundTrip.LiteralLex | ref-impl/go/dsf/dsf.go:117-150 | `T`, `F` and `N` lex as literal tokens |
| DsfRoundTrip.KeyLex | ref-impl/go/dsf/dsf.go:117-150 | a key that is not a literal and does not look like a number lexes as one key token |
| DsfRoundTrip.ConstructorLex | ref-impl/go/dsf/dsf.go:117-137 | `NAME(payload)` lexes as one constructor token |
| DsfRoundTrip.IntValue | ref-impl/go/dsf/dsf.go:218 | the text of an `int64` reads back as the same integer |
| DsfRoundTrip.FloatAt | ref-impl/go/dsf/dsf.go:215-216 | a finite float lexeme reads back as the same number |
| DsfRoundTrip.BigIntRead | ref-impl/go/dsf/dsf.go:314-319 | `BN(n)` reads back as `n` for any integer |
| DsfRoundTrip.BytesRead | ref-impl/go/dsf/dsf.go:320-325 | `B(hex)` reads back as the bytes |
| DsfRoundTrip.DateRead | ref-impl/go/dsf/dsf.go:305-313 | `D(t)` reads back as the instant whose text the writer printed |
| DsfRoundTrip.ValueText | ref-impl/go/dsf/dsf.go:202-235 | any encodable value's text reads back as the value, leaving the parser on the token after it |
| DsfRoundTrip.ArrayText | ref-impl/go/dsf/dsf.go:274-294 | a written array reads back item by item |
| DsfRoundTrip.ObjectText | ref-impl/go/dsf/dsf.go:237-272 | a written object reads back member by member |
| DsfRoundTrip.ParseRender | ref-impl/go/dsf/dsf.go:331-408 | `Parse(Stringify(obj))` gives `obj` in both layouts, also with lexer errors reported |
| DsfRoundTrip.DsfStyleSpaced | ref-impl/go/dsf/dsf.go:331-333 | any blank indent gives a style the parser reads back |
| DsfRoundTrip.StringifyThenParse | ref-impl/go/dsf/dsf_test.go:11-70 | running the writer and then the parser gives the object back |
| DtxtParser.NumberAt | ref-impl/go/dtxt/dtxt.go:198-235 | the scanned lexeme is a number when `ParseFloat` accepts it and it is finite; otherwise the parse fails |
| DtxtParser.ConstructorAt | ref-impl/go/dtxt/dtxt.go:237-284 | a constructor that succeeds ends after its start and yields a date, a big integer, bytes, or (for `D` only) the payload as a string |
| DtxtParser.Convert | ref-impl/go/dtxt/dtxt.go:261-283 | `D` always succeeds, as a date exactly when RFC 3339 parsing accepts the payload and otherwise as the payload string; `BN` gives the payload's decimal value; `B` gives the hex-decoded bytes; any other name is an unknown-constructor error |
| DtxtParser.ConstructorScanned | ref-impl/go/dtxt/dtxt.go:237-284 | name, `(` and payload up to `)` give the `D`/`BN`/`B` conversion or an unknown-constructor error |
| DtxtParser.ValueAt | ref-impl/go/dtxt/dtxt.go:77-114 | a value parse that succeeds moves the cursor forward |
| DtxtParser.DispatchAt | ref-impl/go/dtxt/dtxt.go:79-113 | at the end of input the current byte reads as NUL and gives an unexpected-character error; the first byte decides the kind: `{` object, `[` array, `-` or digit number, a string only from a backtick or a `D` constructor, never an integer; a byte that starts no value gives an unexpected-character error at that position; a success moves the cursor forward |
| DtxtParser.ObjectAt | ref-impl/go/dtxt/dtxt.go:116-149 | an object parse that succeeds ends inside the input, after its start |
| DtxtParser.MembersAt | ref-impl/go/dtxt/dtxt.go:120-145 | the member loop ends inside the input when it succeeds |
| DtxtParser.MembersAtStep | ref-impl/go/dtxt/dtxt.go:123-144 | a member that parses is stored, overwriting an earlier equal key, and the loop goes on after an optional comma |
| DtxtParser.MembersAtFail | ref-impl/go/dtxt/dtxt.go:123-137 | a member that fails fails the object |
| DtxtParser.MemberAt | ref-impl/go/dtxt/dtxt.go:123-137 | a member parse (key, `:`, value) that succeeds moves the cursor forward |
| DtxtParser.ArrayAt | ref-impl/go/dtxt/dtxt.go:151-172 | an array parse that succeeds ends inside the input, after its start |
| DtxtParser.ElemsAt | ref-impl/go/dtxt/dtxt.go:155-168 | the element loop ends inside the input when it succeeds |
| DtxtParser.ElemsAtStep | ref-impl/go/dtxt/dtxt.go:157-167 | an element that parses is appended and the loop goes on after an optional comma |
| DtxtParser.ElemsAtFail | ref-impl/go/dtxt/dtxt.go:157-160 | an element that fails fails the array |
| DtxtParser.RootOpenerUnchecked | ref-impl/go/dtxt/dtxt.go:116-117 | as written, the root's opening byte is skipped unchecked: `[a:1}` parses as `{a: 1}` |
| DtxtParser.ParseChecked | ref-impl/go/dtxt/dtxt.go:64-75 | with the root opener checked, a document parses only when it starts with `{`, and then exactly as before |
| DtxtParser.Parser.constructor | ref-impl/go/dtxt/dtxt.go:23-28 | a new parser is at position 0 |
| DtxtParser.Parser.Advance | ref-impl/go/dtxt/dtxt.go:37-39 | advancing moves one byte |
| DtxtParser.Parser.SkipWhitespace | ref-impl/go/dtxt/dtxt.go:41-61 | blanks and `//` comments are skipped as `SkipWs` specifies |
| DtxtParser.Parser.Parse | ref-impl/go/dtxt/dtxt.go:64-75 | an object, then only blanks, else trailing data |
| DtxtParser.Parser.ParseValue | ref-impl/go/dtxt/dtxt.go:77-114 | the method returns what `ValueAt` gives and leaves the cursor where it ends |
| DtxtParser.Parser.ParseObject | ref-impl/go/dtxt/dtxt.go:116-149 | the method returns what `ObjectAt` gives and leaves the cursor where it ends |
| DtxtParser.Parser.ParseMember | ref-impl/go/dtxt/dtxt.go:121-144 | one turn of the member loop, as `MembersAt` specifies |
| DtxtParser.Parser.ParseKeyValue | ref-impl/go/dtxt/dtxt.go:123-137 | key, `:` and value as `MemberAt` specifies |
| DtxtParser.Parser.ParseArray | ref-impl/go/dtxt/dtxt.go:151-172 | the method returns what `ArrayAt` gives and leaves the cursor where it ends |
| DtxtParser.Parser.ParseElement | ref-impl/go/dtxt/dtxt.go:156-167 | one turn of the element loop, as `ElemsAt` specifies |
| DtxtParser.Parser.SkipComma | ref-impl/go/dtxt/dtxt.go:140-144 | the optional comma is consumed as `AfterComma` specifies |
| DtxtParser.Parser.ParseKey | ref-impl/go/dtxt/dtxt.go:174-185 | a key is the identifier run at the cursor |
| DtxtParser.Parser.ParseString | ref-impl/go/dtxt/dtxt.go:187-196 | a string is read as `StringAt` specifies |
| DtxtParser.Parser.SkipDigits | ref-impl/go/dtxt/dtxt.go:210-212 | the digit loop reaches `DigitsEnd` |
| DtxtParser.Parser.ParseNumber | ref-impl/go/dtxt/dtxt.go:198-235 | the method gives what `NumberAt` specifies |
| DtxtParser.Parser.ScanInt | ref-impl/go/dtxt/dtxt.go:201-213 | sign and integer digits end where `AfterInt` says |
| DtxtParser.Parser.ScanFrac | ref-impl/go/dtxt/dtxt.go:215-221 | a `.` is taken with all digits after it, possibly none |
| DtxtParser.Parser.ScanExp | ref-impl/go/dtxt/dtxt.go:223-232 | `e`/`E` is taken with an optional sign and all digits after it, possibly none |
| DtxtParser.Parser.ParseConstructor | ref-impl/go/dtxt/dtxt.go:237-284 | the method gives what `ConstructorAt` specifies |
| DtxtParser.Parser.SkipIdent | ref-impl/go/dtxt/dtxt.go:239-246 | the name loop reaches `IdentEnd` |
| DtxtParser.Parser.SkipTo | ref-impl/go/dtxt/dtxt.go:255-257 | the payload loop stops at the first `)` |
| DtxtParser.Parser.Construct | ref-impl/go/dtxt/dtxt.go:261-283 | the conversion switch gives `Convert` of the name and payload |
| DtxtParser.ParseText | ref-impl/go/dtxt/dtxt.go:287-290 | `Parse` runs a new parser and gives `Parse` of the input |
| DtxtStringify.StringifyValue | ref-impl/go/dtxt/dtxt.go:299-398 | writing a value appends exactly `Render` of it |
| DtxtStringify.ArrayLines | ref-impl/go/dtxt/dtxt.go:339-350 | the indented element loop appends the indented lines |
| DtxtStringify.ArrayJoined | ref-impl/go/dtxt/dtxt.go:351-358 | the compact element loop appends the items joined by `,` |
| DtxtStringify.ObjectLines | ref-impl/go/dtxt/dtxt.go:372-384 | the indented member loop appends one line per key, in ascending order |
| DtxtStringify.ObjectJoined | ref-impl/go/dtxt/dtxt.go:385-394 | the compact member loop appends the members joined by `,`, in ascending order |
| DtxtStringify.Stringify | ref-impl/go/dtxt/dtxt.go:293-297 | `Stringify` gives `Render` with its style; instants are written with a `.000Z` ending shortened to `Z` |
| DtxtRoundTrip.StrAt | ref-impl/go/dtxt/dtxt.go:187-196 | a written string reads back as itself |
| DtxtRoundTrip.NumberAtLexeme | ref-impl/go/dtxt/dtxt.go:198-235 | a written number lexeme reads back as the same number |
| DtxtRoundTrip.LiteralAt | ref-impl/go/dtxt/dtxt.go:95-108 | `T`, `F` and `N` read back as true, false and null |
| DtxtRoundTrip.BigIntAt | ref-impl/go/dtxt/dtxt.go:268-274 | `BN(n)` reads back as `n` |
| DtxtRoundTrip.DateAt | ref-impl/go/dtxt/dtxt.go:262-267 | `D(t)` reads back as the instant the calendar reads from its text |
| DtxtRoundTrip.BytesAt | ref-impl/go/dtxt/dtxt.go:275-280 | `B(hex)` reads back as the bytes |
| DtxtRoundTrip.ValueText | ref-impl/go/dtxt/dtxt.go:77-114 | any encodable value's text reads back as the value |
| DtxtRoundTrip.ArrayText | ref-impl/go/dtxt/dtxt.go:151-172 | a written array reads back item by item |
| DtxtRoundTrip.ObjectText | ref-impl/go/dtxt/dtxt.go:116-149 | a written object reads back member by member |
| DtxtRoundTrip.ParseRender | ref-impl/go/dtxt/dtxt.go:287-297 | `Parse(Stringify(obj))` gives `obj` in both layouts, and so does the parser with the root opener checked |
| DtxtRoundTrip.DtxtStyleSpaced | ref-impl/go/dtxt/dtxt.go:293-297 | any blank indent gives a style the parser reads back |
| DtxtRoundTrip.StringifyThenParse | ref-impl/go/dtxt/dtxt.go:287-297 | running the writer and then the parser gives the object back |
| PyLexer.Accept | ref-impl/python/dtxt.py:20 | the number pattern's lookahead: a match stands only when no identifier character follows it |
| PyLexer.PyNumberEnd | ref-impl/python/dtxt.py:20 | the backtracking number match ends before a non-identifier character |
| PyLexer.PyPayloadEnd | ref-impl/python/dtxt.py:13 | a constructor payload runs to the first `(`, `)` or blank |
| PyLexer.ConstructorEnd | ref-impl/python/dtxt.py:13 | a constructor token is a name, `(`, a payload and `)` |
| PyLexer.BlankEnd | ref-impl/python/dtxt.py:25 | whitespace is the longest run of blanks |
| PyLexer.LiteralAt | ref-impl/python/dtxt.py:21-23 | `T`, `F` and `N` are literal tokens of their letter |
| PyLexer.ScanAt | ref-impl/python/dtxt.py:10-27 | the alternatives are tried in list order; a token is never empty and never EOF |
| PyLexer.TokensFrom | ref-impl/python/dtxt.py:29-42 | the token list skips blanks and comments and ends with exactly one EOF |
| PyLexer.Tokenize | ref-impl/python/dtxt.py:29-42 | the `finditer` loop gives `TokensFrom` of the text |
| PyLexer.TokensErrors | ref-impl/python/dtxt.py:39-40 | the only lexing error is `Unexpected character` |
| PyLexer.DigitKey | ref-impl/python/tests/test_dsf.py:60-65 | `123key` is one key token, not a number followed by a key |
| PyParser.Inner | ref-impl/python/dtxt.py:74 | a string token's value is the text between its backticks |
| PyParser.NumberValue | ref-impl/python/dtxt.py:75-79 | a lexeme with `.`, `e` or `E` is a float, and any other is an `int` |
| PyParser.DateValue | ref-impl/python/dtxt.py:143-153 | `D` gives an instant, or the payload as a string when it does not parse |
| PyParser.GreedyPayloadIsLast | ref-impl/python/dtxt.py:138 | the greedy `\((.*)\)` takes the payload up to the last `)` |
| PyParser.ConstructorCases | ref-impl/python/dtxt.py:143-164 | `D` never fails; `BN` needs `-?[0-9]+`; `B` needs even-length hex; other names are unknown |
| PyParser.ConstructorValue | ref-impl/python/dtxt.py:136-141 | a token without a name before `(` is an invalid constructor |
| PyParser.ConstructorRegex | ref-impl/python/dtxt.py:136-164 | on `NAME(payload)` the pattern splits out exactly the name and the payload |
| PyParser.ValueAt | ref-impl/python/dtxt.py:66-93 | a value parse that succeeds consumes at least one token and stops before EOF |
| PyParser.ObjectAt | ref-impl/python/dtxt.py:95-119 | an object parse that succeeds consumes at least one token |
| PyParser.MembersAt | ref-impl/python/dtxt.py:98-116 | the member loop consumes tokens when it succeeds |
| PyParser.MemberStops | ref-impl/python/dtxt.py:101-109 | a token that cannot be a key, a repeated key, or a missing colon fails with that error |
| PyParser.ValueStops | ref-impl/python/dtxt.py:110 | a member value that fails fails the object |
| PyParser.MemberNext | ref-impl/python/dtxt.py:110-114 | a good member is stored and the loop continues after `,` or at `}` |
| PyParser.MemberFail | ref-impl/python/dtxt.py:115-116 | anything else after a member is `ExpectedCommaOrBrace` |
| PyParser.ArrayAt | ref-impl/python/dtxt.py:121-134 | an array parse that succeeds consumes at least one token |
| PyParser.ElemsAt | ref-impl/python/dtxt.py:124-131 | the element loop consumes tokens when it succeeds |
| PyParser.Parser.constructor | ref-impl/python/dtxt.py:45-47 | a new parser is at token 0 |
| PyParser.Parser.Peek | ref-impl/python/dtxt.py:49-50 | `peek` is the current token, which is EOF only at the last position |
| PyParser.Parser.Consume | ref-impl/python/dtxt.py:52-57 | consuming the wrong kind is `Expected(kind, got)`; otherwise it returns the token's text and moves one token |
| PyParser.Parser.Parse | ref-impl/python/dtxt.py:59-64 | an object followed by EOF, else trailing data |
| PyParser.Parser.ParseValue | ref-impl/python/dtxt.py:66-93 | the method returns what `ValueAt` gives |
| PyParser.Parser.ParseObject | ref-impl/python/dtxt.py:95-119 | the method returns what `ObjectAt` gives |
| PyParser.Parser.ParseArray | ref-impl/python/dtxt.py:121-134 | the method returns what `ArrayAt` gives |
| PyParser.Load | ref-impl/python/dtxt.py:166-169 | `load` tokenizes and parses, giving `Loaded` |
| PyDumps.Normal | ref-impl/python/dtxt.py:154-157 | Python keeps no separate big-integer type, so `BN(n)` reads as the plain integer `n` |
| PyDumps.DumpsCanonical | ref-impl/python/dtxt.py:204-230 | without indent it is `Render` in the `, ` / `: ` compact style; with an indent it is the two-space indented layout |
| PyDumps.DumpsRender | ref-impl/python/dtxt.py:171-202 | `dumps` equals `Render` in the compact style, an instant written as its `isoformat()` with `+00:00` replaced by `Z` |
| PyDumps.DumpsObject | ref-impl/python/dtxt.py:172-178 | an object is written as sorted `key: value` pairs joined by `, ` |
| PyDumps.DumpsArray | ref-impl/python/dtxt.py:179-181 | an array is written as its items joined by `, ` |
| PyDumps.DumpRender | ref-impl/python/dtxt.py:212-228 | `_dump` equals `Render` in the indented style |
| PyDumps.DumpObject | ref-impl/python/dtxt.py:214-220 | an indented object has one line per key, each followed by `,` |
| PyDumps.DumpArray | ref-impl/python/dtxt.py:221-226 | an indented array has one line per item, each followed by `,` |
| PyRoundTrip.StringLex | ref-impl/python/dtxt.py:12 | a written string is one string token |
| PyRoundTrip.NumberLex | ref-impl/python/dtxt.py:20 | a written number is one number token |
| PyRoundTrip.LiteralLex | ref-impl/python/dtxt.py:21-23 | `T`, `F` and `N` are literal tokens |
| PyRoundTrip.ConstructorLex | ref-impl/python/dtxt.py:13 | a written constructor is one constructor token |
| PyRoundTrip.KeyLex | ref-impl/python/dtxt.py:24 | a key is one token of a key kind |
| PyRoundTrip.ValueLex | ref-impl/python/dtxt.py:29-42 | a written value tokenizes to the tokens the parser expects for it |
| PyRoundTrip.StrRead | ref-impl/python/dtxt.py:72-74 | a string token reads back as the string |
| PyRoundTrip.IntRead | ref-impl/python/dtxt.py:75-79 | an integer's text reads back as the integer |
| PyRoundTrip.DateRead | ref-impl/python/dtxt.py:143-153 | the written `D(..)` of an instant whose `isoformat()` text the calendar reads as itself reads back as the same instant, through the writer's `+00:00` to `Z` rewrite and the reader's `Z` to `+00:00` one |
| PyRoundTrip.PrintedRead | ref-impl/python/dtxt.py:193-197 | on text without `Z` the reader's `Z` to `+00:00` rewrite undoes the writer's `+00:00` to `Z` one; neither adds or removes a `T`; text without `+` is written unchanged |
| PyRoundTrip.PrintedPayload | ref-impl/python/dtxt.py:193-197 | the writer's rewrite keeps a payload free of parentheses and blanks |
| PyRoundTrip.ReplaceBack | ref-impl/python/dtxt.py:193-197 | replacing `+00:00` by `Z` and then `Z` by `+00:00` gives back any text without `Z` |
| PyRoundTrip.BytesRead | ref-impl/python/dtxt.py:158-162 | `B(hex)` reads back as the bytes |
| PyRoundTrip.ValueParse | ref-impl/python/dtxt.py:66-93 | the tokens of a written value parse back as the value |
| PyRoundTrip.ParseRender | ref-impl/python/dtxt.py:166-169 | loading text written in either style gives the object back, for every object the port can write back unchanged |
| PyRoundTrip.DumpsRoundTrip | ref-impl/python/tests/test_dsf.py:42-48 | `loads(dumps(obj)) == obj` and `loads(dumps_canonical(obj, indent)) == obj` |
| PyRoundTrip.LoadsDumps | ref-impl/python/tests/test_dsf.py:42-48 | running `dumps` and then `loads` gives the object back |
| PyRoundTrip.TagDumps | ref-impl/python/dtxt.py:171-178 | `dumps({"Tag": 1})` is `{Tag: 1}` |
| PyRoundTrip.TagSplit | ref-impl/python/dtxt.py:21-24 | as written, loading `{Tag: 1}` fails: the `T` pattern is tried before the key pattern, so `Tag` splits into `T` and `ag` |
| PyRoundTrip.TagRead | ref-impl/python/dtxt.py:21-24 | with literals taken only where no identifier character follows, `{Tag: 1}` loads as `{"Tag": 1}` |

## Left out

- Floating point: parsing and printing a float (`f64`, `float64`, `float`) are the parameters
  `Library.finite` and `show`. A `Number` keeps its lexeme. Rounding, `NaN` and infinities
  are not modelled.
- Calendar parsing (`time.Parse`, `datetime.fromisoformat`, `strptime`) is the `Calendar`
  parameter, a partial function from payload text to the instant's text. The Python
  distinction between `date` and `datetime` is not modelled.
- Text encoding: strings are sequences of characters standing for bytes. Rust's
  `from_utf8_lossy` and Go's byte versus rune indexing are not modelled. Identifier bytes
  in the Go dsf lexer are Latin-1 letters, digits and `_`.
- Panics and exceptions are error results. Which message text each error carries is not
  modelled.
- Object member order: objects are maps, so insertion order and hash order are not
  modelled. The writers sort keys, and that order is modelled.
- Values a port cannot hold are outside its writer's contract: Rust's `DSFValue` has no
  integer variant, and Go's `int` is 64 bits. Python's `dumps` raises on an unsupported
  type, which the closed value type cannot express.
- Python's `re` engine is modelled by a hand-written scanner for the fourteen patterns of
  the token list, tried in order with backtracking in the number pattern. Python's `\d`,
  which matches every Unicode decimal digit, is read as `[0-9]`, so a number such as `1٣`,
  which Python loads as `13`, is a lexer error here. Other regular expressions are not
  modelled.
- `DtxtParser.Parser.ParseKey`: past the end of the input (blank-only or comment-only input, after `parseObject` has moved the cursor one past the end at dtxt.go:117) the slice at dtxt.go:184 is bounded by the capacity of `[]byte(input)`, which Go leaves unspecified. Go returns the empty key only when that slice has spare capacity, and otherwise panics. The model always returns `""`, and `MemberAt` then fails with `ExpectedColon`, so the document is an error either way.
- `RsRoundTrip.ParseRender`: stated for objects whose strings hold no backtick, whose keys are identifiers, whose float lexemes print back unchanged and whose big integers fit in 64 bits. Outside those the writer's output does not read back; the source does not escape anything.
- `DsfRoundTrip.ParseRender`, `DtxtRoundTrip.ParseRender` and `PyRoundTrip.ParseRender`: stated under the same kind of condition (`Encodable`, `PyEncodable`). The blank-indent condition `Spaced` is on the style.
- `PyRoundTrip.DumpsRoundTrip`: stated for both lexers through the `fixed` flag. With the lexer as written, `PyKey` leaves out keys of more than one character that start with `T`, `F` or `N`, because that lexer splits them (see Findings).
- `DsfRoundTrip.ParseRender`: a float whose `%g` text has no `.`, `e` or `E` does not read back as a float. `{a: 1.0}` reads as `float64(1)`, is written as `1` and reads back as `int64(1)`. `Encodable` leaves such floats out through its condition `show(t) == t`.
- The conformance runners, benchmarks and command-line programs (`main.rs`, `run_conformance.*`, `benchmark.*`, `cmd/conformance/main.go`) are not part of this model.
- The Rust and Go dtxt parsers keep a repeated key by overwriting the earlier value. The
  Go dsf and Python parsers reject it. Each parser is modelled as its own code does it.

## Findings

| source | as written | input that shows it | evidently intended | confidence | as-written member | corrected member |
|---|---|---|---|---|---|---|
| ref-impl/rs/src/lib.rs:132-143 | `parse_object` advances past the first byte without checking that it is `{` | `[a:1}` parses as the object `{a: 1}` | a document must start with `{` | high (not executed) | RsParser.RootOpenerUnchecked | RsParser.ParseChecked |
| ref-impl/go/dtxt/dtxt.go:116-119 | `parseObject` skips the first byte without checking it | `[a:1}` parses as `{a: 1}` | a document must start with `{` | high (not executed) | DtxtParser.RootOpenerUnchecked | DtxtParser.ParseChecked |
| ref-impl/go/dsf/dsf.go:184-200 | on a lexer error `nextToken` stores the error and the zero token, whose kind is EOF; later calls do nothing, and `Parse` never looks at the stored error | `{} @` parses as an empty object | a lexing error anywhere fails the document | high (not executed) | DsfParser.TrailingLexErrorAccepted | DsfParser.ParseReported |
| ref-impl/python/dtxt.py:21-24 | `T`, `F` and `N` are tried before the key pattern, with no check on what follows | `loads(dumps({"Tag": 1}))` fails with an expected-colon error | a key starting with `T`, `F` or `N` reads as one key | high (not executed) | PyRoundTrip.TagSplit | PyRoundTrip.TagRead |

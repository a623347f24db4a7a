# hadron front ends, modelled in Dafny

This project models, and proves properties of, the two front ends of the hadron
language repository.

**The current C++ pipeline.** Source text goes to the scanner (`src/lexer.cpp`). The
scanner hands tokens to a Pratt code generator (`src/parser.cpp`). The generator writes
opcodes into a byte chunk (`include/bytecode.hpp`, `src/bytecode.cpp`) and records names
in an open-addressing symbol table (`src/symbol.cpp`). A stack machine (`src/vm.cpp`)
runs the chunk. The supporting pieces are modelled too:

- the disassembler and token spellings of `src/logger.cpp`;
- the string input of `src/input.cpp`;
- the byte helpers of `src/util.cpp`;
- the bump allocator of `include/halloc.h`;
- the path helpers and `.hbc` header of `src/file.cpp`;
- the command-line scanner of `src/arguments.cpp`.

**The older C pipeline.** It has four parts:

- the array-based scanner with its bracket checks (`src/tokenizer.c`);
- the token cursor and error recovery of the recursive-descent parser (`src/parser.c`);
- the growable pointer array (`src/util/array.c`);
- the syntax-tree-to-C emitter (`src/compiler.c`, tree types in `src/types.h`).

Where the source is a loop or updates an object in place, the model does the same.
The scanners, the parsers, the chunk, the machine, the symbol table, the allocator, the
file object, the argument scanner, the pointer array and the emitter are classes. Their
methods update fields in place, and each method is proved to follow a specification
function of the old state. The properties the source promises are then proved about
those functions as lemmas.

Some things the source does have no value in the model. `Logger::fatal` becomes a
`Fatal` outcome carrying its message. Behaviour the source leaves undefined becomes an
`Undefined` outcome or a precondition. A loop the source would never leave becomes a
`Hang` (or `Hangs`, or `None`) outcome.

Where the repository's own descriptions of the code and the code disagree, the model
follows the code. Four such places:

- `**` in the C scanner gives two MUL tokens, not the power operator the comments of
  `src/types.h` list;
- `<>` is its LSHIFT, where the same comments give `<<`;
- the `int32_t` chunk write of `src/bytecode.cpp` stores one byte, where the generic
  write of `include/bytecode.hpp` stores four;
- `src/arguments.cpp` follows neither of its headers, `include/arguments.h` and
  `include/arguments.hpp`.

Each module's doc comment names the source file it models.

## Model

| member | source | states |
|---|---|---|
| Util.StrLen | src/util.cpp:21-29 | the length of a NUL-terminated text is the index of its first NUL: no NUL comes before it |
| Util.MemCpy | src/util.cpp:3-8 | `h_memcpy` copies `n` elements from the source range into the destination range and leaves the rest of the destination unchanged |
| Util.MemCpyS | src/util.cpp:10-19 | `h_memcpy_s` returns -1 and copies nothing when either pointer is NULL or the size exceeds the destination size; otherwise it returns 0 having copied the first `sz` elements and nothing more, a copy of a buffer onto itself included |
| Util.StrLenOf | src/util.cpp:21-29 | `h_strlen` is 0 for NULL and otherwise the index of the first NUL |
| Util.StrNLen | src/util.cpp:31-40 | `h_strnlen` is 0 for NULL or a zero bound; otherwise it never exceeds the bound, passes no NUL, and stops short of the bound only on a NUL |
| Input.StringInput.constructor | include/input.h:24-25 | an input over a text starts at index 0 with nothing read and its length the text's `h_strlen`; a NULL source is the empty text, of length 0 |
| Input.StringInput.Peek | src/input.cpp:29-31 | `peek()` is the character at the index, and NUL exactly when the index has reached the length |
| Input.StringInput.Current | src/input.cpp:34 | `current()` is the character just behind the cursor, the one the last successful `next()` returned, and NUL exactly when nothing was read yet |
| Input.StringInput.Next | src/input.cpp:16-19 | `next()` returns what `peek()` showed; inside the text it advances by one and remembers the character, at the end it changes nothing |
| Input.StringInput.ReadChunk | src/input.cpp:42-43 | `read_chunk` copies `n` characters from `start` and writes a NUL right after them, leaving the rest of the buffer alone; over a NULL source only a copy of no characters is defined |
| Halloc.Arena.constructor | include/halloc.h:9-10 | the arena starts with nothing allocated |
| Halloc.Arena.Halloc | include/halloc.h:12-24 | `halloc(size)` hands out the block at the current top and moves the top by `size`; the result is the fatal "Too many allocations" exactly when the new top passes MAX_ALLOCATIONS (2048) |
| Halloc.ContiguousBelow | include/halloc.h:12-24 | blocks handed out one after another all end at or below the current top |
| Halloc.ContiguousDisjoint | include/halloc.h:12-24 | blocks handed out one after another never overlap |
| Halloc.InsideBuffer | include/halloc.h:7-24 | as long as the top has not passed MAX_ALLOCATIONS, every block lies inside the 2048-byte buffer and no two overlap |
| Lexing.Keyword | src/lexer.cpp:31-111 | the kind of a word is NAME or one of the reserved-word kinds, never anything else |
| Lexing.Start | src/lexer.cpp:6-17 | `reset` leaves a well-formed state whose lookahead is the first character of the text (NUL for an empty text) |
| Lexing.NextOf | src/lexer.cpp:113-130 | `next()` returns the old lookahead; past the end nothing changes; otherwise the cursor moves by one, the lookahead shifts by one, `line` grows by one exactly on a newline and `character` restarts at 1 after it, and no other field changes |
| Lexing.MatchOf | src/lexer.cpp:137-143 | `match(c)` is true exactly when the lookahead is `c`, and then it is one `next()`; otherwise nothing moves |
| Lexing.RunCountsLines | src/lexer.cpp:113-130 | after `n` calls of `next()` inside the text the cursor has moved by `n` and `line` has grown by the number of newlines consumed |
| Lexing.EmitOf | src/lexer.cpp:148-196 | `emit(type)` gives a token of that kind at the token's start position, or a fatal allocation failure; position and text are kept; `had_float` survives only STR and NAME |
| Lexing.Bare | src/lexer.cpp:188-195 | the default branch gives a token of the kind with no value and clears `had_float`, changing nothing else |
| Lexing.EmitString | src/lexer.cpp:159-166 | a string takes an arena block of its length between the quotes; it is fatal exactly when the arena passes MAX_ALLOCATIONS; otherwise the token holds the text between the quotes and the current constant index, which then grows by one modulo 256 |
| Lexing.EmitName | src/lexer.cpp:167-173 | a name takes a block of its length plus one; fatal exactly past MAX_ALLOCATIONS; otherwise the token holds exactly the scanned name |
| Lexing.NumFinish | src/lexer.cpp:456-474 | the literal is an ERROR exactly when a `_`/`'` separator is still pending or a hex float has no `p` exponent; otherwise its kind is the one its base and float flags select, and the state is unchanged |
| Lexing.SkipLine | src/lexer.cpp:586-589 | a `//` comment is skipped up to, not including, the next newline or the end; no newline is passed and `line` is unchanged |
| Lexing.SkipBlock | src/lexer.cpp:591-594 | the block-comment loop stops at the end of the text or right after the first `*` or `/`, passing no other `*` or `/` |
| Lexing.ReadName | src/lexer.cpp:679-685 | the name copied out of the input is exactly the text from the token's start through the cursor |
| Lexing.ReadKeyword | src/lexer.cpp:679-686 | the kind read back from the name buffer is the keyword kind of that text |
| Lexing.Run | src/lexer.cpp:113-130 | `n` calls of `next()` keeps the scanner state well formed (cursor inside the text, `end` exactly at its end) and the text unchanged |
| Lexing.NumberOf | src/lexer.cpp:214-289 | `number(first_char)` always gives a token (ERROR for a refused literal), on the same line, and keeps the scanner state well formed (cursor inside the text, `end` exactly at its end) and the text unchanged |
| Lexing.NumLoop | src/lexer.cpp:291-474 | the literal loop always ends in a token on the same line and keeps the scanner state well formed (cursor inside the text, `end` exactly at its end) and the text unchanged |
| Lexing.Quoted | src/lexer.cpp:627-670 | scanning a quoted string keeps the scanner state well formed (cursor inside the text, `end` exactly at its end) and the text unchanged |
| Lexing.Identifier | src/lexer.cpp:676-686 | scanning an identifier keeps the scanner state well formed (cursor inside the text, `end` exactly at its end) and the text unchanged |
| Lexing.WordKind | src/lexer.cpp:686 | a scanned word is NAME or one of the keyword kinds |
| Lexing.OrAssign | src/lexer.cpp:504-511 | `c` or `c=` keeps the scanner state well formed (cursor inside the text, `end` exactly at its end) and the text unchanged |
| Lexing.Doubled | src/lexer.cpp:563-580 | `cc=`, `cc`, `c=` or `c` keeps the scanner state well formed (cursor inside the text, `end` exactly at its end) and the text unchanged |
| Lexing.AssignOrDouble | src/lexer.cpp:539-556 | `c=`, `cc` or `c` keeps the scanner state well formed (cursor inside the text, `end` exactly at its end) and the text unchanged |
| Lexing.OrDouble | src/lexer.cpp:539-556 | `cc` or `c` keeps the scanner state well formed (cursor inside the text, `end` exactly at its end) and the text unchanged |
| Lexing.Operator | src/lexer.cpp:539-626 | the operator cases keeps the scanner state well formed (cursor inside the text, `end` exactly at its end) and the text unchanged |
| Lexing.Dots | src/lexer.cpp:488-501 | the `.` case keeps the scanner state well formed (cursor inside the text, `end` exactly at its end) and the text unchanged |
| Lexing.Equals | src/lexer.cpp:597-604 | the `=` case keeps the scanner state well formed (cursor inside the text, `end` exactly at its end) and the text unchanged |
| Lexing.Slash | src/lexer.cpp:585-596 | the `/` case keeps the scanner state well formed (cursor inside the text, `end` exactly at its end) and the text unchanged, and a comment it skips leaves the cursor before the end |
| Lexing.Dispatch | src/lexer.cpp:486-538 | the switch of `advance()` keeps the scanner state well formed (cursor inside the text, `end` exactly at its end) and the text unchanged; a skipped character never moves the cursor back or to the end |
| Lexing.Take | src/lexer.cpp:481-538 | one pass of the loop keeps the scanner state well formed (cursor inside the text, `end` exactly at its end) and the text unchanged; a pass that skips moves the cursor strictly forward |
| Lexing.AdvLoop | src/lexer.cpp:477-701 | the `for(;;)` loop of `advance()` keeps the scanner state well formed (cursor inside the text, `end` exactly at its end) and the text unchanged |
| Lexing.AdvanceOf | src/lexer.cpp:477-701 | `advance()` keeps the scanner state well formed (cursor inside the text, `end` exactly at its end) and the text unchanged |
| Lexing.Lexer.constructor | src/lexer.cpp:6-17 | the lexer holds the input and arena it was given and is in the `Start` state |
| Lexing.Lexer.Next | src/lexer.cpp:113-130 | updates the lexer exactly as `NextOf` says (see that row) |
| Lexing.Lexer.Current | src/lexer.cpp:132 | `current()` is the character last consumed |
| Lexing.Lexer.Peek | src/lexer.cpp:134 | `peek()` is the lookahead character |
| Lexing.Lexer.Peek2 | src/lexer.cpp:135 | `peek2()` is the character after the lookahead, NUL past the end |
| Lexing.Lexer.Match | src/lexer.cpp:137-143 | updates the lexer exactly as `MatchOf` says |
| Lexing.Lexer.Emit | src/lexer.cpp:148-196 | gives the token and new state `EmitOf` describes (kind, position, arena use, `had_float`) |
| Lexing.Lexer.StoreString | src/lexer.cpp:159-166 | gives the string token and arena use `EmitString` describes |
| Lexing.Lexer.StoreName | src/lexer.cpp:167-173 | gives the name token and arena use `EmitName` describes |
| Lexing.Lexer.EmitBare | src/lexer.cpp:188-195 | gives the value-less token `Bare` describes |
| Lexing.Lexer.EmitValue | src/lexer.cpp:198-212 | `emit(type, value)` gives a token of the kind at the token's start carrying the number, with `had_float` as the source leaves it |
| Lexing.Lexer.ExponentSign | src/lexer.cpp:423-424 | an optional `+` or `-` after the exponent letter is consumed, and the exponent is negative exactly when it was `-` |
| Lexing.Lexer.NumberPass | src/lexer.cpp:291-454 | one pass of the literal loop: the character is accepted into the literal, ends it, or makes it an ERROR, as `NumStep` decides |
| Lexing.Lexer.NumberDigit | src/lexer.cpp:293-331 | a decimal digit: `2`-`9` are refused in binary and `8`, `9` in octal; otherwise the digit is accumulated into the value |
| Lexing.Lexer.NumberLetter | src/lexer.cpp:332-396 | a hex letter or base prefix letter, dispatched as `NumLetter` says |
| Lexing.Lexer.NumberHexLetter | src/lexer.cpp:332-360 | `a`, `c`, `d`, `f` (either case) are accepted only in a hex literal before its exponent; `b`/`B` in a hex literal is the digit 11 even after the exponent; an accepted letter is added as a hex digit |
| Lexing.Lexer.NumberPrefix | src/lexer.cpp:354-396 | `b`, `o`, `x` are accepted only right after a leading `0`, and `x` only when a hex digit or `.` follows |
| Lexing.Lexer.NumberDot | src/lexer.cpp:397-411 | a `.` followed by `.` ends the literal (a range); otherwise it starts the fraction |
| Lexing.Lexer.NumberExponent | src/lexer.cpp:412-440 | `e` is a hex digit in hex and an exponent otherwise; `p` is the hex exponent; an exponent takes an optional sign |
| Lexing.Lexer.NumberFinish | src/lexer.cpp:456-474 | the checks after the loop, as `NumFinish` says |
| Lexing.Lexer.Number | src/lexer.cpp:214-289 | `number(first_char)`: the literal token and state `NumberOf` describes; always a token, never fatal |
| Lexing.Lexer.NumberLoop | src/lexer.cpp:291-474 | the literal loop runs to the token and state `NumLoop` describes |
| Lexing.Lexer.SkipLineComment | src/lexer.cpp:586-589 | skips as `SkipLine` says |
| Lexing.Lexer.SkipBlockComment | src/lexer.cpp:591-594 | skips as `SkipBlock` says |
| Lexing.Lexer.ScanQuoted | src/lexer.cpp:627-670 | a quoted string: escapes are kept, a newline inside a `"` or `'` string is the fatal "Unterminated string", a closing quote emits STR, and where the source would spin at the end of the text the result is `Hang` |
| Lexing.Lexer.ScanIdentifier | src/lexer.cpp:676-686 | an identifier is scanned and emitted as NAME or as its keyword |
| Lexing.Lexer.EmitWord | src/lexer.cpp:681-686 | the scanned word is emitted as NAME holding its text, or as its bare keyword kind; a word of 255 characters or more overflows the buffer and is `Undefined` |
| Lexing.Lexer.EmitKeyword | src/lexer.cpp:686 | `emit(keyword(buffer))` for an already known kind |
| Lexing.Lexer.ScanOrAssign | src/lexer.cpp:504-511 | `c` or `c=`: the longer kind exactly when `=` follows |
| Lexing.Lexer.ScanOrDouble | src/lexer.cpp:539-556 | `cc` or `c` |
| Lexing.Lexer.ScanAssignOrDouble | src/lexer.cpp:539-556 | `c=`, `cc` or `c`, tried in that order |
| Lexing.Lexer.ScanDoubled | src/lexer.cpp:563-580 | `cc=`, `cc`, `c=` or `c`, tried in that order |
| Lexing.Lexer.ScanOperator | src/lexer.cpp:539-626 | the operator cases of `advance()`, as `Operator` says |
| Lexing.Lexer.ScanDots | src/lexer.cpp:488-501 | after `.`: a number, `..=`, `..`, the `...` error or DOT |
| Lexing.Lexer.ScanEquals | src/lexer.cpp:597-604 | after `=`: `==`, `=..=`, `=..` or `=` |
| Lexing.Lexer.Advance | src/lexer.cpp:477-701 | `advance()` returns the token and state `AdvanceOf` describes |
| Lexing.Lexer.TakeChar | src/lexer.cpp:481-484 | one pass of the loop: the character is taken and the token's start marked there; a skipped character or comment leaves the cursor strictly further on |
| Lexing.Lexer.Scan | src/lexer.cpp:486-538 | the switch of `advance()` on the character taken |
| Lexing.Lexer.ScanSlash | src/lexer.cpp:585-596 | a `/` starts a line comment, a block comment, or is DIV |
| Lexing.Lexer.Scan2 | src/lexer.cpp:597-698 | the rest of the switch always ends the call: a token, a fatal error, `Hang` for a quote left open at the end, or `Undefined` for a name too long for the 255-byte buffer; a character that starts nothing is the fatal "Unexpected token" |
| LexerFacts.KeywordsA | src/lexer.cpp:31-111 | `as`, `async` and `await` are their reserved-word kinds |
| LexerFacts.KeywordsCD | src/lexer.cpp:31-111 | `case`, `class`, `default` and `do` are their reserved-word kinds |
| LexerFacts.KeywordsEF | src/lexer.cpp:31-111 | `else`, `false`, `for`, `from` and `fx` are their reserved-word kinds |
| LexerFacts.KeywordsIN | src/lexer.cpp:31-111 | `if`, `import`, `new` and `null` are their reserved-word kinds |
| LexerFacts.KeywordsRS | src/lexer.cpp:31-111 | `return`, `select` and `switch` are their reserved-word kinds |
| LexerFacts.KeywordsTW | src/lexer.cpp:31-111 | `true` and `while` are their reserved-word kinds |
| LexerFacts.KeywordComplete | src/lexer.cpp:31-111 | every reserved-word kind is recognised from its own spelling |
| LexerFacts.KeywordSound | src/lexer.cpp:31-111 | a word classified as a reserved word is exactly that word's spelling; every other word is NAME (with `KeywordComplete`, `keyword` and the spelling table are inverse) |
| LexerFacts.NumLoopKinds | src/lexer.cpp:291-474 | the literal loop always ends in a token that is ERROR or one of DEC, HEX, BINARY, OCTAL |
| LexerFacts.NumberKinds | src/lexer.cpp:214-474 | `number()` always gives ERROR or a numeric kind |
| LexerFacts.QuotedKinds | src/lexer.cpp:627-670 | a quoted literal that ends in a token ends in a STR token |
| LexerFacts.QuotedOutcomes | src/lexer.cpp:627-670 | the string loop ends in one of four ways: STR emitted with the cursor on a closing quote of the same kind past the opening one; "Unterminated string" only for a `"` or `'` string and only with a newline next; "Too many allocations" from the heap; or `Hang` only at the end of the text. A backtick string never ends on a newline |
| LexerFacts.QuotedString | src/lexer.cpp:627-670 | a string that ends in a token is a STR whose text is everything between the opening quote and the closing quote the cursor sits on |
| LexerFacts.IdentifierKinds | src/lexer.cpp:676-686 | an identifier that ends in a token is NAME or a reserved word |
| LexerFacts.MarkLongest | src/lexer.cpp:504-511 | `#=`, `$=`, `!=` win over `#`, `$`, `!`: the two-character kind exactly when `=` follows |
| LexerFacts.CaretPercentLongest | src/lexer.cpp:581-584 | `^=` and `%=` win over `^` and `%` exactly when `=` follows |
| LexerFacts.AndLongest | src/lexer.cpp:572-580 | `&&=`, `&&`, `&=`, `&`: the longest spelling that the next two characters allow |
| LexerFacts.OrLongest | src/lexer.cpp:563-571 | after a bar character: L_OR_EQ, L_OR, B_OR_EQ or B_OR, the longest spelling that the next two characters allow |
| LexerFacts.GreaterLongest | src/lexer.cpp:605-613 | `>>=`, `>>`, `>=`, `>`: the longest spelling that the next two characters allow |
| LexerFacts.LessLongest | src/lexer.cpp:614-622 | `<<=`, `<<`, `<=`, `<`: the longest spelling that the next two characters allow |
| LexerFacts.StarPlusMinusLongest | src/lexer.cpp:539-556 | for `*`, `+`, `-`: `c=` first, then `cc` (POW, INCR, DECR), then the single character |
| LexerFacts.DotsRanges | src/lexer.cpp:488-501 | after a `.` no digit follows: `..=`, `..`, a lone `.`, and ERROR for a third `.` when a fourth `.` follows or no float came just before (a third `.` after a float with no fourth is `..` again) |
| LexerFacts.EqualsRanges | src/lexer.cpp:597-604 | after `=`: `==` is CMP_EQ, `=..=` RANGE_INCL, `=..` RANGE_L_IN, otherwise EQ |
| LexerFacts.OrAssignLongest | src/lexer.cpp:504-511 | the `c`/`c=` pattern takes the `=` exactly when it follows, and moves the cursor by exactly the characters taken |
| LexerFacts.AssignOrDoubleLongest | src/lexer.cpp:539-556 | the `c=`/`cc`/`c` pattern picks the first that matches and moves by exactly the characters taken |
| LexerFacts.OrDoubleLongest | src/lexer.cpp:539-556 | the `cc`/`c` pattern takes the second `c` exactly when it follows |
| LexerFacts.DoubledLongest | src/lexer.cpp:563-580 | the `cc=`/`cc`/`c=`/`c` pattern picks the first that matches and moves by 2, 1 or 0 characters accordingly |
| LexerFacts.AdvanceAvoids | src/lexer.cpp:477-701 | `advance()` never emits POW_EQ, DIV_EQ, NEWLINE or MAX_TOKENS, kinds the switch has no branch for |
| LexerFacts.BinaryRefusesDigits | src/lexer.cpp:306-325 | in a binary literal the digits `2` to `9` make the literal an ERROR |
| LexerFacts.OctalDigits | src/lexer.cpp:306-325 | in an octal literal a digit is refused exactly when it is `8` or `9` |
| LexerFacts.HexLetters | src/lexer.cpp:332-353 | a hex letter is refused exactly outside a hex literal or inside its exponent |
| LexerFacts.PrefixNeedsLeadingZero | src/lexer.cpp:354-396 | a base prefix letter is refused unless the literal began with `0` and has no prefix yet |
| LexerFacts.HexPrefixFollow | src/lexer.cpp:385-396 | `0x` is refused exactly when no hex digit and no `.` follows it; accepted, it makes the literal base 16 |
| LexerFacts.Separators | src/lexer.cpp:441-447 | a `_` or `'` while one is pending is an ERROR; otherwise it is consumed and left pending, nothing else changing |
| LexerFacts.DigitsAndPending | src/lexer.cpp:293-331 | a `0` keeps a pending separator pending; any accepted `1`-`9` clears it |
| LexerFacts.LeadingZeroPending | src/lexer.cpp:269-274 | a leading `0` followed by a digit starts with a separator pending |
| LexerFacts.StartDigit | src/lexer.cpp:672-674 | a text starting with a digit is scanned by `number()` from that digit |
| LexerFacts.LooseOctalDigit | src/lexer.cpp:299-319 | a `1`-`7` in a literal that may still be octal is accumulated both in base 10 and in base 8 |
| LexerFacts.LooseOctalExample | src/lexer.cpp:466-473 | `017` is an OCTAL token whose value is 15 |
| LexerFacts.LooseOctalRun | src/lexer.cpp:291-473 | from a loose-octal state, a run of digits `0`-`7` followed by a character that ends the literal gives ERROR when a separator is pending and the run is all `0`, and OCTAL otherwise |
| LexerFacts.LooseOctalValue | src/lexer.cpp:259-473 | the OCTAL such a run gives holds the run read in base 8 after the digits already seen |
| LexerFacts.LooseOctal | src/lexer.cpp:269-473 | a text `0` followed by digits `0`-`7` and then a character that ends the literal scans to OCTAL with the digits' base-8 value, except `0` followed only by `0`s, which is ERROR |
| LexerFacts.LooseOctalCleared | src/lexer.cpp:320-428 | an `8`, a `9`, a fraction point, an `o` or `x` prefix, and outside hex an `e` exponent or a `b` prefix clear the loose-octal flag whenever the loop goes on past them, and no pass sets the flag again |
| LexerFacts.EndOfLiteral | src/lexer.cpp:448-450 | the end of the text ends the literal loop |
| LexerFacts.DoubleZeroExample | src/lexer.cpp:456-457 | `00` is an ERROR token |
| LexerFacts.PendingStaysError | src/lexer.cpp:456-457 | with a separator pending, a literal followed only by `0`s is an ERROR |
| Symbol.SignedChar | src/symbol.cpp:9 | a character enters the hash as the signed 8-bit value it has in a `char`: within -128..127 and equal to the character modulo 256 |
| Symbol.Djb2 | src/symbol.cpp:6-11 | the running djb2 value stays within 64-bit `size_t` |
| Symbol.HashIsLowByteFold | src/symbol.cpp:6-13 | the 64-bit djb2 hash reduced modulo the 256-slot table equals djb2 computed modulo 256 from the start, since 2^64 is a multiple of 256 |
| Symbol.StepResidue | src/symbol.cpp:9 | one step `hash * 33 + c` with 64-bit wrap-around keeps two running values that agree modulo 256 in agreement |
| Symbol.NamesMatchShort | src/symbol.cpp:30 | comparing at most 32 characters is plain equality when the stored name is shorter than that |
| Symbol.Probe | src/symbol.cpp:24-34 | the probe returns a slot of the table at which it stops: free, or holding the name |
| Symbol.ProbeFirstStop | src/symbol.cpp:22-35 | the probe returns the first slot in probe order that is free or holds the name, and nothing only when no slot of the full cycle is |
| Symbol.TableInsert | src/symbol.cpp:46-60 | `insert` fails and changes nothing, or succeeds having written exactly the free slot the probe found, with the name cut to 30 characters, the location, the type and `in_use` set; every other slot is unchanged |
| Symbol.InsertWellFormed | src/symbol.cpp:46-60 | inserting keeps every stored name NUL-free and at most 30 characters long |
| Symbol.InsertEmptyFails | src/symbol.cpp:46-52 | the empty name is never inserted and leaves the table unchanged |
| Symbol.InsertPresentFails | src/symbol.cpp:51-52 | inserting a name that `lookup` already finds fails and leaves the table unchanged |
| Symbol.InsertFullFails | src/symbol.cpp:49-50 | when every slot is in use by another name, inserting fails and leaves the table unchanged |
| Symbol.ProbeAfterInsert | src/symbol.cpp:24-34 | writing a stopping entry into the first slot the probe reaches makes the probe stop there again |
| Symbol.SlotsDistinct | src/symbol.cpp:25 | within one cycle, distinct probe steps visit distinct slots |
| Symbol.InsertThenLookup | src/symbol.cpp:46-68 | after a successful insert of a name of at most 30 characters, `lookup` finds the very slot `get_entry` chose, holding that name with the inserted location and type |
| Symbol.ProbeFrame | src/symbol.cpp:24-34 | filling a free slot that is not where a probe stops leaves that probe unchanged |
| Symbol.InsertKeepsFound | src/symbol.cpp:46-68 | a name `lookup` finds in a slot in use is still found, in the same slot, after any insert of any name |
| Symbol.InsertKeepsFindable | src/symbol.cpp:46-68 | inserting a name of at most 30 characters keeps every slot in use the one `lookup` returns for the name it holds |
| Symbol.InsertKeepsSlot | src/symbol.cpp:46-68 | the same for one slot: the newly written one is found, and every other slot in use stays found |
| Symbol.FindableDistinct | src/symbol.cpp:46-68 | in such a table no two slots in use hold the same name: at most one live entry per name |
| Symbol.LongNameInsertedTwice | src/symbol.cpp:30-54 | a name longer than 30 characters inserted twice into a new table succeeds both times, leaving two slots in use holding the same cut name |
| Symbol.LookupSound | src/symbol.cpp:62-68 | a slot `lookup` returns holds exactly the query, and is in use unless the query is empty |
| Symbol.LookupAbsent | src/symbol.cpp:62-68 | a non-empty name held by no slot in use is not found |
| Symbol.FreshTable | include/symbol.h:17-25 | a new table has every slot free, is well formed, and has every slot in use findable (vacuously) |
| Symbol.InsertIntoFresh | src/symbol.cpp:46-60 | inserting a non-empty name into a new table succeeds |
| Symbol.LongNamesNeverFound | src/symbol.cpp:53-54 | a name longer than 30 characters is stored cut short, so `lookup` never finds it |
| Symbol.SymbolTable.constructor | include/symbol.h:25 | a new table has every slot zeroed |
| Symbol.SymbolTable.GetEntry | src/symbol.cpp:22-35 | `get_entry` returns the slot the probe from the name's hash stops at (see `ProbeFirstStop`) |
| Symbol.SymbolTable.ProbeFrom | src/symbol.cpp:24-34 | the probe loop from a slot returns what `Probe` describes |
| Symbol.SymbolTable.Insert | src/symbol.cpp:46-60 | the table array after `insert` and its result are those of `TableInsert` (see its row); inserting a name of at most 30 characters keeps the table findable |
| Symbol.SymbolTable.Lookup | src/symbol.cpp:62-68 | `lookup` returns the slot `TableLookup` gives: the probe's slot when it holds the name, otherwise nothing |
| Logger.GetData | src/logger.cpp:9-190 | every token kind has a text to print except DEC, whose text is a pointer into a destroyed temporary and has no value in the model |
| Logger.Hex | src/logger.cpp:237 | `%0<w>x` prints exactly `w` lower-case hex digits |
| Logger.HexRoundTrip | src/logger.cpp:225 | a value with at most `w` hex digits is read back unchanged from its `%0<w>x` text |
| Logger.Digits | src/logger.cpp:274 | `%d` of a natural number is a non-empty run of decimal digits |
| Logger.DigitsRoundTrip | src/logger.cpp:274 | the decimal text of a number reads back as that number |
| Logger.SignedByte | src/logger.cpp:274 | an unknown opcode byte is printed as the signed `char` it is cast to: within -128..127 and equal to the byte modulo 256 |
| Logger.Padding | src/logger.cpp:227-229 | the padding is `k` blank cells of three spaces |
| Logger.BytesLineAligned | src/logger.cpp:222-231 | a line of up to ten byte cells is always 30 characters wide before the description, so the descriptions line up |
| Logger.CellsHoldBytes | src/logger.cpp:225-226 | the `i`-th cell is the `i`-th byte as two hex digits and a blank, and reads back as that byte |
| Logger.PrintBytes | src/logger.cpp:222-231 | `print_bytes` prints the cells of the `bytes` bytes from `offset`, the padding and the description, and moves `offset` past them |
| Logger.Listed | src/logger.cpp:239-272 | the opcodes the disassembler knows are listed 1, 2 or 10 bytes wide |
| Logger.Stride | src/logger.cpp:236-276 | every pass of the disassembler moves `offset` forward by at least one |
| Logger.Starts | src/logger.cpp:236-276 | every instruction start the disassembler visits lies between `offset` and the written end of the chunk |
| Logger.StartsIncrease | src/logger.cpp:236-276 | the visited starts strictly increase, so the loop makes at most `pos - offset` passes and ends |
| Logger.StartsStride | src/logger.cpp:236-276 | consecutive starts are exactly one instruction width apart |
| Logger.ListingLines | src/logger.cpp:236-276 | the listing is one `LineAt` line per visited start, in order, and is undefined exactly when some visited instruction runs past the end of the buffer |
| Logger.Disassemble | src/logger.cpp:233-278 | `disassemble` prints the header and then one line per visited start; it is undefined when a listed instruction runs past the 1024-byte buffer |
| Logger.ListOne | src/logger.cpp:237-275 | one pass prints the address in four hex digits and the instruction's bytes, or "Unknown opcode" and the signed byte, and moves past the instruction |
| Bytecode.Decode | include/bytecode.hpp:8-31 | a byte the VM recognises decodes to the opcode whose value it is |
| Bytecode.DecodeOpByte | include/bytecode.hpp:8-31 | every opcode is recovered from its byte value: encoding then decoding is the identity |
| Bytecode.OpBytesDistinct | include/bytecode.hpp:8-31 | no two opcodes share a byte value |
| Bytecode.Store | include/bytecode.hpp:39-49 | a write stores its bytes in its window of the buffer and leaves every other byte unchanged |
| Bytecode.I32Bytes | include/bytecode.hpp:46-47 | the generic write of an `int32_t` stores four bytes, the lowest first |
| Bytecode.I32RoundTrip | include/bytecode.hpp:46-47 | reading back the four little-endian bytes of the generic write gives the value |
| Bytecode.LowByte | src/bytecode.cpp:7 | the byte an `int8_t` or `int32_t` assignment to `uint8_t` keeps equals the value modulo 256 |
| Bytecode.Chunk.constructor | include/bytecode.hpp:35-37 | a new chunk is zero-filled with the cursor at 0 |
| Bytecode.Chunk.WriteBytes | include/bytecode.hpp:45-48 | the generic `write<T>` stores the value's bytes at `pos`, moves `pos` past them and changes nothing else |
| Bytecode.Chunk.WriteCString | include/bytecode.hpp:40-44 | `write<char *>` stores the string's bytes up to, not including, its NUL, and moves `pos` by its `strlen` |
| Bytecode.Chunk.WriteOp | src/bytecode.cpp:5 | writing an opcode stores its one byte value at `pos` and moves `pos` by one |
| Bytecode.Chunk.WriteU8 | src/bytecode.cpp:6 | writing a `uint8_t` stores it at `pos` and moves `pos` by one |
| Bytecode.Chunk.WriteI8 | src/bytecode.cpp:7 | writing an `int8_t` stores its two's-complement byte and moves `pos` by one |
| Bytecode.Chunk.WriteChar | src/bytecode.cpp:8 | writing a `char` stores its byte and moves `pos` by one |
| Bytecode.Chunk.WriteI32 | src/bytecode.cpp:9-12 | the `int32_t` overload as written: only the low byte reaches `code[pos]`, the next three bytes keep their old values, and `pos` moves by four |
| Bytecode.Chunk.WriteI32Full | include/bytecode.hpp:46-47 | the generic `int32_t` write stores all four little-endian bytes and moves `pos` by four |
| Bytecode.Chunk.WriteDouble | src/bytecode.cpp:13-16 | writing a `double` stores its eight bytes and moves `pos` by eight |
| Bytecode.CStringBytes | include/bytecode.hpp:41-44 | the bytes of a C string are its characters up to its first NUL, one byte each |
| Bytecode.I32Overload | src/bytecode.cpp:9-12 | the overload leaves the value's low byte followed by the three old bytes |
| Bytecode.StoreAppendOnly | include/bytecode.hpp:39-49 | a write never changes the bytes before `pos` or after its own window |
| Bytecode.StoreExtends | include/bytecode.hpp:39-49 | after a write, the buffer up to the new cursor is the old prefix followed by the written bytes |
| Bytecode.StoreThenStore | include/bytecode.hpp:39-49 | two writes in a row store the concatenation of their bytes |
| Bytecode.I32OverloadLosesHighBytes | src/bytecode.cpp:9-12 | on a zeroed buffer, 256 written by the overload reads back as 0, where the generic write reads back 256 |
| Vm.StepAt | src/vm.cpp:17-80 | a pass of the `switch` that goes on moves `ip` strictly forward and keeps `sp` inside the 256-slot stack; every other outcome stops the loop |
| Vm.RangeStep | src/vm.cpp:71-77 | a RANGE_* instruction that goes on moves to the next byte with `sp` still inside the stack |
| Vm.Walk | src/vm.cpp:15-80 | the stack effect of a piece of code: its peak is at least the starting depth and at least the final depth |
| Vm.WalkAppend | src/vm.cpp:15-80 | the stack effect of two pieces of code run one after the other is the effect of their concatenation |
| Vm.WalkPeak | src/vm.cpp:21-24 | only MOVE pushes and it is ten bytes long, so the stack grows by at most a tenth of the code's length |
| Vm.StepOnWalk | src/vm.cpp:17-80 | on code whose stack effect stays within the stack, one instruction goes on, prints nothing, and the rest of the code still has the same final depth |
| Vm.ExecSegment | src/vm.cpp:15-81 | code whose stack effect stays within the stack runs to its end without stopping, with `sp` at the walked depth and nothing printed |
| Vm.RunsToReturn | src/vm.cpp:25-27 | code that leaves at least one value, followed by RETURN within the first `pos` bytes, ends in INTERPRET_OK having printed exactly one value and popped it |
| Vm.FallsOffTheEnd | src/vm.cpp:15-82 | well-behaved code that never reaches a RETURN before `pos` ends in INTERPRET_RUNTIME_ERROR |
| Vm.VM.State | include/vm.h:18-20 | the machine state always has its `sp` within -1..255 |
| Vm.VM.constructor | include/vm.h:18-24 | a new VM has a zeroed stack of 256 values, `sp == -1` and nothing printed |
| Vm.VM.Interpret | src/vm.cpp:14-83 | `interpret` gives the result and final state that running the chunk's first `pos` bytes from `ip == 0` gives (see `RunsToReturn`, `FallsOffTheEnd`) |
| Vm.VM.Execute | src/vm.cpp:17-80 | one pass through the `switch` updates the stack and `sp` exactly as `StepAt` does, or stops with its result |
| Vm.VM.RangeOp | src/vm.cpp:71-77 | the RANGE_* case prints both bounds, pops one and zeroes the new top; a stack with fewer than two values is undefined |
| Files.LastOf | src/file.cpp:192-196 | the index the scan keeps is that of the last occurrence of the character, with none after it, or -1 when there is none |
| Files.LastOfSnoc | src/file.cpp:192-196 | one more character scanned either becomes the last occurrence or leaves it where it was |
| Files.Dir | src/file.cpp:190-198 | the directory part is a prefix of the name, followed in the name by its last '/' when there is one |
| Files.Name | src/file.cpp:212-225 | the base name holds no '/' |
| Files.Ext | src/file.cpp:227-238 | the extension holds no '.', and is the whole name when the name has no '.' |
| Files.DirSplits | src/file.cpp:190-198 | a name is its directory part, the last '/', and a rest that holds no '/' |
| Files.NoSlashNoDir | src/file.cpp:190-198 | a name without '/' has an empty directory part and its base starts at 0 |
| Files.BaseSplits | src/file.cpp:200-225 | when the last '.' follows the last '/', the text after the last '/' is the base name, the '.', and the extension |
| Files.EncodeHeader | include/file.h:27-33 | the header goes out as eight bytes, the four magic bytes first |
| Files.DecodeHeader | include/file.h:27-33 | eight bytes read back fill a header with a four-byte magic |
| Files.DecodeEncode | include/file.h:27-33 | decoding the bytes of a header gives that header back |
| Files.EncodeDecode | include/file.h:27-33 | encoding a decoded eight-byte block gives the block back |
| Files.WrittenHeader | src/file.cpp:119-130 | `write_header` fills the magic 0x7F 'H' 'B' 'C', version 0.1, no flags, and the base-name length |
| Files.ReadHeaderOf | src/file.cpp:136-149 | `read_header` is refused exactly outside read mode (FILE_MODE_INVALID) or after anything was read (FILE_READ_FAILURE); it aborts exactly when the first four bytes differ from the magic; otherwise the header is the first eight bytes, decoded |
| Files.HeaderRoundTrip | src/file.cpp:119-149 | a header written by `write_header` reads back from a file that starts with it, past the magic check and with every field as written |
| Files.Chars | src/file.cpp:155 | the characters `fread` stores are the stream's bytes, one each |
| Files.File.constructor | src/file.cpp:41-55 | a file holds its name and mode, with nothing read or written yet |
| Files.File.GetDir | src/file.cpp:190-198 | `get_dir` leaves in `path` the name with a NUL at the last '/', so the C string there is the directory part |
| Files.File.Marks | src/file.cpp:200-208 | the scan ends with `j` just after the last '/' and `k` at the last '.', each 0 when there is none |
| Files.File.NameLength | src/file.cpp:200-210 | `name_length` is the index of the last '.' minus the index after the last '/', modulo 256; when the '.' follows the '/' that is the base name's length modulo 256 |
| Files.File.CopyTerminated | src/file.cpp:221-224 | the copy loop puts the chosen slice of the name at the front of the buffer with a NUL after it, leaving the rest of the buffer alone |
| Files.File.GetName | src/file.cpp:212-225 | `get_name` leaves the base name, NUL-terminated, at the front of the buffer and touches nothing after it |
| Files.File.ExtMark | src/file.cpp:228-232 | the scan ends just after the last '.', or at 0 when there is none |
| Files.File.GetExt | src/file.cpp:227-238 | `get_ext` leaves the extension (the whole name without a '.'), NUL-terminated, at the front of the buffer and touches nothing after it |
| Files.File.WriteHeader | src/file.cpp:121-134 | outside write mode FILE_MODE_INVALID and nothing written; otherwise FILE_STATUS_OK with the eight bytes of `WrittenHeader` appended to the output, `position` unchanged |
| Files.File.ReadHeader | src/file.cpp:136-149 | the result is `ReadHeaderOf` of the mode, the position and the stream, and `position` moves by eight exactly when the header was read |
| Files.File.ReadName | src/file.cpp:151-159 | outside read mode FILE_MODE_INVALID and nothing changes; otherwise FILE_STATUS_OK, a NUL at `name[length]`, nothing after it touched and `position` moved by `length`, even on a short read; when the stream still holds `length` bytes they are the front of the buffer |
| Arguments.FirstLong | src/arguments.cpp:11-18 | the index found is the first option with that long name; nothing is found (the default entry) only when no option has it |
| Arguments.FirstShort | src/arguments.cpp:20-27 | the index found is the first option with that short name; nothing is found only when no option has it |
| Arguments.EqualsAt | src/arguments.cpp:61 | `strchr(argv[i] + 2, '=')` finds the first '=' at index 2 or later, and finds nothing only when there is none |
| Arguments.Mark | src/arguments.cpp:42-53 | marking an option sets it (with its value when one is given) and leaves every other option unchanged |
| Arguments.Step | src/arguments.cpp:30-84 | one turn of the loop moves on by one or two arguments, never past the end, keeps every argument a C string, and never adds or removes an option |
| Arguments.Run | src/arguments.cpp:29-86 | the loop never adds or removes an option |
| Arguments.OnlyPositionals | src/arguments.cpp:31-33 | when every argument from `i` on is positional (none starts with '-'), the scan from `i` finishes with exactly those arguments appended to the positionals in order and nothing else changed |
| Arguments.UnknownShortSkipped | src/arguments.cpp:36-41 | an unknown short option only adds a warning and the scan goes on with the next argument |
| Arguments.ShortValue | src/arguments.cpp:42-54 | a known short option taking a value takes the text after `-c=`, or the next argument when the token is exactly `-c`, aborting with "Missing value for argument" when there is none, or else the text after `-c` |
| Arguments.ShortFlag | src/arguments.cpp:42-57 | a known short option taking no value is set; any text after `-c`, such as `-c=value`, only warns "Argument does not accept a value" |
| Arguments.LongWithEquals | src/arguments.cpp:60-83 | `--name=value` cuts the argument at the '=', looks the option up by the text before it, and takes the text after it as the value, or warns when the option takes none |
| Arguments.LongNextValue | src/arguments.cpp:71-80 | a value-taking long option without '=' that is not the last argument takes the next argument as its value, and the scan resumes after it |
| Arguments.LongMissingValue | src/arguments.cpp:75-78 | a value-taking long option without '=' as the last argument aborts with "Missing value for argument" |
| Arguments.ArgumentParser.constructor | include/arguments.h:30-33 | a new parser has no options, positionals or warnings; the default entry is the one `find` falls back to |
| Arguments.ArgumentParser.Add | src/arguments.cpp:6-9 | `add` appends the option unset and without a value after the others, changing nothing else |
| Arguments.ArgumentParser.Find | src/arguments.cpp:11-18 | `find` returns the option `FirstLong` picks, or the default entry |
| Arguments.ArgumentParser.FindShort | src/arguments.cpp:20-27 | `find_short` returns the option `FirstShort` picks, or the default entry |
| Arguments.ArgumentParser.Get | src/arguments.cpp:88 | `get` is the value of the first option with that name, and no value for an unknown name |
| Arguments.ArgumentParser.IsSet | src/arguments.cpp:90 | `is_set` says whether the first option with that name was seen, and is false for an unknown name |
| Arguments.ArgumentParser.ShortOption | src/arguments.cpp:34-57 | the short-option turn updates options, warnings and the cursor as `Step` says, and reports the abort exactly when `Step` aborts |
| Arguments.ArgumentParser.LongOption | src/arguments.cpp:58-84 | the long-option turn updates options, warnings, the cut argument and the cursor as `Step` says, and reports the abort exactly when `Step` aborts |
| Arguments.ArgumentParser.Parse | src/arguments.cpp:29-86 | `parse` leaves options, positionals, warnings and arguments as `Run` from argument 1 does, and ends fatally exactly when `Run` aborts |
| Parsing.TokenAt | src/parser.cpp:9-12 | past the end of the token stream the lexer keeps handing out END |
| Parsing.TextOf | src/parser.cpp:34-35 | the name a token's `ptr` points to is a C string: it holds no NUL |
| Parsing.ConsumeOf | src/parser.cpp:14-21 | `consume` succeeds exactly when the current token has the kind, and then advances by one token; otherwise it is the fatal error with the given message |
| Parsing.Write | include/bytecode.hpp:39-49 | a chunk write succeeds exactly when the bytes still fit in the 1024-byte buffer, and then appends them and changes nothing else; past the buffer it is undefined |
| Parsing.Insert | src/parser.cpp:61-62 | the ignored `symbols.insert` changes neither the token position nor the code |
| Parsing.MoveCode | src/parser.cpp:71-73 | a number compiles to ten bytes: MOVE, the token's index byte, then the eight bytes of its `double` |
| Parsing.Expr | src/parser.cpp:294-320 | a successful `parse_expression` consumes at least one token, starting from a real one, and only appends code |
| Parsing.PrefixOf | src/parser.cpp:303 | the prefix handler of a token on success only moves forward through the tokens and only appends to the code, leaving what was written before in place |
| Parsing.Loop | src/parser.cpp:305-319 | the infix loop on success only moves forward through the tokens and only appends to the code, leaving what was written before in place |
| Parsing.FxnOf | src/parser.cpp:33-63 | `parse_fxn` on success only moves forward through the tokens and only appends to the code, leaving what was written before in place |
| Parsing.FxnOpenOf | src/parser.cpp:39-46 | the parameter list of a function on success only moves forward through the tokens and only appends to the code, leaving what was written before in place |
| Parsing.FxnBodyOf | src/parser.cpp:47-62 | a function body on success only moves forward through the tokens and only appends to the code, leaving what was written before in place |
| Parsing.Body | src/parser.cpp:48-50 | the body's expression loop on success only moves forward through the tokens and only appends to the code, leaving what was written before in place |
| Parsing.LitOf | src/parser.cpp:65-83 | `parse_lit` on success only moves forward through the tokens and only appends to the code, leaving what was written before in place |
| Parsing.UnrOf | src/parser.cpp:85-102 | `parse_unr` on success only moves forward through the tokens and only appends to the code, leaving what was written before in place |
| Parsing.GrpOf | src/parser.cpp:104-107 | `parse_grp` on success only moves forward through the tokens and only appends to the code, leaving what was written before in place |
| Parsing.DclOf | src/parser.cpp:167-193 | `parse_dcl` on success only moves forward through the tokens and only appends to the code, leaving what was written before in place |
| Parsing.DclParenOf | src/parser.cpp:182-187 | the `NAME ( e )` form on success only moves forward through the tokens and only appends to the code, leaving what was written before in place |
| Parsing.AssignOf | src/parser.cpp:171-174 | the `NAME NAME = e` form on success only moves forward through the tokens and only appends to the code, leaving what was written before in place |
| Parsing.BinOf | src/parser.cpp:109-145 | `parse_bin` on success only moves forward through the tokens and only appends to the code, leaving what was written before in place |
| Parsing.RngOf | src/parser.cpp:147-165 | `parse_rng` on success only moves forward through the tokens and only appends to the code, leaving what was written before in place |
| Parsing.Parser.constructor | src/parser.cpp:5-7 | a new parser has an empty symbol table and its first token current, with the chunk's code as it was |
| Parsing.Parser.Advance | src/parser.cpp:9-12 | `advance` makes the current token the previous one and moves to the next token, changing nothing else |
| Parsing.Parser.Consume | src/parser.cpp:14-21 | `consume` returns the token it passed and reports a failure exactly as `ConsumeOf` does |
| Parsing.Parser.Match | src/parser.cpp:23-29 | `match` is true exactly when the current token has the kind, and advances exactly then |
| Parsing.Parser.Emit | src/bytecode.cpp:5 | a one-byte write succeeds exactly when it fits, appending the opcode's byte, and is undefined past the buffer |
| Parsing.Parser.ParseExpression | src/parser.cpp:294-320 | `parse_expression` leaves the parser and reports a failure exactly as `Expr` does: prefix handler of the current token, then infix handlers while the next token binds tighter than `p`; no prefix handler is the fatal "Unexpected token", no infix handler "Unexpected operator" |
| Parsing.Parser.InfixLoop | src/parser.cpp:305-319 | the infix loop runs as `Loop` says, stopping at a token that does not bind tighter and after consuming END |
| Parsing.Parser.Prefix | src/parser.cpp:303 | the prefix handler the rule table names for the token runs as `PrefixOf` says |
| Parsing.Parser.ParseFxn | src/parser.cpp:33-38 | `parse_fxn` needs a NAME and a `(`, failing with the source's messages, and goes on as `FxnOf` says |
| Parsing.Parser.FxnOpen | src/parser.cpp:39-46 | after `name (`: a `)` or the fatal "Expected ')' after function name", FX_ENTRY, then a `{` |
| Parsing.Parser.FxnBody | src/parser.cpp:47-62 | the body's expressions until `}`, FX_EXIT, and the name recorded as FUNCTION at the address where the body starts |
| Parsing.Parser.BodyLoop | src/parser.cpp:48-50 | expressions at precedence NUL until a `}` is matched, as `Body` says |
| Parsing.Parser.ParseLit | src/parser.cpp:65-83 | a number writes its MOVE instruction, a string only enters the symbol table, any other token is the fatal "Unknown literal" |
| Parsing.Parser.EmitMove | src/parser.cpp:71-73 | the three writes of a number append the ten bytes of `MoveCode`, or are undefined past the buffer |
| Parsing.Parser.ParseUnr | src/parser.cpp:85-102 | the operand at the operator's precedence, then NEGATE, NOT or B_NOT (nothing for `+`), or the fatal "Unknown unary operator" |
| Parsing.Parser.ParseGrp | src/parser.cpp:104-107 | an expression, then a `)` or the fatal "Expected ')'" |
| Parsing.Parser.ParseDcl | src/parser.cpp:167-193 | `parse_dcl` dispatches on the current token: NAME, `:`, `(`, or the fatal "Unknown declaration" |
| Parsing.Parser.DclName | src/parser.cpp:169-176 | `NAME NAME = e`: the expression, then the fixed name "test" recorded as I32 |
| Parsing.Parser.DclColon | src/parser.cpp:177-181 | `NAME : e` only compiles the expression |
| Parsing.Parser.DclParen | src/parser.cpp:182-187 | `NAME ( e )`: the expression at GRP, then the `)` |
| Parsing.Parser.Assign | src/parser.cpp:171-174 | after the second NAME: a `=` or the fatal "Expected assignment", the expression, and the "test" entry |
| Parsing.Parser.ParseBin | src/parser.cpp:109-145 | the right operand at the operator's own precedence, then the operator's opcode, or the fatal "Unknown binary operator" |
| Parsing.Parser.ParseRng | src/parser.cpp:147-165 | the right operand at RNG, then the range opcode of the token |
| ParsingFacts.NetsAppend | src/vm.cpp:15-80 | the stack effects of two pieces of code run one after the other add up |
| ParsingFacts.MoveNets | src/parser.cpp:71-73 | the ten bytes a number compiles to push exactly one value |
| ParsingFacts.OpNets | src/parser.cpp:109-145 | a binary opcode the VM runs pops one value; a unary one keeps the depth |
| ParsingFacts.Chain | src/parser.cpp:294-320 | the code of two parses one after the other has the sum of their stack effects |
| ParsingFacts.ExprShape | src/parser.cpp:294-303 | a successful `parse_expression` over arithmetic tokens is the current token's prefix handler followed by the infix loop |
| ParsingFacts.LoopShape | src/parser.cpp:305-319 | a successful pass of the infix loop over arithmetic tokens either stops without writing, or runs `parse_bin` on the next token and goes round again |
| ParsingFacts.BinShape | src/parser.cpp:109-145 | a successful `parse_bin` over arithmetic tokens writes its right operand's code and then exactly one binary opcode the VM runs |
| ParsingFacts.ExprPushesOne | src/parser.cpp:294-320 | an expression of arithmetic tokens compiles to code that pushes exactly one value onto any stack |
| ParsingFacts.PrefixPushesOne | src/parser.cpp:65-107 | the prefix handler of an arithmetic token compiles to code that pushes exactly one value |
| ParsingFacts.LoopKeeps | src/parser.cpp:305-319 | the infix loop over arithmetic tokens compiles to code that leaves the depth unchanged |
| ParsingFacts.BinKeeps | src/parser.cpp:109-145 | a binary operator's code pushes its right operand and pops one: the depth is unchanged |
| ParsingFacts.Compile | src/main.cpp:54-55 | a compiled line is the expression's code followed by one RETURN |
| ParsingFacts.CompiledLineRuns | src/main.cpp:54-55 | a line of arithmetic tokens that compiles runs on a fresh VM to INTERPRET_OK, prints exactly one value and leaves the stack empty |
| ParsingExamples.NoPrefixAborts | src/parser.cpp:298-302 | a token without a prefix handler stops `parse_expression` with the fatal "Unexpected token" |
| ParsingExamples.ExprOfNumber | src/parser.cpp:294-305 | an expression that starts with a number writes its ten MOVE bytes and goes on with the infix loop at the next token |
| ParsingExamples.MoveStride | src/logger.cpp:264-266 | the width the disassembler gives MOVE is the ten bytes the parser writes for a number (src/parser.cpp:71-73), so a compiled literal is visited as one instruction |
| ParsingExamples.LoopStops | src/parser.cpp:305 | the infix loop stops, consuming and writing nothing, at a token that does not bind tighter than `p` |
| ParsingExamples.LoopBinaryStep | src/parser.cpp:305-319 | at a binary operator that binds tighter than `p`, the loop compiles the right operand at the operator's own precedence, writes the opcode and goes round again |
| ParsingExamples.LoopAtEnd | src/parser.cpp:305-310 | past the last token the loop stops at END without consuming it |
| ParsingExamples.BinaryAboveBottom | src/parser.cpp:271-284 | every binary operator binds tighter than the bottom precedence NUL |
| ParsingExamples.LeftAssociates | src/parser.cpp:294-320 | `a o1 b o2 c` with `o2` binding no tighter than `o1` compiles to `a b o1 c o2`: operators of one precedence, `**` included, associate to the left |
| ParsingExamples.TighterFirst | src/parser.cpp:294-320 | `a o1 b o2 c` with `o2` binding tighter compiles to `a b c o2 o1`, so `2+3*4` multiplies before it adds |
| ParsingExamples.LoopNoLed | src/parser.cpp:312-316 | a token that binds tighter than `p` but has no infix handler stops the loop with the fatal "Unexpected operator" |
| ParsingExamples.AdjacentLiteralsAbort | src/parser.cpp:305-316 | two numbers in a row abort with "Unexpected operator", since a literal binds tighter than NUL |
| ParsingExamples.GroupNeedsParen | src/parser.cpp:104-107 | a group succeeds exactly when its expression does and a `)` follows, its code is then the expression's, and a missing `)` is the fatal "Expected ')'" |
| ParsingExamples.UnclosedGroupAborts | src/parser.cpp:104-107 | `( a` at the end of the text aborts with "Expected ')'" |
| ParsingExamples.PrefixLoosest | src/parser.cpp:85-102 | in `u a o b` with `o` binding tighter than the prefix operator, the operator applies to `a o b` (so `-3*4` negates the product) |
| ParsingExamples.PrefixTightest | src/parser.cpp:85-102 | in `u a o b` with `o` binding no tighter than the prefix operator, the operator applies to `a` alone |
| ParsingExamples.PlusEmitsNothing | src/parser.cpp:86-89 | prefix `+` compiles its operand at TRM and writes nothing else |
| ParsingExamples.FunctionLayout | src/parser.cpp:33-63 | `fx name ( ) { body }` writes FX_ENTRY, the body's code, FX_EXIT, and records the name as FUNCTION at the address just after FX_ENTRY |
| ParsingExamples.EmptyFunction | src/parser.cpp:33-63 | `fx f ( ) { }` from a fresh table compiles to FX_ENTRY FX_EXIT, and `f` is then found as FUNCTION at address 1 |
| ParsingExamples.AssignRecordsTest | src/parser.cpp:169-176 | `NAME NAME = e` records the fixed name "test" as I32 at location 0 after `e`'s code, whatever the names |
| ParsingExamples.StringLiteralRecorded | src/parser.cpp:75-79 | a string literal writes no code; its text goes into the symbol table as STR at location 0, where `lookup` then finds it |
| ParsingExamples.StringLiteralDropped | src/parser.cpp:75-79 | a string literal whose text cannot be inserted leaves the parser state as it was |
| CTokenizer.Spelling | scripts/keyword.js:1-4 | every reserved word is at least two characters long |
| CTokenizer.SpelledOut | src/tokenizer.c:386 | a NUL-free C string that agrees with a word up to its length and ends there is that word |
| CTokenizer.KeywordSound | src/tokenizer.c:386 | `keyword` gives a kind other than NAME only for that kind's own spelling |
| CTokenizer.KeywordsA | src/tokenizer.c:386 | `as`, `async`, `await` get AS, ASYNC, AWAIT |
| CTokenizer.KeywordsCD | src/tokenizer.c:386 | `case`, `class`, `default`, `do` get their kinds |
| CTokenizer.KeywordsEF | src/tokenizer.c:386 | `else`, `false`, `for` get their kinds |
| CTokenizer.KeywordsFX | src/tokenizer.c:386 | `from`, `func`, `fx`, `fxn` get their kinds |
| CTokenizer.KeywordsI | src/tokenizer.c:386 | `if`, `import` get their kinds |
| CTokenizer.KeywordsNR | src/tokenizer.c:386 | `new`, `return` get their kinds |
| CTokenizer.KeywordsST | src/tokenizer.c:386 | `switch`, `true` get their kinds |
| CTokenizer.KeywordsWN | src/tokenizer.c:386 | `while`, `null` get their kinds |
| CTokenizer.KeywordComplete | src/tokenizer.c:386 | every reserved word gets its own kind back: with `KeywordSound`, `keyword` is NAME exactly for the other texts |
| CTokenizer.NextOf | src/tokenizer.c:393-401 | `next()` returns the character `peekNext()` showed and moves onto it (except at the end, where it stays); the column grows by one, and a newline moves to the next line at column 1 |
| CTokenizer.MatchOf | src/tokenizer.c:414-420 | `match(ch)` succeeds exactly when `peekNext()` is `ch`, and moves as `next()` only then |
| CTokenizer.ConsumeOf | src/tokenizer.c:403-406 | `consume(n)` never moves back or out of the text |
| CTokenizer.WithEq | src/tokenizer.c:80-89 | the one-or-two-character operators (`#`, `$`, `!`, `^`, `=`, `%`) give the `=` kind exactly when `=` follows, with no error, moving forward |
| CTokenizer.Doubled | src/tokenizer.c:158-180 | the bar, `&`, `>` and `<` cases give a token with no error and move forward |
| CTokenizer.EqThenDoubled | src/tokenizer.c:127-142 | `+` and `-` give a token with no error and move forward |
| CTokenizer.Star | src/tokenizer.c:143-149 | `*` gives a token with no error and moves forward |
| CTokenizer.Compound | src/tokenizer.c:127-225 | every operator case gives a token with no error and moves forward |
| CTokenizer.LineCommentEnd | src/tokenizer.c:187-189 | a line comment stops at the end of the text or before the next newline |
| CTokenizer.BlockCommentEnd | src/tokenizer.c:190-192 | a block comment never moves back or out of the text |
| CTokenizer.Slash | src/tokenizer.c:186-195 | the `/` case moves forward and always ends |
| CTokenizer.Quoted | src/tokenizer.c:226-263 | a string is a STR token; closed, the cursor sits on its closing quote; cut by a newline, it carries "unterminated string" and stops before the newline |
| CTokenizer.Span | src/tokenizer.c:267-290 | a `while (isX(peekNext())) next();` loop consumes the longest run of the class: every character passed is in it, the next one is not |
| CTokenizer.Continuation | src/tokenizer.c:300-304 | skipping UTF-8 continuation bytes never moves back or out of the text |
| CTokenizer.Zero | src/tokenizer.c:265-281 | a number after `0` is a token with no error |
| CTokenizer.NameOrKeyword | src/tokenizer.c:288-297 | a name or keyword takes the longest run of letters and digits, with no error |
| CTokenizer.WordText | src/tokenizer.c:291-292 | the substring passed to `keyword` is the run from the token's start through the cursor |
| CTokenizer.NameOrKeywordIs | src/tokenizer.c:288-297 | the kind of a name token is `keyword` of its text |
| CTokenizer.Other | src/tokenizer.c:264-309 | the default case reports an error exactly when it makes an UNDEF token |
| CTokenizer.Dispatch | src/tokenizer.c:69-310 | every case of the switch moves the cursor forward |
| CTokenizer.TokenOf | src/tokenizer.c:373-383 | `addToken` stamps the kind, the line, the marks of the pass and the end one past the cursor |
| CTokenizer.Record | src/tokenizer.c:373-383 | recording a token appends exactly it and leaves the cursor alone |
| CTokenizer.Begin | src/tokenizer.c:66-68 | the head of a pass moves one character and sets the token's absolute start to the new cursor |
| CTokenizer.Finish | src/tokenizer.c:69-310 | a pass ends exactly when its scan does, at the scan's cursor |
| CTokenizer.Step | src/tokenizer.c:66-310 | a pass that ends moves the cursor strictly forward |
| CTokenizer.Run | src/tokenizer.c:66-311 | the scanning loop, when it ends, ends at the end of the text |
| CTokenizer.StackStep | src/tokenizer.c:346-367 | an opener is pushed; a closer pops the top exactly when the top is its opener, and is dropped otherwise |
| CTokenizer.Wrap | src/tokenizer.c:345-353 | the openers as the pointer array, none of them NULL |
| CTokenizer.PairStep | src/tokenizer.c:323-331 | one comparison keeps the array's length |
| CTokenizer.Inner | src/tokenizer.c:322-332 | the inner loop keeps the array's length |
| CTokenizer.Outer | src/tokenizer.c:321-333 | the outer loop keeps the array's length |
| CTokenizer.Unmatched | src/tokenizer.c:334-339 | one "unmatched token" error per token left, in order |
| CTokenizer.Values | src/tokenizer.c:334-336 | the tokens of an array without NULL slots, in order |
| CTokenizer.WordKind | src/tokenizer.c:291-296 | the kind is `keyword` of the word's text |
| CTokenizer.Tokenizer.constructor | src/tokenizer.c:40-53 | `initTokenizer`: before the first character, line and column 1, no tokens, errors or brackets |
| CTokenizer.Tokenizer.End | src/tokenizer.c:410 | `end()` holds exactly at the end of the text |
| CTokenizer.Tokenizer.PeekNext | src/tokenizer.c:389 | `peekNext()` is the next character, NUL at the end |
| CTokenizer.Tokenizer.Current | src/tokenizer.c:408 | `current()` is the character under the cursor |
| CTokenizer.Tokenizer.Next | src/tokenizer.c:393-401 | `next()` moves the cursor, line and column as `NextOf` says, nothing else |
| CTokenizer.Tokenizer.Match | src/tokenizer.c:414-420 | `match` moves as `MatchOf` says, nothing else |
| CTokenizer.Tokenizer.Consume | src/tokenizer.c:403-406 | `consume(n)` moves as `ConsumeOf` says, nothing else |
| CTokenizer.Tokenizer.AddToken | src/tokenizer.c:373-383 | the token `TokenOf` builds is appended to the tokens, nothing else changes |
| CTokenizer.Tokenizer.ScanWithEq | src/tokenizer.c:80-89 | the loop's `=`-or-not cases move as `WithEq` says |
| CTokenizer.Tokenizer.ScanDoubled | src/tokenizer.c:158-180 | moves as `Doubled` says |
| CTokenizer.Tokenizer.ScanEqThenDoubled | src/tokenizer.c:127-142 | moves as `EqThenDoubled` says |
| CTokenizer.Tokenizer.ScanStar | src/tokenizer.c:143-149 | moves as `Star` says |
| CTokenizer.Tokenizer.ScanCompound | src/tokenizer.c:127-225 | the operator cases move as `Compound` says |
| CTokenizer.Tokenizer.SkipLine | src/tokenizer.c:187-189 | the line-comment loop stops where `LineCommentEnd` says |
| CTokenizer.Tokenizer.SkipBlock | src/tokenizer.c:190-192 | the block-comment loop stops where `BlockCommentEnd` says |
| CTokenizer.Tokenizer.ScanSlash | src/tokenizer.c:186-195 | the `/` case as `Slash` says |
| CTokenizer.Tokenizer.ScanQuoted | src/tokenizer.c:226-263 | the string loop as `Quoted` says; it reports `Hangs` where the source would never leave it |
| CTokenizer.Tokenizer.ReadSpan | src/tokenizer.c:267-290 | a class loop stops where `Span` says |
| CTokenizer.Tokenizer.SkipContinuation | src/tokenizer.c:300-304 | moves as `Continuation` says |
| CTokenizer.Tokenizer.ScanZero | src/tokenizer.c:265-281 | the `0` branch as `Zero` says |
| CTokenizer.Tokenizer.ScanWord | src/tokenizer.c:288-297 | the name branch as `NameOrKeyword` says |
| CTokenizer.Tokenizer.ScanOther | src/tokenizer.c:264-309 | the default case as `Other` says |
| CTokenizer.Tokenizer.ScanToken | src/tokenizer.c:69-310 | the switch as `Dispatch` says |
| CTokenizer.Tokenizer.AddLexeme | src/tokenizer.c:69-310 | the token, its error and its bracket copy recorded as `Record` says |
| CTokenizer.Tokenizer.ReportError | src/tokenizer.c:237-238 | one "Syntax" error appended exactly when the pass found one |
| CTokenizer.Tokenizer.PushBracket | src/tokenizer.c:102-119 | a copy of a bracket token is pushed on the stack, and nothing for other tokens |
| CTokenizer.Tokenizer.BeginPass | src/tokenizer.c:66-68 | the head of a pass as `Begin` says |
| CTokenizer.Tokenizer.FinishPass | src/tokenizer.c:69-310 | the end of a pass as `Finish` says |
| CTokenizer.Tokenizer.Pass | src/tokenizer.c:66-310 | one pass as `Step` says; false exactly where the source would spin |
| CTokenizer.Tokenizer.Scanning | src/tokenizer.c:66-311 | the scanning loop as `Run` says |
| CTokenizer.Tokenizer.RunDistanceCheck | src/tokenizer.c:320-341 | the pairs are nulled as `Outer` says and one "unmatched token" error is appended per bracket left, in order |
| CTokenizer.Tokenizer.ReportUnmatched | src/tokenizer.c:334-340 | one "unmatched token" per token of the cleared array, in order |
| CTokenizer.Tokenizer.RunStackCheck | src/tokenizer.c:343-371 | the errors appended are those of the distance check on what the stack check leaves, nothing else changes |
| CTokenizer.StackStepIn | src/tokenizer.c:347-367 | one step of the stack check on the pointer array follows `StackStep` |
| CTokenizer.DistanceLoops | src/tokenizer.c:321-333 | the nested loops follow `Outer` |
| CTokenizer.DistanceRound | src/tokenizer.c:322-332 | one round follows `Inner` |
| CTokenizer.Tokenize | src/tokenizer.c:62-318 | `tokenize` returns the tokens and errors `TokenizeOf` gives, or `None` where the source never returns |
| CTokenizerFacts.StarKinds | src/tokenizer.c:143-149 | `*` is MUL_EQ when `=` follows and MUL otherwise, never POW: the second `match('=')` can never succeed |
| CTokenizerFacts.KeywordKinds | src/tokenizer.c:386 | `keyword` gives NAME or a reserved kind |
| CTokenizerFacts.CompoundKinds | src/tokenizer.c:127-225 | no operator case makes POW, POW_EQ, DIV_EQ or NEWLINE, the kinds the loop never produces |
| CTokenizerFacts.OtherKinds | src/tokenizer.c:264-309 | nor does the default case |
| CTokenizerFacts.DispatchKinds | src/tokenizer.c:69-310 | no pass of the loop makes a token of a kind in `NeverScanned` |
| CTokenizerFacts.NumberKinds | src/tokenizer.c:265-287 | a number's kind by its prefix (`0o` or an octal digit OCTAL, `0b` BIN, `0x` HEX, other DEC), the run it takes is all of that class, and the next character is not |
| CTokenizerFacts.ConsumeOfMoves | src/tokenizer.c:403-406 | `consume(n)` moves exactly `n` characters on, stopping at the end of the text |
| CTokenizerFacts.UnexpectedSkips | src/tokenizer.c:300-308 | a character that starts no token is UNDEF with "unexpected token", and takes in the continuation bytes its UTF-8 lead byte announces |
| CTokenizerFacts.FinishKeeps | src/tokenizer.c:69-310 | ending a pass keeps the invariant: no token of a never-scanned kind, and only brackets on the stack, each one of the tokens |
| CTokenizerFacts.RunKeeps | src/tokenizer.c:66-311 | so does the whole loop |
| CTokenizerFacts.StackCheckLeavesOpeners | src/tokenizer.c:343-368 | over a stack of brackets the stack check leaves openers only, each from the stack |
| CTokenizerFacts.StackCheckSnoc | src/tokenizer.c:346-368 | the stack check handles one token at a time, from the bottom up |
| CTokenizerFacts.StackCheckPair | src/tokenizer.c:350-363 | an opener followed at once by its own closer cancels out |
| CTokenizerFacts.StackCheckStrayCloser | src/tokenizer.c:355-363 | a closer whose opener is not on top is dropped, never reported |
| CTokenizerFacts.InnerKeeps | src/tokenizer.c:322-332 | with openers only, one round of the distance check pairs nothing |
| CTokenizerFacts.OuterKeeps | src/tokenizer.c:321-333 | and so no round changes the array |
| CTokenizerFacts.TokenizeReports | src/tokenizer.c:62-371 | `tokenize` ends exactly when its loop does, and then gives the loop's tokens and errors followed by one "unmatched token" per opener left, each opener one of the tokens, and no token of a never-scanned kind |
| CTokenizerFacts.Pass | src/tokenizer.c:66-310 | one pass moves the loop from one state to the next, and the run from either is the same |
| CTokenizerFacts.Tokenized | src/tokenizer.c:62-371 | the result of `tokenize` from the loop's final state |
| CTokenizerFacts.ScanStarStar | src/tokenizer.c:143-149 | `**` starts with MUL and leaves the second star for the next pass |
| CTokenizerFacts.ScanStarStarSecond | src/tokenizer.c:143-149 | which is MUL again |
| CTokenizerFacts.ScanStarEq | src/tokenizer.c:143-144 | `*=` is MUL_EQ |
| CTokenizerFacts.ScanLessGreater | src/tokenizer.c:211-215 | `<>` is LSHIFT |
| CTokenizerFacts.ScanLessLess | src/tokenizer.c:211-219 | `<<` starts with CMP_LT |
| CTokenizerFacts.ScanLessLessSecond | src/tokenizer.c:211-219 | and its second `<` is CMP_LT as well |
| CTokenizerFacts.ScanSlashEq | src/tokenizer.c:186-195 | `/=` starts with DIV |
| CTokenizerFacts.ScanUnterminated | src/tokenizer.c:226-243 | a string cut by a newline is a STR token up to the newline, with "unterminated string" |
| CTokenizerFacts.ScanOpenString | src/tokenizer.c:228-235 | a string still open at the end of the text never ends |
| CTokenizerFacts.ScanOctal | src/tokenizer.c:265-269 | `017` is one OCTAL token |
| CTokenizerFacts.TokenizeComment | src/tokenizer.c:186-189 | a text that is only a line comment gives no tokens and no errors, not even EOF |
| CTokenizerFacts.StackCheckCrossed | src/tokenizer.c:343-371 | in `([)]` the `)` is dropped, the `]` closes the `[`, and the `(` is left to be reported |
| PtrArray.GetOf | src/util/array.c:61-63 | `getArray` is slot `i` inside `[0, length)` and NULL outside it |
| PtrArray.LastOf | src/util/array.c:57-59 | `lastArray` is the last slot, NULL for an empty array |
| PtrArray.NonNull | src/util/array.c:36-43 | what `clearArray` copies is no longer than the array and holds no NULL |
| PtrArray.NonNullKeeps | src/util/array.c:36-43 | `clearArray` keeps every non-NULL element and adds none |
| PtrArray.NonNullSnoc | src/util/array.c:38-41 | the copy loop takes the slots in order, skipping NULL ones |
| PtrArray.NonNullOfFull | src/util/array.c:36-43 | an array without NULL slots is copied unchanged |
| PtrArray.PtrArray.constructor | src/util/array.c:5-16 | `newArray(s)`: empty, with room for `s` slots but never fewer than 2 |
| PtrArray.PtrArray.Trim | src/util/array.c:18-21 | `trimArray`: the capacity becomes the length and the slots stay |
| PtrArray.PtrArray.Push | src/util/array.c:23-29 | `pushArray` appends the element after the earlier slots, and a full buffer first grows to `size * 1.5` rounded down |
| PtrArray.PtrArray.Remove | src/util/array.c:31-34 | `removeArray(i)` NULLs slot `i` and changes nothing else, the length included |
| PtrArray.PtrArray.Clear | src/util/array.c:36-43 | `clearArray` returns a new array of the same capacity (at least 2) holding the non-NULL slots in order |
| PtrArray.PtrArray.Pop | src/util/array.c:53-55 | `popArray` removes and returns the last slot, and gives NULL with no change on an empty array |
| PtrArray.PtrArray.Last | src/util/array.c:57-59 | `lastArray` as `LastOf` says |
| PtrArray.PtrArray.Get | src/util/array.c:61-63 | `getArray` as `GetOf` says |
| PtrArray.PushPop | src/util/array.c:23-55 | pushing then popping gives back the element and leaves the slots as they were |
| CParser.NextAt | src/parser.c:107-110 | `next()` never moves the cursor out of range (onto the last token or past it) |
| CParser.PrevAt | src/parser.c:112-115 | `prev()` never moves the cursor out of range |
| CParser.MatchAt | src/parser.c:143-150 | `match` never moves the cursor out of range |
| CParser.DelmtOf | src/parser.c:161-168 | the cursor stays in range after the delimiter check |
| CParser.SameLine | src/parser.c:176-178 | the loop of `psync` never moves the cursor back or out of range |
| CParser.PsyncOf | src/parser.c:170-181 | `psync` keeps the cursor in range |
| CParser.SyncOf | src/parser.c:663-685 | `synchronize` never moves the cursor back or out of range |
| CParser.Parser.constructor | src/parser.c:63-71 | `initParser`: the cursor before the first token (-1) and no errors |
| CParser.Parser.End | src/parser.c:103 | `end()` holds exactly when fewer than three tokens remain from the cursor on |
| CParser.Parser.Start | src/parser.c:105 | `start()` holds exactly when `prev()` would give NULL |
| CParser.Parser.Next | src/parser.c:107-110 | `next()` updates the cursor and gives the token as `NextAt` says, errors untouched |
| CParser.Parser.Prev | src/parser.c:112-115 | `prev()` updates the cursor and gives the token as `PrevAt` says, errors untouched |
| CParser.Parser.PeekNext | src/parser.c:117-125 | `peekNext()` is the token after the cursor, or the made-up EOF at line 0 at the end |
| CParser.Parser.Current | src/parser.c:127 | `current()` is the token under the cursor |
| CParser.Parser.NextIs | src/parser.c:148-150 | `nextIs(type)` holds exactly when `match(type)` would succeed |
| CParser.Parser.Match | src/parser.c:143-146 | `match` moves and answers as `MatchAt` says, errors untouched |
| CParser.Parser.Delmt | src/parser.c:161-168 | `delmt` moves the cursor and appends to the error list as `DelmtOf` says |
| CParser.Parser.Psync | src/parser.c:170-181 | the loop of `psync` ends where `PsyncOf` says, errors untouched |
| CParser.Parser.Synchronize | src/parser.c:663-685 | the loop of `synchronize` ends where `SyncOf` says, errors untouched |
| CParser.Parser.CurrentOperator | src/parser.c:354-419 | the operator of the current token by the switch of `binaryExpr`, and one "internal error" appended exactly when it has none; the cursor does not move |
| CParserFacts.NextThenPrev | src/parser.c:107-115 | `prev()` undoes a `next()` that moved |
| CParserFacts.PrevThenNext | src/parser.c:107-115 | `next()` undoes a `prev()` that moved |
| CParserFacts.MatchMoves | src/parser.c:143-150 | `match(type)` succeeds exactly when the next token has that kind (at the end, exactly for EOF) and moves one token only then, never at the end |
| CParserFacts.DelmtReports | src/parser.c:161-168 | `delmt` consumes the next token exactly when it is `;`, and records one "expected delimiter" against the current token exactly when `throw` is set, no `;` follows and the next token is on the current line |
| CParserFacts.DelmtAtEnd | src/parser.c:117-125 | at the end no delimiter is reported missing, because the made-up EOF sits on line 0 |
| CParserFacts.SameLineStops | src/parser.c:176-178 | the loop of `psync` stops at the end, before a `;` or before a token on another line, and passes only tokens on the starting line that are no `;` |
| CParserFacts.PsyncStops | src/parser.c:170-181 | `psync` is false exactly at the end; otherwise it takes at least one token and stops as the loop does |
| CParserFacts.SyncStops | src/parser.c:663-685 | `synchronize` stops at the end, before a declaration or statement keyword, or right after a `;`, and passes no such keyword and no `;` but the last token it takes |
| CParserFacts.SyncKeepsKeyword | src/parser.c:667-677 | a declaration or statement keyword after the cursor is left in place |
| CParserFacts.OperatorRoundTrip | src/parser.c:354-416 | every binary operator but BIN_LSHIFT comes back from its own token; the LSHIFT token gives BIN_RSHIFT |
| CParserFacts.TokenRoundTrip | src/parser.c:354-419 | a token with an operator is that operator's token (LSHIFT aside), no token gives BIN_LSHIFT, and exactly the tokens without an operator give BIN_UNDEF |
| CCompiler.Spaces | src/compiler.c:22-25 | `tab(indent)` writes exactly `2 * indent` characters, all spaces |
| CCompiler.Compiler.constructor | src/compiler.c:294-295 | the output starts empty |
| CCompiler.Compiler.Write | src/compiler.c:310 | one `fprintf` of a fixed text appends exactly that text |
| CCompiler.Compiler.Tab | src/compiler.c:22-25 | the loop of `tab` appends `Spaces(indent)` |
| CCompiler.Compiler.CompileInternal | src/compiler.c:100-292 | `compile_internal(n, indent)` appends exactly `Text(n, indent)`: nothing for NULL, the kind's own text otherwise |
| CCompiler.Compiler.CompileExpression | src/compiler.c:185-237 | the expression cases append `Text(n, indent)` |
| CCompiler.Compiler.CompileExpressionStatement | src/compiler.c:104-110 | an expression statement is the indentation, the expression one level deeper, then `;` and a newline |
| CCompiler.Compiler.CompileReturn | src/compiler.c:111-118 | `return ` and the value, indented, closed by `;` |
| CCompiler.Compiler.CompileSwitch | src/compiler.c:119-126 | only the head `switch (e) {` of a switch; the closing brace comes from its default |
| CCompiler.Compiler.CompileCase | src/compiler.c:127-139 | a case one level deeper than its switch, its statements two levels deeper, closed by `break;` |
| CCompiler.Compiler.CompileDefault | src/compiler.c:140-152 | a default like a case, followed by the brace that closes the switch |
| CCompiler.Compiler.CompileFor | src/compiler.c:153-170 | `for (init; test; update) {`, the body one level deeper (nothing when it is NULL), the closing brace |
| CCompiler.Compiler.CompileWhile | src/compiler.c:171-184 | `while (test) {`, the body one level deeper, the closing brace |
| CCompiler.Compiler.CompileCall | src/compiler.c:185-196 | the callee, then the arguments in parentheses as the argument loop writes them |
| CCompiler.Compiler.CompileBinary | src/compiler.c:197-203 | the operands with the operator's C spelling between them, a space on each side |
| CCompiler.Compiler.CompileUnary | src/compiler.c:204-209 | the operand followed by the operator's spelling |
| CCompiler.Compiler.CompileTyped | src/compiler.c:225-237 | the C type of `getKind` and the name when the type name differs from the name, else the bare name |
| CCompiler.Compiler.CompileImport | src/compiler.c:245-252 | the source at indent 0, then the specifiers one level deeper |
| CCompiler.Compiler.CompileFunction | src/compiler.c:253-274 | `int name(params) {`, the body one level deeper, the closing brace at the function's indent |
| CCompiler.Compiler.CompileSpecifier | src/compiler.c:275-280 | the name then the local name, each at indent 0 |
| CCompiler.Compiler.CompileAssignment | src/compiler.c:281-288 | always an `int` declaration `int left = right`, whatever the operator |
| CCompiler.Compiler.CompileBlock | src/compiler.c:161-167 | a body is walked only when it is not NULL, and a NULL body writes nothing |
| CCompiler.Compiler.CompileEach | src/compiler.c:238-244 | the loop over an array of statements appends their texts in order |
| CCompiler.Compiler.CompileListed | src/compiler.c:188-194 | the loop over arguments appends each one followed by ", " unless it is the last |
| CCompiler.Compiler.Compile | src/compiler.c:294-318 | once the output file is open, it holds the include line and then the program's text at indent 0, nothing else |
| CCompilerFacts.BinarySpellings | src/compiler.c:27-71 | `getBinaryOperator` gives every operator but BIN_UNDEF its own non-empty spelling, and the empty text to BIN_UNDEF |
| CCompilerFacts.UnarySpellings | src/compiler.c:73-88 | `getUnaryOperator` gives every operator but UNARY_UNDEF its own non-empty spelling, and the empty text to UNARY_UNDEF |
| CCompilerFacts.TokenSpelling | src/compiler.c:27-71 | an operator token the parser reads is written back with a spelling of its own and any other token with none; `<>` comes back as `>>` |
| CCompilerFacts.KindNames | src/compiler.c:90-98 | `getKind` turns `i32` into `int` and `strp` into `char **`, and keeps every other type name |
| CCompilerFacts.KindSettles | src/compiler.c:90-98 | `getKind` applied twice is `getKind` applied once |
| CCompilerFacts.Texts | src/compiler.c:238-244 | the texts of a node array, one per node, in order |
| CCompilerFacts.EachConcat | src/compiler.c:238-244 | the statement loop writes the texts of its statements one after the other |
| CCompilerFacts.ListedJoin | src/compiler.c:188-194 | after `k` arguments the argument loop has written their texts joined by ", ", plus one more ", " unless the last has been written |
| CCompilerFacts.CallJoins | src/compiler.c:185-196 | a call is its callee and its arguments joined by ", " in parentheses, with no trailing separator |
| CCompilerFacts.ProgramConcats | src/compiler.c:238-244 | a program is its top-level nodes written one after the other at indent 0 |
| CCompilerFacts.FunctionJoins | src/compiler.c:253-274 | a function declaration is an `int` function with its parameters joined like a call's arguments, its statements one level deeper and its braces at its own indent |
| CCompilerFacts.FlatIgnoresIndent | src/compiler.c:185-237 | only statements and declarations write indentation: a tree of expressions writes the same text at any depth |
| CCompilerFacts.ListedIgnoresIndent | src/compiler.c:188-194 | so does an argument list of expressions |
| CCompilerFacts.ExpressionStatementLine | src/compiler.c:104-110 | an expression statement is one line: indentation, the expression, `;`, newline |
| CCompilerFacts.TypedIdentifierText | src/compiler.c:225-237 | a typed identifier ends with its name, is the bare name exactly when the type name equals the name, and otherwise starts with the C type and a space |
| CCompilerFacts.Unwritten | src/compiler.c:100-292 | nothing is written for a NULL node, an async function or a class |
| CCompilerFacts.AbsentBodyIsEmpty | src/compiler.c:161-167 | a NULL body and an empty one write the same, nothing |
| CCompilerFacts.NegationIsPostfix | src/compiler.c:204-209 | the operator of a unary expression follows its operand: `-x;` is written `x-;` |
| CCompilerFacts.CallExample | src/compiler.c:185-196 | `f(1, x)` is written back as `f(1, x)` |

## Left out

- Floating point: the scanner keeps a number literal's value as an exact `real` and does not model `strtod` or the `pow` arithmetic. The 8-byte `double` the code generator writes is a parameter `f64` of the token stream. The machine's values are an abstract type whose operations are a parameter (`Arith`). The raw bit-cast in `include/bytecode.hpp` and `src/vm.cpp` is not modelled beyond that.
- Non-terminating scans: an unterminated quoted string at the end of the text (both scanners) and an unclosed backtick string loop forever in the source. The model reports `Hang` or `Hangs` there and claims no termination.
- File and standard I/O: `open_file`, the `File` constructor's `fopen`, `read`, `read_byte`, `lookup_byte`, `read_chunk`, `write_flush`, the buffered `write` template of `include/file.h`, and `src/util/reader.c`. The stream is reduced to a sequence of bytes.
- `src/main.cpp`: only the compile step of its driver is modelled (`ParsingFacts.Compile`). The REPL, `build_path` and the command dispatch are not part of this model.
- Console output and process exit: `Logger::info/warn/error`, `print_token`, `print_stack`, `supportsAnsi`, `getenv`, `debug_log` and stray `printf` calls. `fatal` becomes an outcome. The disassembler's output is the text it would print, without colours. The argument scanner's warnings are an appended list.
- Logger.GetData: the contract states only that DEC is the one kind without a text. The DEC case returns a pointer into a destroyed temporary. The spellings of keywords are tied to the scanner by `LexerFacts.KeywordComplete` and `LexerFacts.KeywordSound`.
- Logger: `Opcodes::OP_*`, which `disassemble` switches on, lives in a header that is not part of this model. The byte values of `include/bytecode.hpp` are used instead.
- Conflicting headers: `include/parser.hpp`, `include/symbol.hpp`, `include/file.hpp` and `include/input.hpp` are not modelled. The `.cpp` files include other versions.
- `src/arguments.cpp` matches neither `include/arguments.h` nor `include/arguments.hpp`. The model follows the `.cpp`: vectors of options and a three-argument `add`.
- Opcodes: the machine has a POW case, but the opcode table of `include/bytecode.hpp` has no POW byte. The model keeps the case and gives POW the byte `'p'`.
- Token.index: the two-argument `Lexer::emit` leaves `Token.index` uninitialised. The model sets it to 0, so the index byte of a MOVE is 0 for number literals.
- Memory management: `malloc`, `free`, `realloc` and `freeArray` are not modelled. Arrays are sequences plus a capacity field.
- PtrArray.PtrArray.Push requires room or a capacity of at least 2. A full buffer of capacity 0 or 1 does not grow (`size * 1.5` rounds down), and the source then writes past it.
- PtrArray.PtrArray.Trim leaves the capacity at the length, which can be 0. Nothing is pushed after a trim in the source.
- PtrArray.PtrArray.Remove requires an index in range. The source's guard `i < 0 && i >= length` is never true, so it would write out of range for any other index.
- Buffer sizes: where the source writes into caller buffers it trusts to be large enough, the model requires them to be large enough. This covers `h_memcpy`, `read_chunk`, `get_dir`, `get_name`, `get_ext`, `read_name` and the 1024-byte chunk. The machine's stack is different: a push past its 256 slots, or a pop from an empty stack, is an `Undefined` outcome.
- Symbol.InsertThenLookup, Symbol.InsertKeepsFindable: the lookup and no-duplicate guarantees hold only for names of at most 30 characters. A longer name is stored cut to 30 characters (src/symbol.cpp:53-54), the 32-character `strncmp` of src/symbol.cpp:30 never matches it again, and the cut name hashes to a different start slot. So a long name is never found and can be inserted twice (`Symbol.LongNamesNeverFound`, `Symbol.LongNameInsertedTwice`).
- Halloc.Arena.Halloc: the counter `allocations` is a `size_t` in the source (include/halloc.h:10), and `allocations += size` could wrap around. The model counts with an unbounded `nat`. The wrap cannot happen from the two callers (src/lexer.cpp:162 and 170): each passes the length of a token of the text, at least 1, and the first call that takes the counter past 2048 ends the process.
- Util.MemCpy: requires that the two ranges do not overlap, which holds at both callers (src/input.cpp:42 and src/file.cpp:126 copy between distinct buffers). The `dst` pointer `h_memcpy` returns is not modelled; both callers ignore it.
- Files.File.ReadHeader: a header read that finds fewer than 8 bytes is excluded by a precondition. The source would read an incomplete header.
- `error()`, which builds the error records of the C pipeline, is not part of this model. An error is a record of its kind, file, message and token.
- CParser.Parser.Current and CParser.Parser.Delmt require the cursor to be on a token (`iterator >= 0`). `current()` reads `tokens[-1]` before the first `next()`.
- `src/parser.c`: only the cursor, `delmt`, `psync`, `synchronize` and the operator mapping of `binaryExpr` are modelled. The recursive-descent routines that build the syntax tree (`parseExpression`, `parseStatement`, `fmatch`, `omatch`, `check`, and the rest of `binaryExpr`) are not.
- `src/compiler.c`: the output `FILE` is a growing string. The `fopen` failure path of `compile` is not modelled, because `compiler.errors` is never initialised. A function declaration's parameter array must be present, since the source reads its length before its NULL test. `initCompiler`'s code and file-name fields are not modelled.
- `src/types.c` is not part of this model (it is inconsistent with `src/types.h`). `scripts/keyword.js` serves only as the word list `CTokenizer.Spelling` checks `keyword` against.
- `trimArray` after `tokenize` only shrinks the capacity, so `CTokenizer.Tokenize` leaves it out.

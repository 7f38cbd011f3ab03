# vjson in Dafny

A model of the core of vjson, a JSON library for the JVM written in Kotlin and Java. The library has three parts, and the model covers each.

- **The incremental JSON parsers.**
  - The string parser and the object parser are character state machines. They may be fed their input in pieces. A call that runs out of input keeps its state, and the next call resumes from it.
  - The parser dispatch chooses a parser by the first non-blank character.
  - `extractNoQuotesString` reads an unquoted value up to a separator or an unmatched closing bracket.
  - The `feed`/`last`/`end` protocol shared by all parsers is modelled with them.
- **The utilities.**
  - The `StringDictionary` interner, a trie walked one character at a time by a traveler.
  - The `ObjectBuilder`, which keeps an ordered list of entries with the `@type` entry first.
  - The indentation state of `ScriptifyContext`.
  - The token classes of the preprocessor.
- **The embedded programming language.**
  - Type checking of literals, negation, function invocation and JSON instances.
  - The throw, error-handling and template-instantiation statements.
  - Instruction selection, including the lowering of a JSON instance into temporaries.
  - The runtime frames, the instruction wrapper and call-frame binding.
  - The interpreter that lays out the host libraries and runs a program.

## How the model is built

Characters on the JSON side are UTF-16 code units (`Chars.CodeUnit`, an `int` from 0 to 0xFFFF). A `\uXXXX` escape can produce a lone surrogate, which a Dafny `char` cannot hold.

Each parser is a pure specification plus a class proved against it.

- The specification is a one-character step function (`StringParsing.Step`, `ObjectParsing.OStep`) and the loop over it (`Scan`, `OScan`).
- `TryParseSpec`/`OTrySpec` give the result of `tryParse`, and `BuildSpec`/`OBuildSpec` the result of `build`.
- The classes `StringParser` and `ObjectParser` keep the fields of the source and update them in place. Their methods are proved to agree with those functions through `Abs()`, which maps the fields to the specification state.
- A thrown `JsonParseException` is a `ParseError` outcome, and a thrown `ParserFinishedException` is a `Finished` outcome.

The properties of the parsers are stated about the specification functions:

- resumability (input may be split anywhere);
- the round trip of any text through quoting and parsing back (section 7 of RFC 8259);
- the round trip of any member list through serialising and parsing back (section 4 of RFC 8259);
- `\uXXXX` decoding;
- parenthesised strings;
- blank skipping;
- the dispatch rules.

Collaborators whose code is not part of this model are parameters, never invented:

- resolving a written type, `TypeUtils.assignableFrom`, a template's `concrete`, the checks of the other kinds of node, and the value the type context's temporary counter has when a JSON instance is checked (`PlAst.Env`);
- the acceptance of a text by the number, boolean and null parsers (`ParserDispatch.Acceptors`);
- the behaviour of the host type libraries, the memory allocator's total and the effect of an instruction on the root frame and the registers (`Interpreting.Host`);
- the run of one argument's instruction against the caller's memory and the registers (the `eval` parameter of `PlRuntime.BuildContext`);
- the whitespace test of `String.trim` and the full-parser check of a no-quotes string (the `ws` and `parses` parameters of `Scriptify`).

A type scope (`TypeContext`) is a value (`PlTypes.Scope`). Checking a statement gives the scope that follows it.

## Model

| member | source | states |
|---|---|---|
| ParserUtils.IsWhiteSpace | src/main/kotlin/vjson/parser/ParserUtils.kt:51-53 | a blank is neither a digit nor a letter |
| ParserUtils.IsInitialVarName | src/main/kotlin/vjson/parser/ParserUtils.kt:56-58 | a name never starts with a digit |
| ParserUtils.IsVarName | src/main/kotlin/vjson/parser/ParserUtils.kt:61-63 | name characters are ASCII |
| ParserUtils.WhiteSpaceIsRfc8259 | src/main/kotlin/vjson/parser/ParserUtils.kt:51-53 | a unit is whitespace exactly when it is one of the four insignificant-whitespace characters of RFC 8259 (tab, line feed, carriage return, space) |
| ParserUtils.VarNameClasses | src/main/kotlin/vjson/parser/ParserUtils.kt:56-63 | initial name characters are exactly letters, `_` and `$`; name characters add the digits; every initial character is a name character and a digit never is initial |
| ParserUtils.SkipBlank | src/main/kotlin/vjson/parser/ParserUtils.kt:67-70 | the position reached is the first non-blank unit at or after the start, and everything skipped is whitespace |
| ParserUtils.CheckEnd | src/main/kotlin/vjson/parser/ParserUtils.kt:67-76 | without the end option the stream is untouched; with it the check succeeds exactly when only blanks remain, and then consumes them all |
| ParserUtils.SubParserOptions | src/main/kotlin/vjson/parser/ParserUtils.kt:87-98 | a sub-parser's options never require the end of input, are unchanged when the given options do not require it, and differ from the given ones in nothing else |
| StringParsing.ResetState | src/main/kotlin/vjson/parser/StringParser.kt:50-56 | reset returns to state 0 with an empty buffer and depth 0, keeping the delimiter and hex-digit fields |
| StringParsing.ParseHex | src/main/kotlin/vjson/parser/StringParser.kt:58-68 | a hex digit in either case maps to its value 0..15, anything else to -1 |
| StringParsing.Step | src/main/kotlin/vjson/parser/StringParser.kt:75-223 | one unit of input keeps the state-machine invariant, and no unit moves a parser into the "result returned" state |
| StringParsing.Run | src/main/kotlin/vjson/parser/StringParser.kt:75-223 | feeding a text unit by unit keeps the state-machine invariant |
| StringParsing.Scan | src/main/kotlin/vjson/parser/StringParser.kt:75-224 | the parse loop consumes at least one unit when it can, and stops only at the end of the input or right after the closing delimiter |
| StringParsing.ScanFrom | src/main/kotlin/vjson/parser/StringParser.kt:75-224 | one turn of the loop then the rest: the position strictly advances and the loop stops only at the input's end or the closing delimiter |
| StringParsing.TryParseSpec | src/main/kotlin/vjson/parser/StringParser.kt:75-240 | tryParse never reads beyond its input and leaves a state satisfying the invariant |
| StringParsing.BuildSpec | src/main/kotlin/vjson/parser/StringParser.kt:264-276 | build never reads beyond its input and leaves a state satisfying the invariant |
| StringParsing.StringParser.constructor | src/main/kotlin/vjson/parser/StringParser.kt:23-48 | a new parser is in the fresh state with the given options |
| StringParsing.StringParser.Reset | src/main/kotlin/vjson/parser/StringParser.kt:50-56 | the fields become ResetState of the old ones |
| StringParsing.StringParser.HandleParenthesesString | src/main/kotlin/vjson/parser/StringParser.kt:242-256 | one unit inside a parenthesised string changes the fields exactly as the specification step does |
| StringParsing.StringParser.Consume | src/main/kotlin/vjson/parser/StringParser.kt:78-223 | the branches of the loop body perform the specification step, or report its error and change nothing |
| StringParsing.StringParser.TryParse | src/main/kotlin/vjson/parser/StringParser.kt:75-240 | result, position and new fields are those of TryParseSpec from the old fields; after an error the parser has not finished |
| StringParsing.StringParser.Build | src/main/kotlin/vjson/parser/StringParser.kt:264-276 | result, position and new fields are those of BuildSpec; a built string leaves the parser completed |
| StringParsing.StringParser.Feed | src/main/kotlin/vjson/Parser.kt:33-43 | feed is build with more input to come |
| StringParsing.StringParser.Last | src/main/kotlin/vjson/Parser.kt:49-59 | last is build with this input being the end |
| StringParsing.StringParser.End | src/main/kotlin/vjson/Parser.kt:65-67 | end is last on an empty stream |
| StringParserProps.RunAtSeven | src/main/kotlin/vjson/parser/StringParser.kt:225-227 | a parser that has seen its closing delimiter ignores further units |
| StringParserProps.RunAppend | src/main/kotlin/vjson/parser/StringParser.kt:75-223 | feeding a + b is feeding a, then b, and an error in a stops it |
| StringParserProps.ScanIsRun | src/main/kotlin/vjson/parser/StringParser.kt:75-224 | what the loop consumed, fed unit by unit, gives what the loop ends with |
| StringParserProps.ScanOne | src/main/kotlin/vjson/parser/StringParser.kt:75-224 | the loop takes one unit at a time |
| StringParserProps.ScanThrough | src/main/kotlin/vjson/parser/StringParser.kt:75-224 | the loop runs straight through a stretch that does not close the string |
| StringParserProps.ScanShift | src/main/kotlin/vjson/parser/StringParser.kt:75-224 | the loop's outcome does not depend on what precedes its start, apart from the position shift |
| StringParserProps.RunNeverEight | src/main/kotlin/vjson/parser/StringParser.kt:228-239 | only a returned result is in state 8: feeding never reaches it |
| StringParserProps.Resume | src/main/kotlin/vjson/parser/StringParser.kt:225-239 | a call that answers "not yet" consumed its whole input, and the next call on the rest answers what a single call on the whole would have |
| StringParserProps.ParseHexUpper | src/main/kotlin/vjson/parser/StringParser.kt:58-68 | the value of an upper-case hex digit is its number |
| StringParserProps.UnicodeEscape | src/main/kotlin/vjson/parser/StringParser.kt:173-217 | the escape spelling a unit is six units starting with a backslash and `u` |
| StringParserProps.HexDigits | src/main/kotlin/vjson/parser/StringParser.kt:205-212 | the four nibbles of a unit recombine, shifted and or-ed, into the unit |
| StringParserProps.UnicodeEscapeRoundTrip | src/main/kotlin/vjson/parser/StringParser.kt:173-217 | inside a string, `\uXXXX` appends exactly the unit it spells (surrogates included) and returns to plain string content |
| StringParserProps.RunStep | src/main/kotlin/vjson/parser/StringParser.kt:75-223 | feeding a text is feeding its first unit, then the rest |
| StringParserProps.Quote | src/main/kotlin/vjson/parser/StringParser.kt:98-115 | the quoted form of a text starts and ends with its delimiter |
| StringParserProps.AfterEscapeShape | src/main/kotlin/vjson/parser/StringParser.kt:98-217 | reading an escaped text only appends the text to the buffer (and records hex digits) |
| StringParserProps.EscapeUnitRun | src/main/kotlin/vjson/parser/StringParser.kt:98-217 | the escaped form of any one unit is read back as that unit |
| StringParserProps.EscapeRun | src/main/kotlin/vjson/parser/StringParser.kt:98-217 | the escaped form of any text is read back as that text, unit for unit |
| StringParserProps.QuoteScan | src/main/kotlin/vjson/parser/StringParser.kt:78-224 | the loop started before a quoted text anywhere in the input stops right after its closing delimiter with the text appended |
| StringParserProps.QuoteRoundTrip | src/main/kotlin/vjson/parser/StringParser.kt:264-276 | a fresh parser builds the quoted form of any text back as the text, stopping right after the closing delimiter |
| StringParserProps.QuoteRoundTripAtEnd | src/main/kotlin/vjson/parser/StringParser.kt:264-276 | the same round trip when the parser must reach the end of the input |
| StringParserProps.ScanSameOptions | src/main/kotlin/vjson/parser/ParserUtils.kt:87-98 | the end-of-input option plays no part in the unit transitions |
| StringParserProps.RawControlRejected | src/main/kotlin/vjson/parser/StringParser.kt:108-110 | a raw control character (below 0x20) inside a string is an error |
| StringParserProps.ParenRun | src/main/kotlin/vjson/parser/StringParser.kt:242-256 | inside a parenthesised string, text that does not close it is kept verbatim and only moves the depth |
| StringParserProps.ParenRoundTrip | src/main/kotlin/vjson/parser/StringParser.kt:87-89 | a parenthesised string with balanced inner parentheses is read back as its inner text, up to the matching `)` |
| ObjectParsing.FeedKey | src/main/java/vjson/parser/ObjectParser.java:70-91 | one unit for the key sub-parser keeps the object parser's invariant |
| ObjectParsing.FeedValue | src/main/java/vjson/parser/ObjectParser.java:93-115 | one unit for the value sub-parser keeps the invariant |
| ObjectParsing.IdleStep | src/main/java/vjson/parser/ObjectParser.java:124-193 | with no sub-parser running, blanks change nothing, and a key or value sub-parser starts only in the states that expect one, on a non-blank unit |
| ObjectParsing.OStep | src/main/java/vjson/parser/ObjectParser.java:117-193 | one unit keeps the invariant and never moves the parser into the "result returned" state |
| ObjectParsing.OScan | src/main/java/vjson/parser/ObjectParser.java:149-193 | the loop stops only at the end of the input or after the final `}` |
| ObjectParsing.OScanFrom | src/main/java/vjson/parser/ObjectParser.java:149-193 | one turn then the rest: the position strictly advances |
| ObjectParsing.OScanOne | src/main/java/vjson/parser/ObjectParser.java:149-193 | the loop takes one unit at a time |
| ObjectParsing.OScanIdle | src/main/java/vjson/parser/ObjectParser.java:124-193 | an idle unit either moves on, fails past the unit, or starts a sub-parser that reads that same unit |
| ObjectParsing.OTrySpec | src/main/java/vjson/parser/ObjectParser.java:117-209 | tryParse never reads beyond its input and keeps the invariant |
| ObjectParsing.OTryFinish | src/main/java/vjson/parser/ObjectParser.java:194-208 | what tryParse does once its loop stopped keeps the invariant and the position |
| ObjectParsing.OTryError | src/main/java/vjson/parser/ObjectParser.java:194-208 | the loop's error, or an unfinished sub-parser at the end of complete input, is tryParse's error |
| ObjectParsing.OBuildSpec | src/main/java/vjson/parser/ObjectParser.java:212-226 | build never reads beyond its input and keeps the invariant |
| ObjectParsing.SubBuild | src/main/kotlin/vjson/parser/StringParser.kt:264-276 | a sub-parser's build is its loop: a closed string is built where it closed, otherwise pending or an error at the end of complete input |
| ObjectParsing.OScanKey | src/main/java/vjson/parser/ObjectParser.java:70-91 | while a key is read, the object loop is the key parser's loop, its errors prefixed as key errors |
| ObjectParsing.OScanValue | src/main/java/vjson/parser/ObjectParser.java:93-115 | while a value is read, the object loop is the value parser's loop; a finished value appends the member |
| ObjectParsing.ObjectParser.constructor | src/main/java/vjson/parser/ObjectParser.java:38-45 | a new parser is in the initial state |
| ObjectParsing.ObjectParser.Reset | src/main/java/vjson/parser/ObjectParser.java:47-53 | reset restores state 0, no entries, no key and no sub-parsers |
| ObjectParsing.ObjectParser.SetCurrentKey | src/main/java/vjson/parser/ObjectParser.java:63-68 | a null key is rejected and nothing changes; otherwise it becomes the current key |
| ObjectParsing.ObjectParser.FeedKeyParser | src/main/java/vjson/parser/ObjectParser.java:70-91 | the key parser reads as far as it can, exactly as the specification loop does |
| ObjectParsing.ObjectParser.FeedValueParser | src/main/java/vjson/parser/ObjectParser.java:93-115 | the value parser reads as far as it can, appending a finished member, exactly as the specification loop does |
| ObjectParsing.ObjectParser.StartKey | src/main/java/vjson/parser/ObjectParser.java:181-186 | a fresh key sub-parser is started and nothing else changes |
| ObjectParsing.ObjectParser.StartValue | src/main/java/vjson/parser/ObjectParser.java:161-166 | a fresh value sub-parser is started and nothing else changes |
| ObjectParsing.ObjectParser.StepIdle | src/main/java/vjson/parser/ObjectParser.java:124-193 | one idle unit agrees with the specification loop |
| ObjectParsing.ObjectParser.ParseLoop | src/main/java/vjson/parser/ObjectParser.java:149-193 | the main loop ends where OScan ends, in the state it ends in, or with its error |
| ObjectParsing.ObjectParser.TryParse | src/main/java/vjson/parser/ObjectParser.java:117-209 | result, position and new fields are those of OTrySpec |
| ObjectParsing.ObjectParser.Build | src/main/java/vjson/parser/ObjectParser.java:212-226 | result, position and new fields are those of OBuildSpec |
| ObjectParsing.ObjectParser.Feed | src/main/kotlin/vjson/Parser.kt:33-43 | feed is build with more input to come |
| ObjectParsing.ObjectParser.Last | src/main/kotlin/vjson/Parser.kt:49-59 | last is build with this input being the end |
| ObjectParsing.ObjectParser.End | src/main/kotlin/vjson/Parser.kt:65-67 | end is last on an empty stream |
| ObjectParserProps.OScanPrefix | src/main/java/vjson/parser/ObjectParser.java:194-208 | running out of input part-way leaves a state from which the rest is read as if the input had never been split |
| ObjectParserProps.OScanShift | src/main/java/vjson/parser/ObjectParser.java:149-193 | the loop's outcome does not depend on what precedes its start, apart from the position shift |
| ObjectParserProps.ObjectResume | src/main/java/vjson/parser/ObjectParser.java:194-208 | a call answering "not yet" consumed its whole input, and the next call on the rest answers what one call on the whole would have |
| ObjectParserProps.OScanBlanks | src/main/java/vjson/parser/ObjectParser.java:124-193 | blanks between tokens are skipped |
| ObjectParserProps.NotAnObject | src/main/java/vjson/parser/ObjectParser.java:124-136 | input whose first non-blank unit is not `{` is an error |
| ObjectParserProps.EmptyObject | src/main/java/vjson/parser/ObjectParser.java:137-148 | `{`, blanks, `}` is the empty object, read up to the `}` |
| ObjectParserProps.SkipBlankOver | src/main/kotlin/vjson/parser/ParserUtils.kt:67-70 | skipping blanks stops at the first non-blank unit |
| ObjectParserProps.SubQuote | src/main/java/vjson/parser/ObjectParser.java:181-186 | a sub-parser started on a quoted key or value reads it and stops after its closing quote |
| ObjectParserProps.OScanKeyDone | src/main/java/vjson/parser/ObjectParser.java:70-91 | a key parser that closes its string hands over to "expecting `:`" |
| ObjectParserProps.OScanValueDone | src/main/java/vjson/parser/ObjectParser.java:93-115 | a value parser that closes its string appends the member |
| ObjectParserProps.KeyScan | src/main/java/vjson/parser/ObjectParser.java:70-91 | a quoted key moves the parser from "expecting a key" to "expecting `:`" with that key |
| ObjectParserProps.ValueScan | src/main/java/vjson/parser/ObjectParser.java:93-115 | a quoted value moves the parser to "expecting `,` or `}`", appending (key, value) and clearing the key |
| ObjectParserProps.KeyColonScan | src/main/java/vjson/parser/ObjectParser.java:150-160 | a key and its `:` move the parser to "expecting a value" |
| ObjectParserProps.MemberScan | src/main/java/vjson/parser/ObjectParser.java:150-166 | one member moves the parser to "expecting `,` or `}`" with the member appended |
| ObjectParserProps.MembersAtHead | src/main/java/vjson/parser/ObjectParser.java:150-166 | a member list starts with its first member |
| ObjectParserProps.MembersAtTail | src/main/java/vjson/parser/ObjectParser.java:167-180 | after the first member of a longer list come a `,` and the other members |
| ObjectParserProps.MemberCommaScan | src/main/java/vjson/parser/ObjectParser.java:167-180 | a member and the `,` after it lead back to "expecting a key" with the member appended |
| ObjectParserProps.MembersScan | src/main/java/vjson/parser/ObjectParser.java:149-193 | a member list is appended in order, duplicate keys kept |
| ObjectParserProps.MemberText | src/main/java/vjson/parser/ObjectParser.java:150-166 | a serialised member is a quoted key, `:` and a quoted value at the expected positions |
| ObjectParserProps.MembersAtOne | src/main/java/vjson/parser/ObjectParser.java:150-166 | a single member makes a member list |
| ObjectParserProps.MembersAtCons | src/main/java/vjson/parser/ObjectParser.java:167-180 | a member, a `,` and further members make a longer list |
| ObjectParserProps.MembersTextOne | src/main/java/vjson/parser/ObjectParser.java:150-166 | the serialised form of a one-member list is a member list |
| ObjectParserProps.MembersTextHead | src/main/java/vjson/parser/ObjectParser.java:167-180 | the serialised form of a longer list is its first member, a `,` and the rest |
| ObjectParserProps.MembersText | src/main/java/vjson/parser/ObjectParser.java:149-193 | the serialised members, read as positions, form a member list |
| ObjectParserProps.ObjectScan | src/main/java/vjson/parser/ObjectParser.java:117-193 | `{`, members, `}`: the loop stops after the `}` holding exactly the members |
| ObjectParserProps.ObjectRoundTrip | src/main/java/vjson/parser/ObjectParser.java:212-226 | the serialised form of any member list is built back as exactly that list, in order with duplicates, stopping after the `}` |
| ParserDispatch.Closer | src/main/kotlin/vjson/parser/ParserUtils.kt:308-319 | the symbol expected for an opening bracket is a closing bracket |
| ParserDispatch.QuoteOutcome | src/main/kotlin/vjson/parser/ParserUtils.kt:337-356 | a string parser on a quoted part either fails or reads a string that ends after the quote |
| ParserDispatch.QuotedEnd | src/main/kotlin/vjson/parser/ParserUtils.kt:337-356 | the quoted part ends strictly after its start, and is found exactly when the string parser builds a string |
| ParserDispatch.ExtractStep | src/main/kotlin/vjson/parser/ParserUtils.kt:289-359 | stop exactly at a separator or closer outside brackets; plain units and inner separators are copied; an opener pushes its closer; a closer pops a match or is a mismatch error |
| ParserDispatch.ExtractFrom | src/main/kotlin/vjson/parser/ParserUtils.kt:289-366 | the number of characters read never runs past the input |
| ParserDispatch.ReadQuoted | src/main/kotlin/vjson/parser/ParserUtils.kt:337-356 | a fresh single-quote-enabled string parser, given the rest as last input, ends where QuotedEnd says |
| ParserDispatch.ExtractFromStep | src/main/kotlin/vjson/parser/ParserUtils.kt:289-359 | one turn of the loop: a stop returns the text copied so far, a failure is the result, and a continuation copies the characters it stepped over and goes on from there |
| ParserDispatch.ExtractTurn | src/main/kotlin/vjson/parser/ParserUtils.kt:289-359 | one turn of the loop body, with its quoted-part reading, does what the step specification says |
| ParserDispatch.ExtractNoQuotesString | src/main/kotlin/vjson/parser/ParserUtils.kt:284-367 | the loop with its bracket stack and buffer returns what the specification of extractNoQuotesString gives |
| ParserDispatch.ExtractSpec | src/main/kotlin/vjson/parser/ParserUtils.kt:284-367 | the text read lies inside the input after the skipped blanks |
| ParserDispatch.ValueNoQuotes | src/main/kotlin/vjson/parser/ParserUtils.kt:369-408 | an extraction error is the error; otherwise number, then boolean, then null, each only if it reads the whole text, else string |
| ParserDispatch.Dispatch | src/main/kotlin/vjson/parser/ParserUtils.kt:233-271 | input of only blanks is the "empty input string" error |
| ParserDispatchProps.ExtractCopies | src/main/kotlin/vjson/parser/ParserUtils.kt:284-367 | the value read is exactly the characters read, and it ends at the input's end, a separator or a closer, which is not read |
| ParserDispatchProps.ExtractSpecCopies | src/main/kotlin/vjson/parser/ParserUtils.kt:284-367 | extractNoQuotesString returns the characters after the blanks, and what follows is a separator or a closing bracket |
| ParserDispatchProps.ExtractPlainRun | src/main/kotlin/vjson/parser/ParserUtils.kt:357-359 | plain characters are copied one by one at any depth |
| ParserDispatchProps.ExtractInnerRun | src/main/kotlin/vjson/parser/ParserUtils.kt:293-307 | inside brackets, separators are copied like plain characters |
| ParserDispatchProps.ExtractPlain | src/main/kotlin/vjson/parser/ParserUtils.kt:293-307 | an unquoted plain value is read up to the first separator or closer, or the end |
| ParserDispatchProps.ExtractBracketed | src/main/kotlin/vjson/parser/ParserUtils.kt:308-336 | a bracket, plain content (separators included) and its closer are copied whole |
| ParserDispatchProps.ExtractUnclosed | src/main/kotlin/vjson/parser/ParserUtils.kt:360-365 | an opening bracket never closed before the end is the eof error |
| ParserDispatchProps.ExtractMismatch | src/main/kotlin/vjson/parser/ParserUtils.kt:320-336 | a closer of another kind than the one expected is the mismatch error |
| ParserDispatchProps.SkipBlankIdempotent | src/main/kotlin/vjson/parser/ParserUtils.kt:233-237 | skipping blanks twice is skipping them once |
| ParserDispatchProps.DispatchSkipsBlanks | src/main/kotlin/vjson/parser/ParserUtils.kt:233-237 | the dispatch depends only on the input from its first non-blank character |
| ParserDispatchProps.DispatchObject | src/main/kotlin/vjson/parser/ParserUtils.kt:244-270 | the object parser is chosen exactly when it accepts the first non-blank character as its first step |
| ParserDispatchProps.DispatchString | src/main/kotlin/vjson/parser/ParserUtils.kt:244-270 | without unquoted values, the string parser is chosen exactly when it accepts the first character as an opening delimiter |
| ParserDispatchProps.DispatchScalars | src/main/kotlin/vjson/parser/ParserUtils.kt:244-270 | without unquoted values: number iff `-` or a digit, boolean iff `t`/`f`, null iff `n`, array iff `[` |
| ParserDispatchProps.DispatchNoQuotes | src/main/kotlin/vjson/parser/ParserUtils.kt:238-243 | with unquoted values on, a first character outside `{ [ ( ' "` fails only when extraction fails, and never yields an object |
| Tokens.Category | src/main/kotlin/vpreprocessor/token/Token.kt:22-29 | keyword exactly for the keywords, each bracket category exactly for its bracket text |
| Tokens.CategoryVar | src/main/kotlin/vpreprocessor/token/Token.kt:29 | a text is a variable exactly when it is neither a keyword nor a bracket |
| Tokens.CategoryBracketLengths | src/main/kotlin/vpreprocessor/token/Token.kt:25-28 | bracket categories belong to one- and two-character texts; long texts are variables |
| Tokens.HashCode | src/main/kotlin/vpreprocessor/token/Token.kt:50-59 | every end-of-file token equals every other and all have the same hash |
| Scriptify.Spaces | src/main/kotlin/vjson/pl/ScriptifyContext.kt:30-34 | n spaces for a non-negative n, none otherwise |
| Scriptify.StringBuilder.constructor | src/main/kotlin/vjson/pl/ScriptifyContext.kt:30 | a new buffer is empty |
| Scriptify.ScriptifyContext.constructor | src/main/kotlin/vjson/pl/ScriptifyContext.kt:10-13 | a new context is top-level with indentation 0 |
| Scriptify.ScriptifyContext.UnsetTopLevel | src/main/kotlin/vjson/pl/ScriptifyContext.kt:15-17 | the top-level flag is cleared and the indentation kept |
| Scriptify.ScriptifyContext.IncreaseIndent | src/main/kotlin/vjson/pl/ScriptifyContext.kt:19-21 | the indentation grows by exactly the step |
| Scriptify.ScriptifyContext.DecreaseIndent | src/main/kotlin/vjson/pl/ScriptifyContext.kt:23-28 | fails and changes nothing when the indentation would become negative, otherwise steps back by the step |
| Scriptify.ScriptifyContext.AppendIndent | src/main/kotlin/vjson/pl/ScriptifyContext.kt:30-34 | appends exactly as many spaces as the current indentation |
| Scriptify.TrimStart | src/main/kotlin/vjson/pl/ScriptifyContext.kt:48 | a suffix that does not start with whitespace, all removed units being whitespace |
| Scriptify.TrimEnd | src/main/kotlin/vjson/pl/ScriptifyContext.kt:48 | a prefix that does not end with whitespace, all removed units being whitespace |
| Scriptify.Trim | src/main/kotlin/vjson/pl/ScriptifyContext.kt:48 | trimming never lengthens a text |
| Scriptify.TrimKeeps | src/main/kotlin/vjson/pl/ScriptifyContext.kt:48 | a text without whitespace at either end is its own trim |
| Scriptify.TrimKept | src/main/kotlin/vjson/pl/ScriptifyContext.kt:48 | a non-empty text that is its own trim has no whitespace at either end |
| Scriptify.TrimUnchanged | src/main/kotlin/vjson/pl/ScriptifyContext.kt:48 | trimming changes nothing exactly when the text is empty or has no whitespace at either end |
| Scriptify.StringNoQuotes | src/main/kotlin/vjson/pl/ScriptifyContext.kt:46-50 | a text written without quotes always passes the parser check |
| Scriptify.NoQuotesNeverBlankOrPadded | src/main/kotlin/vjson/pl/ScriptifyContext.kt:46-50 | a text goes unquoted exactly when it is non-empty, not padded with whitespace and passes the parser check; blank or padded texts are always quoted |
| ObjectBuilding.Insert | src/main/kotlin/vjson/util/ObjectBuilder.kt:34-41 | one entry more, nothing lost or merged; `@type` goes in front, any other key at the end |
| ObjectBuilding.Replay | src/main/kotlin/vjson/util/ObjectBuilder.kt:28-32 | replaying an object keeps its number of entries |
| ObjectBuilding.Untyped | src/main/kotlin/vjson/util/ObjectBuilder.kt:34-41 | the entries other than `@type` hold no `@type` key |
| ObjectBuilding.UntypedPrepend | src/main/kotlin/vjson/util/ObjectBuilder.kt:34-41 | a `@type` entry in front does not change the untyped entries |
| ObjectBuilding.ReplayPermutes | src/main/kotlin/vjson/util/ObjectBuilder.kt:28-32 | the copy holds exactly the object's entries, as a permutation |
| ObjectBuilding.ReplayKeepsOrder | src/main/kotlin/vjson/util/ObjectBuilder.kt:28-32 | the copy keeps the order of the entries other than `@type` |
| ObjectBuilding.ReplayUntyped | src/main/kotlin/vjson/util/ObjectBuilder.kt:28-32 | an object without `@type` is copied exactly |
| ObjectBuilding.ReplayTypeFirst | src/main/kotlin/vjson/util/ObjectBuilder.kt:28-32 | an object holding `@type` is copied with its last `@type` entry first |
| ObjectBuilding.ObjectBuilder.constructor | src/main/kotlin/vjson/util/ObjectBuilder.kt:23-27 | a new builder has no entries |
| ObjectBuilding.ObjectBuilder.FromObject | src/main/kotlin/vjson/util/ObjectBuilder.kt:28-32 | the copy constructor's entries are the object's entries replayed through putInst |
| ObjectBuilding.ObjectBuilder.PutInst | src/main/kotlin/vjson/util/ObjectBuilder.kt:34-41 | the entries become Insert of the old ones, and the same builder is returned |
| ObjectBuilding.ObjectBuilder.PutNullableInst | src/main/kotlin/vjson/util/ObjectBuilder.kt:43-53 | with isNull a null is stored, otherwise the supplied instance |
| ObjectBuilding.ObjectBuilder.PutBool | src/main/kotlin/vjson/util/ObjectBuilder.kt:55-57 | a boolean entry is inserted |
| ObjectBuilding.ObjectBuilder.PutInt | src/main/kotlin/vjson/util/ObjectBuilder.kt:59-61 | a 32-bit integer entry is inserted |
| ObjectBuilding.ObjectBuilder.PutLong | src/main/kotlin/vjson/util/ObjectBuilder.kt:63-65 | a 64-bit integer entry is inserted |
| ObjectBuilding.ObjectBuilder.PutDouble | src/main/kotlin/vjson/util/ObjectBuilder.kt:67-69 | a double entry is inserted |
| ObjectBuilding.ObjectBuilder.PutExp | src/main/kotlin/vjson/util/ObjectBuilder.kt:71-73 | a number-with-exponent entry is inserted |
| ObjectBuilding.ObjectBuilder.PutString | src/main/kotlin/vjson/util/ObjectBuilder.kt:75-81 | a missing string is stored as null, a present one as a string |
| ObjectBuilding.ObjectBuilder.PutObject | src/main/kotlin/vjson/util/ObjectBuilder.kt:83-91 | the filled inner builder's entries are inserted as an object |
| ObjectBuilding.ObjectBuilder.PutArray | src/main/kotlin/vjson/util/ObjectBuilder.kt:93-101 | the elements are inserted as an array |
| ObjectBuilding.ObjectBuilder.Type | src/main/kotlin/vjson/util/ObjectBuilder.kt:103-105 | the `@type` entry goes in front of all others |
| ObjectBuilding.ObjectBuilder.Build | src/main/kotlin/vjson/util/ObjectBuilder.kt:111-113 | the object holds exactly the builder's entries |
| StringDictionaries.Char2Int | src/main/kotlin/vjson/util/StringDictionary.kt:25-52 | codes lie below the leaf offset, and only characters of the table get a non-zero code |
| StringDictionaries.Int2Char | src/main/kotlin/vjson/util/StringDictionary.kt:25-52 | the reverse table maps into the table's range |
| StringDictionaries.TablesInverse | src/main/kotlin/vjson/util/StringDictionary.kt:25-52 | the two tables are inverse to each other on the alphabet |
| StringDictionaries.Char2IntInjective | src/main/kotlin/vjson/util/StringDictionary.kt:25-52 | distinct characters of the alphabet have distinct codes |
| StringDictionaries.FillRun | src/main/kotlin/vjson/util/StringDictionary.kt:27-50 | one run of the initialiser hands out the next codes to consecutive characters in both tables |
| StringDictionaries.AlphabetRuns | src/main/kotlin/vjson/util/StringDictionary.kt:27-50 | `$`, `-`, the digits, the upper-case letters, `_` and the lower-case letters get codes 1 to 65 in that order |
| StringDictionaries.BuildTables | src/main/kotlin/vjson/util/StringDictionary.kt:25-53 | both tables hold exactly Char2Int and Int2Char, and the leaf offset is 66 |
| StringDictionaries.Encode | src/main/kotlin/vjson/util/StringDictionary.kt:74-129 | a text's trie path has one code per character |
| StringDictionaries.EncodeInjective | src/main/kotlin/vjson/util/StringDictionary.kt:74-129 | two texts of the alphabet with the same path are the same text |
| StringDictionaries.IndexOf | src/main/kotlin/vjson/util/StringDictionary.kt:158-168 | the first position holding the text |
| StringDictionaries.Record | src/main/kotlin/vjson/util/StringDictionary.kt:137-169 | the text itself is returned; the leaf/storage invariant is kept; storage only grows at the end; empty or unhandled text records nothing; otherwise the path leads to the stored text and old leaves are kept |
| StringDictionaries.RecordTwice | src/main/kotlin/vjson/util/StringDictionary.kt:146-149 | interning the same text twice returns the same string and changes the dictionary only the first time |
| StringDictionaries.StringDictionary.constructor | src/main/kotlin/vjson/util/StringDictionary.kt:19-57 | a new dictionary has empty storage and no leaves |
| StringDictionaries.StringDictionary.NewTraveler | src/main/kotlin/vjson/util/StringDictionary.kt:174-176 | a new traveler over this dictionary with nothing fed |
| StringDictionaries.Traveler.constructor | src/main/kotlin/vjson/util/StringDictionary.kt:59-64 | a traveler starts empty and unmarked |
| StringDictionaries.Traveler.Next | src/main/kotlin/vjson/util/StringDictionary.kt:74-129 | every character is appended to the text; the walk is marked unhandled for good past the length limit or outside the alphabet; otherwise it follows the character's code |
| StringDictionaries.Traveler.Done | src/main/kotlin/vjson/util/StringDictionary.kt:131-135 | returns the fed text, records as Record says, and resets the traveler to empty and unmarked |
| StringDictionaries.Traveler.RecordText | src/main/kotlin/vjson/util/StringDictionary.kt:137-153 | returns and records as Record says |
| StringDictionaries.Traveler.HandleConcurrentRecord | src/main/kotlin/vjson/util/StringDictionary.kt:156-169 | a text another traveler stored gets a leaf, a new one is appended, as Record says |
| PlTypes.SlotOf | src/main/kotlin/vjson/pl/type/ArrayTypeInstance.kt:57-64 | each of int, long, float, double and bool has its own slot, and every other type is a reference |
| PlTypes.FunctionDescriptor | src/main/kotlin/vjson/pl/ast/FunctionInvocation.kt:32-33 | a descriptor exists exactly for function types |
| PlTypes.Constructor | src/main/kotlin/vjson/pl/ast/NewInstanceWithJson.kt:50 | only composite types have a constructor |
| PlTypes.ElementType | src/main/kotlin/vjson/pl/type/ArrayTypeInstance.kt:69-71 | an array type gives its constructor argument, other types none |
| PlTypes.ArrayField | src/main/kotlin/vjson/pl/type/ArrayTypeInstance.kt:24-67 | `length` is the only field: an immutable int at (0, 0) whose implementation is chosen by the element kind |
| PlTypes.ElementPredicate | src/main/kotlin/vjson/pl/type/lang/CollectionType.kt:29-30 | `add`/`remove` take one element parameter at index 0 and return a boolean |
| PlTypes.CollectionField | src/main/kotlin/vjson/pl/type/lang/CollectionType.kt:26-35 | exactly size (int), add and remove (element to boolean) and iterator, each immutable at (0, 0) |
| PlTypes.CollectionIteratorField | src/main/kotlin/vjson/pl/type/lang/CollectionType.kt:37-46 | exactly hasNext (boolean) and next (the element type), immutable at (0, 0) |
| PlTypes.IteratorField | src/main/kotlin/vjson/pl/type/lang/IteratorType.kt:23-85 | exactly hasNext (boolean, reading the host iterator) and next (the element type, writing its kind's slot) |
| PlTypes.TemplateTypeParams | src/main/kotlin/vjson/pl/type/lang/IteratorType.kt:87-93 | the type parameters are exactly the element type |
| PlTypes.Child | src/main/kotlin/vjson/pl/ast/ErrorHandlingStatement.kt:38-40 | a fresh empty scope whose parent is the given one |
| PlTypes.AddType | src/main/kotlin/vjson/pl/ast/TemplateTypeInstantiation.kt:57 | one type binding added, nothing else changed |
| PlTypes.CollectionInitiate | src/main/kotlin/vjson/pl/type/lang/CollectionType.kt:21-24 | exactly two types are registered, the alias and alias + ".Iterator", other bindings kept |
| PlSyntax.NatToString | src/main/kotlin/vjson/pl/ast/NewInstanceWithJson.kt:68 | a number is spelled with at least one decimal digit |
| PlSyntax.Render | src/main/kotlin/vjson/pl/ast/NewInstanceWithJson.kt:27 | an error path is spelled starting with `$` |
| PlSyntax.RenderExtends | src/main/kotlin/vjson/pl/ast/NewInstanceWithJson.kt:61-68 | the spelling of a path extends the spelling of each of its prefixes, so a nested error path names the enclosing one first |
| PlSyntax.Lookup | src/main/kotlin/vjson/pl/ast/NewInstanceWithJson.kt:60 | the position of the key's first occurrence in the literal |
| PlAst.ParamsMap | src/main/kotlin/vjson/pl/ast/NewInstanceWithJson.kt:51-55 | the map's keys are the stripped parameter names, and the last parameter's stripped name maps to its type |
| PlAst.CheckObject | src/main/kotlin/vjson/pl/ast/NewInstanceWithJson.kt:49-63 | no constructor and a key set different from the stripped parameter names are errors at the object's path; any fault lies at a place of the right kind that exists below the path |
| PlAst.CheckEntries | src/main/kotlin/vjson/pl/ast/NewInstanceWithJson.kt:59-62 | a fault of the parameter loop lies below the object's path at a place of the right kind |
| PlAst.EntryOutcome | src/main/kotlin/vjson/pl/ast/NewInstanceWithJson.kt:59-62 | the value checked for a parameter is the one under its stripped name, which is a key of the literal; a fault lies below `.name` at a place of the right kind |
| PlAst.CheckEntriesStep | src/main/kotlin/vjson/pl/ast/NewInstanceWithJson.kt:59-62 | the loop goes on past a parameter exactly when its value passes, and otherwise fails with that value's fault |
| PlAst.CheckEntriesFirstFailure | src/main/kotlin/vjson/pl/ast/NewInstanceWithJson.kt:59-62 | the loop's outcome is that of the first parameter, in constructor order, whose value fails, or Pass when none does |
| PlAst.CheckEntriesPass | src/main/kotlin/vjson/pl/ast/NewInstanceWithJson.kt:59-62 | the loop passes exactly when the value of every parameter passes |
| PlAst.ObjectRule | src/main/kotlin/vjson/pl/ast/NewInstanceWithJson.kt:49-63 | checkObject passes exactly when the type has a constructor, the keys are its stripped parameter names, and every parameter's value passes at `.name` |
| PlAst.CheckValue | src/main/kotlin/vjson/pl/ast/NewInstanceWithJson.kt:35-47 | a fault lies below the value's path at a place of the right kind; a leaf passes exactly when its expression checks to the expected type, and otherwise fails at its own path |
| PlAst.CheckArray | src/main/kotlin/vjson/pl/ast/NewInstanceWithJson.kt:65-70 | a non-array type is an error at the array's path; any fault lies below it at a place of the right kind |
| PlAst.CheckElems | src/main/kotlin/vjson/pl/ast/NewInstanceWithJson.kt:67-69 | a fault of the element loop lies below the array's path at a place of the right kind |
| PlAst.CheckElemsPass | src/main/kotlin/vjson/pl/ast/NewInstanceWithJson.kt:67-69 | the element loop passes exactly when every element passes at `[i]` against the element type |
| PlAst.ArrayRule | src/main/kotlin/vjson/pl/ast/NewInstanceWithJson.kt:65-70 | checkArray passes exactly when the type is an array type and every element passes at `[i]` |
| PlAst.Check | src/main/kotlin/vjson/pl/ast/FunctionInvocation.kt:29-51 | an integer literal is Int or Long; a negation that checks is numeric; an invocation that checks has a target of function type and that function's return type; a JSON instance that checks has its written type |
| PlAst.CheckJsonInstance | src/main/kotlin/vjson/pl/ast/NewInstanceWithJson.kt:24-32 | a JSON instance checks only when its written type resolves and checkObject passes from `$`, and then has the written type |
| PlAst.CheckArgs | src/main/kotlin/vjson/pl/ast/FunctionInvocation.kt:40-49 | the loop past the last argument succeeds; when it succeeds, the first remaining argument checks and is assignable to its parameter |
| PlAst.TypeOf | src/main/kotlin/vjson/pl/ast/IntegerLiteral.kt:40-43 | an integer literal's type instance is Int or Long; an invocation's type instance exists only when its target's is a function type |
| PlAst.TypeOfAgrees | src/main/kotlin/vjson/pl/ast/IntegerLiteral.kt:40-43 | after a successful check, typeInstance gives the type the check gave, for every modelled expression |
| PlAst.IntegerLiteralType | src/main/kotlin/vjson/pl/ast/IntegerLiteral.kt:34-38 | Long if the hint resolves to Long, else Long exactly for a long literal, else Int; without a hint it always checks |
| PlAst.NullLiteralTyping | src/main/kotlin/vjson/pl/ast/NullLiteral.kt:28-41 | an untyped null has NullType, a typed one its declared type |
| PlAst.NegativeTyping | src/main/kotlin/vjson/pl/ast/Negative.kt:26-37 | checks exactly when the operand checks to a numeric type, and then has the operand's type at check time and afterwards |
| PlAst.CheckArgsAll | src/main/kotlin/vjson/pl/ast/FunctionInvocation.kt:40-49 | the argument loop succeeds exactly when every argument checks and is assignable to its parameter |
| PlAst.CheckArgsFirstFailure | src/main/kotlin/vjson/pl/ast/FunctionInvocation.kt:40-49 | on failure, the error is that of the first bad argument: its own checking error or the mismatch naming its index |
| PlAst.InvocationTyping | src/main/kotlin/vjson/pl/ast/FunctionInvocation.kt:29-55 | checks exactly when the target has a function type of matching arity and all arguments are assignable; the type is the return type |
| PlAst.JsonInstanceTyping | src/main/kotlin/vjson/pl/ast/NewInstanceWithJson.kt:24-32 | checks exactly when the written type resolves, checkObject passes from `$` and the lowering succeeds; the type is the written one; a checkObject error names a path that exists in the literal |
| PlAst.Terminates | src/main/kotlin/vjson/pl/ast/ErrorHandlingStatement.kt:54-72 | a throw terminates, a template instantiation never; an error-handling statement terminates iff both its error and else branches hold a terminating statement, so never with an empty else |
| PlAst.AnyTerminates | src/main/kotlin/vjson/pl/ast/ErrorHandlingStatement.kt:42-50 | true exactly when some statement of the list terminates |
| PlAst.ErrorScope | src/main/kotlin/vjson/pl/ast/ErrorHandlingStatement.kt:36-37 | a child scope declaring only the immutable `err` of error type at (0, 0) |
| PlAst.ResolveAll | src/main/kotlin/vjson/pl/ast/TemplateTypeInstantiation.kt:41-43 | resolves exactly when every written type resolves, element-wise and in order |
| PlAst.CheckStmt | src/main/kotlin/vjson/pl/ast/ErrorHandlingStatement.kt:34-51 | a throw leaves the scope as it was; an error-handling statement leaves the scope its try code left; a template instantiation adds exactly its new name, keeping the variables and the parent |
| PlAst.CheckStatements | src/main/kotlin/vjson/pl/Interpreter.kt:34 | an empty list leaves the scope as it was; a list that checks has a first statement that checks |
| PlAst.CheckStatementsAppend | src/main/kotlin/vjson/pl/Interpreter.kt:34 | checking a list in two parts is checking the first then the second in the scope it leaves |
| PlAst.CheckStatementsPrefix | src/main/kotlin/vjson/pl/Interpreter.kt:34 | every prefix of a list that checks also checks, and the rest of the list leads from the scope it left to the same final scope |
| PlAst.ThrowRule | src/main/kotlin/vjson/pl/ast/ThrowStatement.kt:32-43 | no operand always checks; an operand must check to String, Null or Error; the scope is unchanged |
| PlAst.ErrorHandlingRule | src/main/kotlin/vjson/pl/ast/ErrorHandlingStatement.kt:34-51 | try in the enclosing scope, error branch in a scope with `err`, else in a plain child; a terminating try with a non-empty else is an error; the scope after is the try's |
| PlAst.TemplateRule | src/main/kotlin/vjson/pl/ast/TemplateTypeInstantiation.kt:35-59 | a name already in this scope, a non-template, an arity mismatch and a failing `concrete` are errors; instantiatedTypeInstance is set exactly when the check succeeds, to the type bound under the name; success adds exactly that one binding |
| PlLowering.Generate | src/main/kotlin/vjson/pl/ast/Negative.kt:39-47 | each kind of expression lowers to its own kind of instruction: literals to literal instructions, negations to one of the four negations, invocations to an invocation, JSON instances to a composite |
| PlLowering.GenerateAll | src/main/kotlin/vjson/pl/ast/FunctionInvocation.kt:57-59 | the arguments are lowered element-wise and in order, succeeding exactly when each does |
| PlLowering.GenerateSucceeds | src/main/kotlin/vjson/pl/ast/Negative.kt:39-47 | every expression that checks can be lowered, so the unsupported negation cannot arise |
| PlLowering.NegativeLowering | src/main/kotlin/vjson/pl/ast/Negative.kt:39-47 | the negation instruction matches the operand's kind exactly |
| PlLowering.LiteralLowering | src/main/kotlin/vjson/pl/ast/IntegerLiteral.kt:45-51 | LiteralLong exactly when the literal's type is Long, else LiteralInt, carrying the number; a null literal is always LiteralNull |
| PlLowering.JsonInstanceLowering | src/main/kotlin/vjson/pl/ast/NewInstanceWithJson.kt:24-32 | a JSON instance that checks lowers to the composite of exactly the list LowerObject makes for its written type from the counter its check saw, ending with the construction of that type |
| PlLowering.GenerateStmt | src/main/kotlin/vjson/pl/ast/ThrowStatement.kt:45-47 | each kind of statement lowers to its own kind of instruction, and a throw carries an operand instruction exactly when it has an operand |
| PlLowering.GenerateStatements | src/main/kotlin/vjson/pl/ast/ErrorHandlingStatement.kt:74-79 | a lowered list has one instruction per statement, the first being the first statement's |
| PlLowering.StmtLoweringSucceeds | src/main/kotlin/vjson/pl/ast/ThrowStatement.kt:45-47 | every statement that checks can be lowered |
| PlLowering.StatementsLoweringSucceed | src/main/kotlin/vjson/pl/ast/ErrorHandlingStatement.kt:74-79 | every list that checks can be lowered, to one instruction per statement |
| PlLowering.StatementsLoweringAt | src/main/kotlin/vjson/pl/Interpreter.kt:61-62 | the instruction at index i is statement i lowered in the scope the statements before it left when checked |
| PlLowering.StatementLowering | src/main/kotlin/vjson/pl/ast/ErrorHandlingStatement.kt:74-79 | throw gives ThrowInst with the operand's instruction or none, template instantiation NoOp; error handling gives one instruction holding the try, error and else lists, each lowered element-wise in the scope it was checked in |
| JsonLowering.DigitInjective | src/main/kotlin/vjson/pl/ast/NewInstanceWithJson.kt:95 | different digits are spelled differently |
| JsonLowering.SingleDigit | src/main/kotlin/vjson/pl/ast/NewInstanceWithJson.kt:95 | a number has a one-digit spelling exactly when it is below ten |
| JsonLowering.NatToStringInjective | src/main/kotlin/vjson/pl/ast/NewInstanceWithJson.kt:95 | different counter values are spelled differently |
| JsonLowering.TempInjective | src/main/kotlin/vjson/pl/ast/NewInstanceWithJson.kt:13 | temporaries made with different counter values have different names |
| JsonLowering.TempRangeGrows | src/main/kotlin/vjson/pl/ast/NewInstanceWithJson.kt:95 | a narrower counter range has fewer temporaries |
| JsonLowering.NamesAppend | src/main/kotlin/vjson/pl/ast/NewInstanceWithJson.kt:87-116 | the names defined by two instruction lists together are those of each |
| JsonLowering.AssignedAppend | src/main/kotlin/vjson/pl/ast/NewInstanceWithJson.kt:132-155 | the indices assigned by two lists together are those of each, in order |
| JsonLowering.AssignedNone | src/main/kotlin/vjson/pl/ast/NewInstanceWithJson.kt:132-155 | a list that never names an array assigns nothing into it |
| JsonLowering.LowerObject | src/main/kotlin/vjson/pl/ast/NewInstanceWithJson.kt:87-116 | the counter only grows; the instructions name only temporaries made in that counter range and the target; the target is defined |
| JsonLowering.LowerArgs | src/main/kotlin/vjson/pl/ast/NewInstanceWithJson.kt:88-105 | one argument per parameter, in parameter order; every stripped parameter name is a key; a leaf passes through unchanged, a nested value becomes an access of a temporary the list defines |
| JsonLowering.LowerValue | src/main/kotlin/vjson/pl/ast/NewInstanceWithJson.kt:91-103 | a leaf is passed as it is with no instructions; a nested value is built into the temporary of the current counter, which the argument reads |
| JsonLowering.LowerArray | src/main/kotlin/vjson/pl/ast/NewInstanceWithJson.kt:119-156 | the first instruction defines the temporary as a new array of exactly as many slots as elements; other names are fresh temporaries |
| JsonLowering.LowerElems | src/main/kotlin/vjson/pl/ast/NewInstanceWithJson.kt:132-155 | the element loop names only fresh temporaries and the array's temporary |
| JsonLowering.LowerElem | src/main/kotlin/vjson/pl/ast/NewInstanceWithJson.kt:133-154 | a leaf is assigned as it is; an object is built into the current counter's temporary, which the element reads |
| JsonLowering.NestedArrayLowering | src/main/kotlin/vjson/pl/ast/NewInstanceWithJson.kt:142-148 | an array inside an array redefines the enclosing temporary as a new array, while the element reads a temporary that nothing defines |
| JsonLowering.ObjectLowering | src/main/kotlin/vjson/pl/ast/NewInstanceWithJson.kt:87-116 | the list ends with the construction of the type (bound to the target if any), whose arguments follow the constructor's parameters: leaves as written, nested values as reads of temporaries defined earlier |
| JsonLowering.ElemFree | src/main/kotlin/vjson/pl/ast/NewInstanceWithJson.kt:133-141 | a non-array element's instructions never name the array's temporary |
| JsonLowering.ElemAssignsOnce | src/main/kotlin/vjson/pl/ast/NewInstanceWithJson.kt:152-154 | a non-array element assigns its own index into the array and nothing else into it |
| JsonLowering.ElemsAssignInOrder | src/main/kotlin/vjson/pl/ast/NewInstanceWithJson.kt:132-155 | the element loop assigns exactly the indices from i on, ascending |
| JsonLowering.ArrayLowering | src/main/kotlin/vjson/pl/ast/NewInstanceWithJson.kt:126-155 | exactly json.size slots are allocated and every index is assigned once, in ascending order |
| JsonLowering.TempFresh | src/main/kotlin/vjson/pl/ast/NewInstanceWithJson.kt:95 | the temporary made with counter c is not among those made from c + 1 on |
| JsonLowering.Generator.constructor | src/main/kotlin/vjson/pl/ast/NewInstanceWithJson.kt:80-84 | a generator starts with an empty list and the given counter |
| JsonLowering.Generator.NextCounter | src/main/kotlin/vjson/pl/ast/NewInstanceWithJson.kt:95 | gives the current counter and advances it by one |
| JsonLowering.Generator.GenerateObject | src/main/kotlin/vjson/pl/ast/NewInstanceWithJson.kt:87-116 | appends exactly what LowerObject describes, or reports its error |
| JsonLowering.Generator.GenerateArgs | src/main/kotlin/vjson/pl/ast/NewInstanceWithJson.kt:88-105 | appends what LowerArgs describes and gives its arguments, or reports its error |
| JsonLowering.Generator.GenerateValue | src/main/kotlin/vjson/pl/ast/NewInstanceWithJson.kt:91-103 | appends what LowerValue describes and gives its argument |
| JsonLowering.Generator.GenerateArray | src/main/kotlin/vjson/pl/ast/NewInstanceWithJson.kt:119-156 | appends exactly what LowerArray describes, or reports its error |
| JsonLowering.Generator.AssignElements | src/main/kotlin/vjson/pl/ast/NewInstanceWithJson.kt:132-155 | appends what LowerElems describes, or reports its error |
| JsonLowering.Generator.GenerateElem | src/main/kotlin/vjson/pl/ast/NewInstanceWithJson.kt:133-154 | appends what LowerElem describes and gives the assigned value |
| JsonLowering.Generator.Lower | src/main/kotlin/vjson/pl/ast/NewInstanceWithJson.kt:80-84 | the object lowered without a target into a new list, as one composite instruction, or its error |
| PlRuntime.ValueHolder.constructor | src/main/kotlin/vjson/pl/ast/FunctionInvocation.kt:95-96 | a value holder starts with zero, false and null registers |
| PlRuntime.ValueHolder.Load | src/main/kotlin/vjson/pl/ast/FunctionInvocation.kt:95-96 | the registers become those an argument's instruction left |
| PlRuntime.EmptyMem | src/main/kotlin/vjson/pl/inst/ActionContext.kt:15-16 | a new memory has exactly the cells its total asks for, of each kind |
| PlRuntime.Write | src/main/kotlin/vjson/pl/ast/FunctionInvocation.kt:97-105 | the cell takes the register of its kind and no cell count changes |
| PlRuntime.WriteLeavesOthers | src/main/kotlin/vjson/pl/ast/FunctionInvocation.kt:97-105 | a write changes no other cell |
| PlRuntime.RuntimeMemory.constructor | src/main/kotlin/vjson/pl/inst/ActionContext.kt:16 | a new memory is EmptyMem of its total |
| PlRuntime.RuntimeMemory.Store | src/main/kotlin/vjson/pl/Interpreter.kt:55-58 | the cells become those an instruction or a value initiation left |
| PlRuntime.RuntimeMemory.Set | src/main/kotlin/vjson/pl/ast/FunctionInvocation.kt:97-105 | the cells become Write of the old ones |
| PlRuntime.ActionContext.constructor | src/main/kotlin/vjson/pl/inst/ActionContext.kt:15-20 | a fresh memory of the given total; depth 0 for a root, the parent's plus one otherwise; not returning, no break or continue |
| PlRuntime.ActionContext.Restore | src/main/kotlin/vjson/pl/Interpreter.kt:64 | the frame's cells and control flags become those an instruction left |
| PlRuntime.ActionContext.GetContext | src/main/kotlin/vjson/pl/inst/ActionContext.kt:30-33 | the ancestor-or-self frame at depth d |
| PlRuntime.ActionContext.GetMem | src/main/kotlin/vjson/pl/inst/ActionContext.kt:22-24 | the memory of the frame at depth d |
| PlRuntime.ActionContext.AncestorDepths | src/main/kotlin/vjson/pl/inst/ActionContext.kt:17 | the i-th enclosing frame has depth i, so each depth names one frame |
| PlRuntime.InstructionException.constructor | src/main/kotlin/vjson/pl/inst/Instruction.kt:29-33 | a new exception holds its message, if any, and one trace entry |
| PlRuntime.Instruction.constructor | src/main/kotlin/vjson/pl/inst/Instruction.kt:15-16 | an instruction holds its stack info and has not run |
| PlRuntime.Instruction.Execute | src/main/kotlin/vjson/pl/inst/Instruction.kt:18-36 | nothing when returning; else the own work runs once; an InstructionException gets this stack info appended and is rethrown; any other failure becomes a new one with this stack info and the message |
| PlRuntime.Infos | src/main/kotlin/vjson/pl/inst/Instruction.kt:24-26 | one stack info per instruction, in chain order |
| PlRuntime.Unwind | src/main/kotlin/vjson/pl/inst/Instruction.kt:24-34 | after unwinding through n nested instructions the trace has grown by exactly their n stack infos, innermost first |
| PlRuntime.Put | src/main/kotlin/vjson/pl/type/lang/IteratorType.kt:33-82 | only the register of the chosen kind changes; a reference register takes anything, the others only their kind |
| PlRuntime.ExecArrayLength | src/main/kotlin/vjson/pl/type/ArrayTypeInstance.kt:24-53 | the array's size goes into the int register only; an array of another kind is a cast failure that changes nothing |
| PlRuntime.ExecHasNext | src/main/kotlin/vjson/pl/type/lang/IteratorType.kt:26-32 | whether the host iterator has an element goes into the bool register only |
| PlRuntime.ExecNext | src/main/kotlin/vjson/pl/type/lang/IteratorType.kt:33-82 | the iterator moves one element on and the element goes to the register of the element kind only |
| PlRuntime.Bind | src/main/kotlin/vjson/pl/ast/FunctionInvocation.kt:95-106 | binding arguments never changes the new frame's cell counts, and binding none leaves everything as it was |
| PlRuntime.BindNext | src/main/kotlin/vjson/pl/ast/FunctionInvocation.kt:95-106 | one more argument never changes the new frame's cell counts, and after an argument has thrown nothing changes |
| PlRuntime.BindStep | src/main/kotlin/vjson/pl/ast/FunctionInvocation.kt:95-106 | one more argument runs on the caller's memory and the registers left so far; if it throws the new frame is as it was, otherwise its register of the parameter's slot kind is written to the parameter's cell |
| PlRuntime.BindStopsAfterThrow | src/main/kotlin/vjson/pl/ast/FunctionInvocation.kt:95-96 | once an argument has thrown, no later argument runs and nothing changes |
| PlRuntime.BindLeavesOthers | src/main/kotlin/vjson/pl/ast/FunctionInvocation.kt:97-105 | a cell no parameter is bound to keeps its initial value |
| PlRuntime.BindWritesLast | src/main/kotlin/vjson/pl/ast/FunctionInvocation.kt:97-105 | the last parameter's cell holds its argument's value |
| PlRuntime.BindOne | src/main/kotlin/vjson/pl/ast/FunctionInvocation.kt:96-105 | one pass of the loop changes the frame, the caller's memory and the registers as BindNext says |
| PlRuntime.BindArgs | src/main/kotlin/vjson/pl/ast/FunctionInvocation.kt:95-106 | the argument loop leaves the new frame, the caller's memory and the registers as Bind says, and returns the exception that ended it |
| PlRuntime.BuildContext | src/main/kotlin/vjson/pl/ast/FunctionInvocation.kt:85-109 | a fresh frame sized by the callee's total, parented to ctx and one level deeper, with cleared flags; the arguments run against callerCtx's memory and are bound in index order as Bind says, an argument's exception stopping the binding; ctx's memory, when it is not the caller's, is untouched |
| Interpreting.Layout | src/main/kotlin/vjson/pl/Interpreter.kt:28-32 | one offset and one type context per library laid out |
| Interpreting.LayoutChain | src/main/kotlin/vjson/pl/Interpreter.kt:28-32 | the first library starts at offset zero in the root context, and each next one at the offset and in the context the previous one left |
| Interpreting.InitValuesReadsListed | src/main/kotlin/vjson/pl/Interpreter.kt:55-58 | value initiation reads the values put only for the listed libraries |
| Interpreting.RunAll | src/main/kotlin/vjson/pl/inst/Instruction.kt:19-21 | a run that starts on a returning frame runs nothing |
| Interpreting.RunSkipsAfterReturn | src/main/kotlin/vjson/pl/inst/Instruction.kt:19-21 | once the root frame is returning, the remaining statements are skipped and the run ends in the state it reached |
| Interpreting.RunAbortsAt | src/main/kotlin/vjson/pl/Interpreter.kt:60-71 | once an instruction fails, the run ends with that failure |
| Interpreting.RunSucceeds | src/main/kotlin/vjson/pl/Interpreter.kt:60-71 | a run succeeds exactly when every instruction succeeded on what those before it left |
| Interpreting.Interpreter.constructor | src/main/kotlin/vjson/pl/Interpreter.kt:22-35 | the interpreter holds a layout and a check that are those of its libraries and program, and no values |
| Interpreting.Interpreter.Create | src/main/kotlin/vjson/pl/Interpreter.kt:27-35 | the libraries are laid out in order and the program is checked once in the context they left; a program that does not check gives its error |
| Interpreting.Interpreter.PutValues | src/main/kotlin/vjson/pl/Interpreter.kt:37-39 | sets the values for one library, leaving the others |
| Interpreting.Interpreter.RemoveValues | src/main/kotlin/vjson/pl/Interpreter.kt:41-43 | removes the values of one library, leaving the others |
| Interpreting.Interpreter.Instructions | src/main/kotlin/vjson/pl/Interpreter.kt:60-64 | one instruction per statement |
| Interpreting.Interpreter.InitiateValues | src/main/kotlin/vjson/pl/Interpreter.kt:55-58 | each library initiates its values in order, at its offset, with the values put for it or none |
| Interpreting.Interpreter.RunInstructions | src/main/kotlin/vjson/pl/Interpreter.kt:60-68 | the instructions run in order on the root frame and one value holder, both carried from statement to statement; the first failure ends the loop with its message |
| Interpreting.Interpreter.Execute | src/main/kotlin/vjson/pl/Interpreter.kt:53-71 | a root frame sized by the allocator total, not returning; the libraries' values, then the statements in order on a fresh value holder; the first failure ends the run with its message; otherwise the root memory |

## Left out

- `copy()` of every node, and `lineCol`: source positions are not modelled.
- All `toString` and pretty-print methods, including those of `StringDictionary` and the tokens.
- Listener callbacks of the parsers are no-ops. The Java-object mode (`buildJavaObject`) is not modelled.
- StringParsing.StringParser.Build and ObjectParsing.ObjectParser.Build: after a `ParseError` the model does not state the parser's fields; of the string parser it says only that, when the end of input is not required, it is neither done nor finished. The source leaves the fields as they were when it threw, for instance in state 3 with the bad hex digit already read (src/main/kotlin/vjson/parser/StringParser.kt:175-179); those fields are not stated.
- The thread-local parser caches and `buildFrom` (src/main/kotlin/vjson/parser/ParserUtils.kt:24-48, 103-230) are per-thread plumbing.
- The array, number, boolean and null parsers are not part of this model. The dispatch names the parser it would choose. Whether a text is read whole as a number, a boolean or null is the `Acceptors` parameter.
- ObjectParsing.ObjectParser: a value is read by a string sub-parser only. The source asks `getSubParser` for any kind of value, and that code is not part of this model.
- StringParsing.StringParser: the string-dictionary traveler the source may feed while reading is not modelled. The built text is the buffer.
- StringDictionaries: the trie arrays, their growth and the dummy arrays are abstracted to a map from a path of codes to a storage index. Concurrent updates are modelled only as HandleConcurrentRecord's sequential behaviour.
- Scriptify: the whitespace test of `String.trim`/`isBlank` is the parameter `ws`. `checkStringNoQuotesWithParser` and `scriptifyString` need the full parser and the JSON stringifier, so they are the parameter `parses`.
- Scriptify.ScriptifyContext.IncreaseIndent: the 32-bit overflow of `currentIndent` is not modelled; the indentation is unbounded.
- ObjectBuilding.ObjectBuilder.PutNullableInst: the model cannot show that the supplier is not invoked when `isNull` holds. It shows only that the supplied value is not stored.
- ObjectBuilding.ObjectBuilder.PutObject and PutArray take the already-filled builder or elements. The callback protocol is not modelled.
- `type(KClass)` (src/main/kotlin/vjson/util/ObjectBuilder.kt:107-109) needs reflection.
- ObjectBuilding.ObjectBuilder.Build: the result is the entry list as a value. The source wraps the builder's own list in a `SimpleObject`, which is not part of this model, so whether later `put` calls show through the built object is not modelled.
- Doubles and floats are opaque payloads (no IEEE arithmetic). This covers `put(key, Double)`, `NegativeFloat`/`NegativeDouble` and the float/double cells.
- `TypeContext` is a value (`Scope`) threaded through checking. The side effects lowering has on it are not modelled: the checking of the generated instance, variable and assignment nodes.
- PlAst.CheckStatements: `TypeContext.checkStatements` is not part of this model. It is modelled as a fold that checks each statement in the scope the previous one left and stops at the first error.
- PlAst.Env.counterAt: the type context's temporary counter, which the lowering of every JSON instance advances, is given per expression. How one instance's lowering moves the counter for the next is not modelled.
- JsonLowering.Generator: the counter of temporaries lives in the generator rather than in the shared `TypeContext`.
- PlAst.CheckEntries walks the parameters in constructor order. The source walks a `HashMap`, so when several values are faulty, which one is reported first may differ.
- Error messages are abbreviated. The printed form of a type (`$type`, `$inst`) is not reproduced.
- JsonLowering.ArrayLowering and JsonLowering.ElemsAssignInOrder: stated only for literals with no array directly inside the array. For that case the source (src/main/kotlin/vjson/pl/ast/NewInstanceWithJson.kt:142-148) builds the inner array into the enclosing temporary. NestedArrayLowering states what that produces.
- `buildFunctionInvocationInstruction` (src/main/kotlin/vjson/pl/ast/FunctionInvocation.kt:66-83) is not modelled: the `FunctionInstance` context-builder protocol and the run of a non-function target. Invocation is modelled by its lowering and by BuildContext.
- PlRuntime.BuildContext: an argument's instruction sees only the caller's own memory and the registers. Its effect on enclosing frames, on the caller's control flags and on host objects is not modelled.
- Interpreting.Interpreter.Execute: the `Execution` value holder is modelled by its registers only. Its other contents are the host's.
- The runtime behaviour of `ErrorHandlingInstruction`, `ThrowInst`, `NewInstance`, `VariableDefinition` and the `Negative*` instructions is not part of this model. Lowering names them; the interpreter runs instructions through the `Host.run` parameter.
- The host type libraries' `initiateType`/`initiateValues` and the memory allocator's total are parameters of `Host`.
- The host `Iterator` is a cursor over the elements it will yield. Its order is the host's.
- Coroutines (`executeBlock`, `runBlocking`, `suspend` fields) are ordinary sequential calls.

# Bytebeat synth: compiler, evaluator and render step

A Dafny model of the core of a realtime bytebeat synthesiser (`main.c`).
The program accepts a small JavaScript-flavoured formula in the time
variable `t` and five console-controlled macros. It normalises the text,
compiles it into an expression tree and evaluates that tree once per
audio sample. Each sample is reduced to a byte and then to 16-bit PCM.

The model follows the program's own structure:

- `Int32` holds the 32-bit integer semantics behind `to_i32`/`to_u32`:
  floor, then wrap. It also covers the shifts with a 5-bit distance and
  C's `%`, which truncates toward zero. The bitwise operators are defined bit by bit on the
  32-bit pattern, so their sign and bound facts are proved by induction.
- `Ast` and `Evaluator` hold the expression tree and `expr_eval`,
  `eval_var` and `fn_eval`. Values are reals.
  - `sin`, `cos`, `tan`, `sqrt` and `pow` are fields of a `Libm` record,
    so nothing is assumed about them.
  - `EvalFacts` proves the evaluator's guarantees: it is total, the
    guards give 0, logical results are 0 or 1, untaken branches are never
    read, and integer programs stay integral.
- `Lexical` holds the lexer.
  - `Lex` is a pure reference function.
  - The class `Lexer` has the `pos`/`tok`/`err` fields of the C struct.
    Its methods `SkipWhitespace`, `StartsWith` and `Next` are the C loops,
    each proved equal to the reference.
- `Grammar` is the parser's reference definition.
  - `Scan`/`Tokens` give the token stream the lexer produces.
  - There is one function per parse routine. The ten binary levels share
    one table-driven definition.
  - `Compile` is `compile_expr`.
- `Parsing` is the imperative recursive-descent parser. The class `Parser`
  advances the shared lexer, with one method per C function. Each method is
  proved to return what the grammar function returns, or to leave that
  function's message in the lexer's error buffer.
- `Printer` and `RoundTrip` give the compiler an inverse. Printing a tree
  and compiling the text gives the tree back, for every tree with natural
  literals and identifier call names.
- `Precedence` proves precedence and associativity for all operands, not
  just for sample sources. Whatever the printed operands are, two
  operators of one level group to the left, an operator of a tighter
  level groups first on either side, and `?:` groups to the right.
- `CompileFacts` holds concrete compilations:
  - precedence, associativity and parentheses;
  - trailing tokens, unknown names and a bad character.
- `Normalize` holds `str_trim_copy`, `extract_js_expr` and
  `transpile_js_to_c`. Each is an index loop proved equal to a reference
  function, and the reference functions carry their own properties.
- `Synth` holds the rest:
  - the preset table and the `pn`/`pp`/`tm` arithmetic;
  - the tempo/pitch smoothing and the per-sample context;
  - the byte/float/int16 quantisation;
  - the class `Synth`: `SetExpr`, `SetPreset`, and `FillBuffer`, which
    writes a 512-frame PCM array through `NextSample`. Its contents are
    proved equal to the `Render` function.

Two behaviours of the code that are easy to miss:

- An unrecognised character makes the lexer report end of input. So a bad
  character after a complete expression (`1 $`) is accepted, and the
  "Unexpected character" message never reaches the caller: a bad character
  inside an expression ends as "Expected expression". See
  `CompileFacts.TrailingBadCharacterAccepted`,
  `CompileFacts.BadCharacterInsideRejected` and the `Grammar.Compile` error
  contract.
- With no program installed the evaluator's value is 0.0. Its byte is 0,
  which quantises to the constant -19660 rather than to 0. See
  `Synth.RenderWithoutProgram` and `Synth.QuantizeZero`.

## Model

| member | source | states |
|---|---|---|
| Int32.ToI32 | main.c:236 | the result is a signed 32-bit value congruent to floor(v) modulo 2^32 (floor, then wrap) |
| Int32.ToU32 | main.c:237 | the result is an unsigned 32-bit value congruent to floor(v) modulo 2^32 |
| Int32.WrapUnique | main.c:236 | the wrapped value is the only signed 32-bit value congruent to its input |
| Int32.WrapIdentity | main.c:236 | a value already in signed 32-bit range is unchanged by wrapping |
| Int32.ShiftCount | main.c:346-350 | the shift distance `to_i32(b) & 31` is below 32 |
| Int32.Shl | main.c:346 | a left shift by k is a 32-bit value congruent to x·2^k |
| Int32.Shr | main.c:348 | an arithmetic right shift by k is the floor of x / 2^k |
| Int32.UShr | main.c:350 | a logical right shift by k is the floor of the unsigned value / 2^k |
| Int32.Rem | main.c:325 | C's `%`: the remainder has the dividend's sign, is smaller than the divisor in magnitude, and differs from the dividend by a multiple of it |
| Int32.UnsignedPattern | main.c:237 | the 32-bit pattern of an int32: the value itself when non-negative, the value plus 2^32 otherwise; its top bit is the sign |
| Int32.BitwiseBound | main.c:339-344 | a bitwise operator applied bit by bit to n bits gives an n-bit result |
| Int32.SignBit | main.c:339-344 | on int32 operands the result is an int32 whose sign bit is the operator applied to the operands' signs |
| Int32.AndFacts | main.c:339-340 | `x & y` is negative exactly when both are, and lies in [0, x] (resp. [0, y]) when x (resp. y) is non-negative |
| Int32.OrFacts | main.c:341-342 | `x \| y` is negative exactly when either is; with both non-negative it is at least each of them |
| Int32.XorFacts | main.c:343-344 | `x ^ y` is negative exactly when one of them is; `x ^ x` is 0 |
| Int32.Not | main.c:295-296 | the complement -x - 1 of an int32 is an int32 |
| Int32.NotInvertsBits | main.c:295-296 | `~x` computed as -x - 1 equals x xor the all-ones pattern, so it inverts every bit |
| Int32.ShiftCountIsMask | main.c:345-350 | the shift distance `to_i32(b) & 31` is the residue of `to_i32(b)` modulo 32 |
| Evaluator.FnEval | main.c:239-252 | an unknown name or a wrong arity gives 0; `abs` is never negative; `clamp` with ordered bounds lies between them |
| Evaluator.EvalArgs | main.c:359-362 | exactly min(argc, 8) argument values are computed |
| EvalFacts.ToI32Examples | main.c:236 | 5.9 → 5, -5.1 → -6, 2^31 → -2^31, 2^32+7.5 → 7 |
| EvalFacts.MaskBoundsResult | main.c:339-340 | `e & mask` with a non-negative integral mask lies in [0, mask] whatever e evaluates to |
| EvalFacts.BitNotOfZero | main.c:295-296 | `~0` evaluates to -1 |
| EvalFacts.ShiftDistanceMod32 | main.c:345-350 | for all three shifts, a distance of k+32 acts as a distance of k |
| EvalFacts.OneShiftedByOne | main.c:346 | `1<<1` evaluates to 2 |
| EvalFacts.OneShiftedBy33 | main.c:346 | `1<<33` evaluates to 2, the same as `1<<1` |
| EvalFacts.DivisionGuard | main.c:321-322 | `/` gives 0 when the divisor's magnitude is below 1e-12, and the quotient otherwise |
| EvalFacts.DivideGuarded | main.c:321-322 | on values, the guarded quotient is 0 below the guard and otherwise multiplies back by the divisor to the dividend |
| EvalFacts.ModuloSemantics | main.c:323-326 | `%` gives 0 when the truncated divisor is 0, and otherwise C's remainder `Rem` of the truncated operands |
| EvalFacts.RemainderGuarded | main.c:323-326 | on values, the guarded remainder is 0 for a zero divisor, and otherwise an integer with the dividend's sign, smaller in magnitude than the divisor, differing from the truncated dividend by a multiple of it |
| EvalFacts.LogicalIsZeroOrOne | main.c:298 | `!`, `&&`, `\|\|` and the comparisons always give exactly 0 or 1 |
| EvalFacts.AndIgnoresRightWhenLeftFalse | main.c:304-307 | when the left operand of `&&` is 0 the result is 0 whatever the right operand is |
| EvalFacts.OrIgnoresRightWhenLeftTrue | main.c:308-311 | when the left operand of `\|\|` is non-zero the result is 1 whatever the right operand is |
| EvalFacts.TernaryIgnoresUntakenBranch | main.c:355-357 | the ternary's value does not depend on the branch it does not select |
| EvalFacts.GuardedExamples | main.c:304-326 | `1/0`, `0 && 1/0`, `7 % 0.5` and `0 % 3` all evaluate to 0 |
| EvalFacts.UnknownCallIsZero | main.c:251 | a call that names no built-in of its arity evaluates to 0 |
| EvalFacts.EvalArgsPrefix | main.c:359-362 | only the first `limit` arguments are ever evaluated |
| EvalFacts.ArgsAfterEighthIgnored | main.c:359-363 | a call with more than 8 arguments equals the call cut to 8 arguments, and gives 0 |
| EvalFacts.EvalReadsOnlyFreeVars | main.c:264-282 | two contexts that agree on the variables a tree mentions give the same value |
| EvalFacts.BinaryKeepsInts | main.c:314-350 | every binary operator other than `/` maps integers to integers |
| EvalFacts.IntegerProgramsStayIntegral | main.c:284-367 | a program with integer literals and no `/`, evaluated in an integer context, gives an integer |
| Lexical.SpaceEnd | main.c:369-371 | the first non-space position at or after i: everything skipped is space |
| Lexical.Lexer.constructor | main.c:1030-1032 | a fresh lexer is at position 0 of its source, with an empty error buffer |
| Lexical.Lexer.SkipWhitespace | main.c:369-371 | the loop leaves `pos` at `SpaceEnd` of where it started |
| Lexical.Lexer.StartsWith | main.c:373-380 | the character loop answers exactly whether the text occurs at `pos` |
| Lexical.Lexer.Next | main.c:382-517 | the new token and position are those of `Lex`, and the error buffer is set exactly when a character is unrecognised |
| Lexical.Lex | main.c:382-517 | the lexer either advances or sits at end of input with `TOK_EOF`; a clean `TOK_EOF` means only spaces remain; an unrecognised character gives `TOK_EOF` |
| Lexical.ScanNumber | main.c:394-399 | a number literal consumes at least one character and is non-negative |
| Lexical.MultiCharOperator | main.c:413-457 | a multi-character operator is two or three characters long and lies inside the source |
| Lexical.LongestFirst | main.c:413-457 | operators are tried longest first: `>>>`, then `<<`, `>>`, `<=`, `>=`, `==`, `!=`, `&&`, `\|\|` |
| Lexical.LexOperator | main.c:413-516 | at an operator character the token is the multi-character operator if one starts there, else the single character, else an error |
| Lexical.LexSpelling | main.c:382-517 | every fixed token's spelling lexes back to that token when nothing glues to it |
| Lexical.LexMulti | main.c:413-457 | the characters of a multi-character operator are read as that operator |
| Lexical.LexSingle | main.c:460-516 | a single-character token not followed by a gluing character is read alone |
| Lexical.StartsAtChars | main.c:373-380 | text occurs at i exactly when each of its characters matches |
| Lexical.LexNatString | main.c:394-399 | the decimal digits of a natural number lex back to that number |
| Lexical.LexName | main.c:402-411 | an identifier lexes as the whole run of identifier characters |
| Grammar.Scan | main.c:1033 | the token stream the lexer produces ends with `TOK_EOF` |
| Grammar.VarOf | main.c:529-559 | a name is a variable exactly when it is one of t, a, b, c, d, sh, mask |
| Grammar.BinOpOf | main.c:677-924 | only non-end tokens are binary operators, and only at levels 1..10 |
| Grammar.PExpr | main.c:961 | on success at least one token is consumed; on failure the message is one of the parser's |
| Grammar.PCond | main.c:926-959 | on success at least one token is consumed; on failure the message is one of the parser's |
| Grammar.PLevel | main.c:677-924 | on success at least one token is consumed; on failure the message is one of the parser's |
| Grammar.PLevelRest | main.c:679-698 | the operator loop stops inside the stream or fails with a parser message |
| Grammar.PUnary | main.c:637-675 | on success at least one token is consumed; on failure the message is one of the parser's |
| Grammar.PPrimary | main.c:561-635 | on success at least one token is consumed; on failure the message is one of the parser's |
| Grammar.PArgs | main.c:585-605 | the argument loop returns at least one argument and stops inside the stream, or fails with a parser message |
| Grammar.Compile | main.c:1029-1047 | compilation fails only with a parser message or "Unexpected trailing tokens", never with the lexer's message |
| Parsing.Parser.constructor | main.c:1030-1033 | a parser starts at the first token of its lexer's stream |
| Parsing.Parser.Advance | main.c:521-527 | one `lexer_next` moves the parser to the next token of the stream |
| Parsing.Parser.Consume | main.c:521-527 | `consume` advances exactly when the current token is the expected one |
| Parsing.Parser.ParseExpr | main.c:961 | `parse_expr` returns the tree and position `PExpr` gives, or leaves its message in the error buffer |
| Parsing.Parser.ParseCond | main.c:926-959 | `parse_cond` agrees with `PCond` |
| Parsing.Parser.ParseLevel | main.c:677-924 | each of the ten binary levels agrees with `PLevel` |
| Parsing.Parser.ParseUnary | main.c:637-675 | `parse_unary` agrees with `PUnary` |
| Parsing.Parser.ConsumeUnaryOp | main.c:638-662 | the three `consume` calls read one token exactly when it is `-`, `~` or `!`, and report which prefix operator it is |
| Parsing.Parser.ParsePrimary | main.c:561-635 | `parse_primary` agrees with `PPrimary` |
| Parsing.Parser.ParseName | main.c:570-619 | the name branch of `parse_primary` agrees with `PPrimary` |
| Parsing.Parser.ParseArgs | main.c:585-605 | the argument loop agrees with `PArgs` |
| Parsing.CompileExpr | main.c:1029-1047 | `compile_expr` returns what `Compile` gives: the tree, the parser's message or "Parse error", or "Unexpected trailing tokens" |
| Printer.VarNameReads | main.c:529-559 | every variable's name is read back as that variable |
| Printer.UnTokenReads | main.c:637-675 | every unary operator's token is read back as that operator |
| Printer.BinTokenReads | main.c:677-924 | every binary operator's token is read back as that operator at its level |
| Printer.OnlyAtLevel | main.c:677-924 | each binary operator belongs to exactly one precedence level |
| RoundTrip.ScanSpell | main.c:382-517 | lexing the spelling of any non-empty run of spellable tokens gives back those tokens followed by `TOK_EOF` |
| RoundTrip.ScanPrint | main.c:382-517 | lexing a printed tree gives back the printed tokens followed by `TOK_EOF` |
| RoundTrip.ParseTokenize | main.c:561-961 | the tokens of a tree parse back to the tree, consuming all of them |
| RoundTrip.CompilePrint | main.c:1029-1047 | compiling a printed tree gives the tree back |
| Precedence.CompileTokens | main.c:1029-1047 | spelt tokens whose parse consumes the whole stream compile to that parse |
| Precedence.ParseSameLevel | main.c:677-924 | for any operands occupying the stream, `x o1 y o2 z` with both operators at one level parses as `(x o1 y) o2 z` |
| Precedence.ParseTighterRight | main.c:677-924 | for any operands, `x lo y hi z` with `hi` at a tighter level parses as `x lo (y hi z)` |
| Precedence.ParseTighterLeft | main.c:677-924 | for any operands, `x hi y lo z` with `hi` at a tighter level parses as `(x hi y) lo z` |
| Precedence.ChoiceParses | main.c:926-959 | the tokens of any `c1 ? y1 : c2 ? y2 : z` parse as `c1 ? y1 : (c2 ? y2 : z)` |
| Precedence.SameLevelGroupsLeft | main.c:677-924 | for all printed operands, two operators of one level group to the left: the text compiles to `(x o1 y) o2 z` |
| Precedence.TighterGroupsFirstOnRight | main.c:677-924 | for all printed operands, a tighter operator on the right groups first: `x lo y hi z` compiles to `x lo (y hi z)` |
| Precedence.TighterGroupsFirstOnLeft | main.c:677-924 | for all printed operands, a tighter operator on the left groups first: `x hi y lo z` compiles to `(x hi y) lo z` |
| Precedence.ChoiceGroupsRight | main.c:926-959 | for all printed operands, `?:` groups to the right: `c1 ? y1 : c2 ? y2 : z` compiles to `c1 ? y1 : (c2 ? y2 : z)` |
| CompileFacts.LevelPasses | main.c:677-924 | a level whose loop finds none of its operators returns the operand one level down unchanged |
| CompileFacts.LevelFailsUp | main.c:677-924 | a failure at a low level is the failure of every level above it |
| CompileFacts.TokensOfTrailingDollar | main.c:512-515 | `1 $` lexes as the number 1 followed by `TOK_EOF` |
| CompileFacts.TokensOfDanglingPlus | main.c:512-515 | `1 + $` lexes as 1, `+`, `TOK_EOF` |
| CompileFacts.TokensOfTwoNumbers | main.c:394-399 | `1 2` lexes as two numbers |
| CompileFacts.TokensOfSum | main.c:382-517 | `1+2*3` lexes as five tokens |
| CompileFacts.TokensOfChoice | main.c:382-517 | `0?2:3` lexes as five tokens |
| CompileFacts.TokensOfParens | main.c:382-517 | `(1+2)*3` lexes as seven tokens |
| CompileFacts.TokensOfDifference | main.c:382-517 | `8-4-2` lexes as five tokens |
| CompileFacts.TokensOfUnknownName | main.c:402-411 | `x` lexes as one identifier |
| CompileFacts.ParseDanglingPlus | main.c:633 | a missing right operand fails with "Expected expression" |
| CompileFacts.ParseSum | main.c:677-726 | `1+2*3` parses as `1+(2*3)` |
| CompileFacts.ParseChoice | main.c:926-959 | `0?2:3` parses as a ternary |
| CompileFacts.ParseParens | main.c:625-633 | `(1+2)*3` parses as the product of the parenthesised sum and 3 |
| CompileFacts.ParseDifference | main.c:702-725 | `8-4-2` parses as `(8-4)-2`: binary levels are left-associative |
| CompileFacts.ParseNestedChoice | main.c:926-959 | `1?2:0?3:4` parses as `1?2:(0?3:4)`: the ternary is right-associative |
| CompileFacts.ParseTwoNumbers | main.c:561-567 | in `1 2` the expression ends after the first number |
| CompileFacts.ParseUnknownName | main.c:617-618 | a lone unknown name fails with "Unknown identifier" |
| CompileFacts.TrailingBadCharacterAccepted | main.c:512-515 | `1 $` compiles to the number 1 |
| CompileFacts.BadCharacterInsideRejected | main.c:633 | `1 + $` is rejected with "Expected expression" |
| CompileFacts.ProductBindsTighter | main.c:677-726 | `1+2*3` compiles to `1+(2*3)` |
| CompileFacts.SumValue | main.c:315-320 | `1+(2*3)` evaluates to 7 |
| CompileFacts.ChoiceCompiles | main.c:926-959 | `0?2:3` compiles to a ternary |
| CompileFacts.ChoiceValue | main.c:355-357 | `0?2:3` evaluates to 3 |
| CompileFacts.ParenthesesGroup | main.c:625-633 | `(1+2)*3` compiles to the product of the sum and 3 |
| CompileFacts.ParensValue | main.c:315-320 | `(1+2)*3` evaluates to 9 |
| CompileFacts.SubtractionGroupsLeft | main.c:702-725 | `8-4-2` compiles to `(8-4)-2` |
| CompileFacts.DifferenceValue | main.c:317-318 | `(8-4)-2` evaluates to 2 |
| CompileFacts.TrailingTokensRejected | main.c:1040-1043 | `1 2` is rejected with "Unexpected trailing tokens" |
| CompileFacts.UnknownNameRejected | main.c:617-618 | `x` is rejected with "Unknown identifier 'x'" |
| Normalize.TrimSlice | main.c:963-972 | the trimmed text is a slice with only spaces outside it and no space at either end |
| Normalize.TrimKeeps | main.c:963-972 | text with no space at either end is its own trim |
| Normalize.TrimIdempotent | main.c:963-972 | trimming twice equals trimming once |
| Normalize.TrimCopy | main.c:963-972 | the two index loops of `str_trim_copy` produce `Trim` |
| Normalize.Find | main.c:975 | the first occurrence at or after a position, or none anywhere after it (`strstr`, `strchr`) |
| Normalize.ExtractJsExpr | main.c:974-991 | the loops of `extract_js_expr` produce `ExtractJs` |
| Normalize.ExtractAfterReturn | main.c:975-989 | after a `return`, the expression is a slice after the keyword that holds no `;` |
| Normalize.ExtractWithoutReturn | main.c:990 | without a `return` the expression is the whole input, trimmed |
| Normalize.ExtractTrimmed | main.c:986-990 | the extracted expression never starts or ends with white space |
| Normalize.StripFromShorter | main.c:1004-1023 | deleting `Math.` never lengthens the text |
| Normalize.StripFromChars | main.c:1004-1023 | every character kept comes from the input |
| Normalize.StripFromKeeps | main.c:1004-1023 | text with no `Math.` is copied unchanged |
| Normalize.StripMathSkips | main.c:1006-1009 | a `Math.` contributes nothing to the output |
| Normalize.StripMathFacts | main.c:1004-1023 | the whole-text forms: shorter, only input characters, unchanged without `Math.` |
| Normalize.StripMathExample | main.c:1006-1009 | `Math.sin(t)` becomes `sin(t)` |
| Normalize.StripPair | main.c:1010-1021 | copying `\|\|` or `&&` as a pair is the same as copying them one by one |
| Normalize.TranspileJsToC | main.c:993-1027 | the copy loop of `transpile_js_to_c` produces `JsToC`: the extracted expression with every `Math.` deleted |
| Normalize.JsToCShrinks | main.c:993-1027 | the text handed to the compiler is never longer than the snippet |
| Synth.NextPreset | main.c:1277-1281 | `pn` selects an index in range, counting from the first preset when none is selected |
| Synth.PrevPreset | main.c:1282-1286 | `pp` selects an index in range |
| Synth.PresetStepsInverse | main.c:1277-1286 | `pp` undoes `pn` and `pn` undoes `pp` |
| Synth.PresetStepsWrap | main.c:1277-1286 | `pn` wraps from the last preset to the first, `pp` from the first to the last; with none selected they give 1 and the last |
| Synth.PresetStepsAccepted | main.c:1202-1206 | the indices `pn` and `pp` compute always pass `set_preset`'s range check |
| Synth.ClampTempo | main.c:1292-1296 | the `tm` target lies in [0.05, 8], is the request when that is in range and the nearer bound otherwise |
| Synth.Smooth | main.c:1069-1073 | a smoothed value never falls below its floor |
| Synth.SmoothApproaches | main.c:1069-1070 | above the floor, smoothing moves towards the target without overshooting and scales the gap by 1 − 0.0008 |
| Synth.SmoothSettled | main.c:1069-1073 | a value already at its target stays there |
| Synth.Tick | main.c:1069-1075 | after a sample, tempo ≥ 0.05, pitch ≥ 0.125 and the timeline has advanced by at least 0.05 |
| Synth.RoundHalfUp | main.c:1083-1084 | `floor(x+0.5)` is an integer within half of x |
| Synth.ContextOf | main.c:1076-1084 | `t` is the floor of timeline·pitch, the macros are copied, `sh` and `mask` are rounded half up |
| Synth.BytebeatToFloat | main.c:1049-1052 | the float lies in [-1, 1) and is the low byte of `to_i32(v)` mapped linearly |
| Synth.LowByteOfFloor | main.c:1050 | the low byte of `to_i32(v)` is floor(v) modulo 256 |
| Synth.BytebeatPeriodic | main.c:1049-1052 | adding a multiple of 256 to the value leaves the float unchanged |
| Synth.TruncToInt | main.c:1088 | the int16 cast truncates toward zero |
| Synth.ClampToInt16 | main.c:1088 | the clamp result is in [-32768, 32767] |
| Synth.Quantize | main.c:1086-1088 | every quantised sample is in [-32768, 32767] |
| Synth.QuantizeRange | main.c:1087-1088 | every sample is in [-19660, 19506], the truncation of (byte − 128) · 0.6 · 32767 / 128 |
| Synth.QuantizeSilence | main.c:1087-1088 | a value whose byte is 128 gives the sample 0 |
| Synth.QuantizeZero | main.c:1086-1088 | the value 0 gives the sample -19660 |
| Synth.Render | main.c:1060-1090 | one buffer of n samples has length n |
| Synth.RenderAt | main.c:1060-1090 | sample i of a buffer is the quantised value at the state after i+1 steps |
| Synth.RenderInRange | main.c:1087-1089 | every sample written lies in [-19660, 19506] |
| Synth.RenderWithoutProgram | main.c:1086 | with no program installed every sample is -19660 |
| Synth.RunAdvances | main.c:1072-1075 | after n samples the timeline has advanced by at least 0.05·n and the floors hold |
| Synth.TimelineIncreases | main.c:1075 | the timeline strictly increases from sample to sample |
| Synth.Synth.constructor | main.c:1219-1235 | the initial targets, macros, smoothed values, timeline, preset index and empty program |
| Synth.Synth.SetExpr | main.c:1168-1192 | succeeds exactly when the transpiled text compiles; on success the program is the compiled tree, otherwise the old program stays; nothing else changes |
| Synth.Synth.SetPreset | main.c:1202-1211 | an index out of range changes nothing; otherwise the preset's program is installed and the index recorded only if it compiles |
| Synth.Synth.NextSample | main.c:1061-1089 | one step smooths, floors and advances the state as `Tick` does and returns `SampleAt` of the new state |
| Synth.Synth.FillBuffer | main.c:1059-1090 | the 512 samples written are `Render` of the old state, and the new state is 512 steps on |

## Left out

- Audio output is not modelled: the audio queue, its callback, start and stop, and buffer byte sizes are OS I/O.
- The mutex, the atomic fields, the SIGINT handler and the `running` flag are not modelled. Every operation is one sequential state update.
- Synth.Synth.FillBuffer: reads the controls once per buffer rather than once per sample, because without concurrency nothing can change them during a buffer.
- The console loop, help and preset listing are not modelled, nor the `eq` command setting the preset index to -1. The preset index can still be -1, and `NextPreset`/`PrevPreset` handle that case.
- Floating point is modelled as exact reals, so these are not captured:
  - rounding, NaN and infinities;
  - `llround` out of range;
  - the float rounding in `bytebeat_to_float` and the int16 conversion.
- `sin`, `cos`, `tan`, `sqrt` and `pow` are uninterpreted fields of `Libm`. Only `abs`, `floor`, `ceil`, `min`, `max` and `clamp` are computed.
- Lexical.ScanNumber: reads decimal digits with an optional fraction. `strtod`'s exponents, hexadecimal, infinities and NaN are not modelled.
- Allocation failures and freeing are not modelled. As a result `transpile_js_to_c` and the parser never fail for lack of memory.
- Identifier truncation to 63 characters and call-name truncation to 15 are not modelled. Names are kept whole.
- Strings are sequences of characters without a terminating NUL. Input containing a NUL character is not modelled.
- RoundTrip.CompilePrint: covers trees whose literals are naturals and whose call names are identifiers. Fractions are printed by no printer here, and a call name that is not an identifier cannot come out of the parser.
- Int32.Shl, Int32.Shr, Int32.Rem: C leaves some cases undefined or implementation-defined, and the model fixes one outcome for each. `to_i32(a) << k` with a negative `a` or an overflowing result (main.c:346) wraps in two's complement. `>>` of a negative int32 (main.c:348) is an arithmetic shift that rounds down. `INT_MIN % -1` (main.c:325) gives 0.
- Whether each of the 30 built-in presets compiles is not proved. `SetPreset` handles both outcomes.

# Per-line TypeScript/JavaScript tokenizer of the tsb editor, in Dafny

This project models `src/app/monaco/languages/typescript/tokenization.ts` of basarat/tsb. That file is the Monaco syntax-highlighting tokenizer for TypeScript and JavaScript. The editor calls `tokenize` once per line, with the state the previous line ended in. `tokenize` returns the line's tokens (a start column and a scope string each) and a new state. The file has three parts, and the model follows them module by module.

- **`TokenizerState`** (`state.dfy`): the six-field `State` class.
  - Its constructor copies a configuration.
  - `Clone` makes a fresh, equal copy.
  - `Equals` compares every field except the dialect. It also takes the identity shortcut and rejects anything that is not a `State` object.
- **The lexical path** (`tokenization.dfy`), used for a non-TypeScript state:
  - `Append` is `appendFn`, the coalescing push.
  - `CheckSheBang` is the `#!` short-circuit.
  - `Fold`/`FoldEntries` is the loop over the lexical classifier's entries, as a function.
  - `Tokenize` and `AppendEntries` are the imperative body. It builds the end state first, updates its lexical fields in place, and runs the loop with a running offset. The line-level function `TokenizeLine` specifies both.
- **The program-aware path** (`program_aware.dfy`), used for a TypeScript state:
  - `GetStyleForToken` is the `switch` of `getStyleForToken`, including:
    - the keyword sub-table;
    - `this` giving `number`;
    - the `let`/`const`/`var` look-behind giving `def`.
  - `TokenizeTs` is the loop of `tokenizeTs`. It appends one `.ts` token per classified span.
- **The style tables** (`style_tables.dfy`): the four constant tables, as map literals.
- **The dispatcher** (`dispatch.dfy`): `createTokenizationSupport` as the class `TokenizationSupport`.
  - Its constructor picks the tables of its dialect.
  - `GetInitialState` and `Tokenize` follow the returned provider.
  - `TokenizeLines` is the editor's line-after-line use of a support.
- **Helpers:**
  - `js_text.dfy` holds the JavaScript string operations the code uses: `substr`, `indexOf`, `trim`, `endsWith`, and its two regular-expression tests.
  - `classification.dfy` holds the shared types: `TokenClass`, `EndOfLineState`, `ClassificationType` and the classifier result records.
  - `line_properties.dfy` states what one `tokenize` call promises.

The two classifiers are parameters, because their internals are not part of this model:
- The lexical classifier (`ts.createClassifier().getClassificationsForLine`) is a function from a line and an end-of-line mode to entries (length, token class) and a final mode.
- The program-aware classifier (`classifierCache.getClassificationsForLine`) is a function from file path, offset and line to classified spans.

The model reproduces these behaviours of the code, some of which a reader might not expect:
- **Comment rule:** a comment entry reads the doc-comment flag of the *new* end state, not that of the previous line. The line that closes a doc comment therefore gets `comment.js` (`JsDocClosingLine`).
- **Comment suffix:** comment scopes always end in `.js`, even in a tokenizer created for TypeScript. The lexical loop only runs when the state is not TypeScript, so `isTypeScript` is false there.
- **Shebang:** the check does not look at the line number. Any line starting with `#!` is a shebang line.
- **Null style:** a span with no style gives the scope `null.ts` and is not dropped (`TsPathWhitespaceIsNull`).
- **No coalescing on the TypeScript path:** it never merges tokens: there is one token per span (`TsPathTokenAt`), and `TsPathDoesNotCoalesce` gives an example.
- **Whitespace on the lexical path:** a whitespace entry is appended with the empty scope. It is not skipped.
- **Dispatch:** `tokenize` dispatches on the state's dialect. The tables come from the dialect the support was created with.

The JavaScript `||` fallbacks are modelled as written:
- A missing or empty bracket scope falls back to the punctuation scope.
- A missing class scope becomes `""`.

The two regular expressions are modelled exactly: `.` matches anything but a line terminator, and `$` is the end of the text. `OpensToEndOnPlainText` and `BlockOnPlainText` show what they reduce to on a line without line terminators: `/**` occurs, or `/**` occurs followed later by `*/`.

## Model

| member | source | states |
|---|---|---|
| TokenizerState.State.constructor | src/app/monaco/languages/typescript/tokenization.ts:53-60 | the new state's six fields are exactly the configuration's |
| TokenizerState.State.Clone | src/app/monaco/languages/typescript/tokenization.ts:62-64 | a fresh object with all six fields copied, which `Equals` accepts |
| TokenizerState.State.Equals | src/app/monaco/languages/typescript/tokenization.ts:66-79 | true iff the argument is a `State` whose eolState, inJsDocComment, filePath, lineNumber and lineStartIndex match; false for anything else; the identity shortcut agrees with this, so it is reflexive |
| TokenizerState.SameStateIgnoresOnlyLanguage | src/app/monaco/languages/typescript/tokenization.ts:70-78 | two states compare equal iff they are equal once the dialect is set aside |
| TokenizerState.SameStateIsEquivalence | src/app/monaco/languages/typescript/tokenization.ts:70-78 | the comparison is reflexive, symmetric and transitive |
| StyleTables.BracketTypeTableShape | src/app/monaco/languages/typescript/tokenization.ts:156-179 | both bracket tables map exactly `( ) { } [ ]`, each to `delimiter.` + parenthesis/bracket/array + the dialect suffix |
| StyleTables.TokenTypeTableShape | src/app/monaco/languages/typescript/tokenization.ts:164-188 | both token tables map every class except Comment and Whitespace, each to its stem + the dialect suffix |
| StyleTables.TableScopesCarrySuffix | src/app/monaco/languages/typescript/tokenization.ts:156-188 | every scope in a dialect's tables ends with that dialect's suffix |
| JsText.Substr | src/app/monaco/languages/typescript/tokenization.ts:135 | `substr` clamps to the string and yields its characters from the start on |
| JsText.IndexOf | src/app/monaco/languages/typescript/tokenization.ts:192 | the first occurrence of the pattern, or -1 when there is none |
| JsText.TrimEnd | src/app/monaco/languages/typescript/tokenization.ts:267 | a prefix whose last character is not whitespace and after which only whitespace was dropped |
| JsText.TrimStart | src/app/monaco/languages/typescript/tokenization.ts:267 | a suffix whose first character is not whitespace and before which only whitespace was dropped |
| JsText.EndsWithAfterTrim | src/app/monaco/languages/typescript/tokenization.ts:267-270 | for a word without whitespace, the trimmed text ends with it iff the text with only its end trimmed does |
| JsText.OpensToEndOnPlainText | src/app/monaco/languages/typescript/tokenization.ts:121 | on a line without line terminators the opening doc-comment test is plain occurrence of `/**` |
| JsText.BlockOnPlainText | src/app/monaco/languages/typescript/tokenization.ts:135 | on text without line terminators the one-entry doc-comment test is `/**` followed, without overlap, by `*/` |
| Tokenization.AppendShape | src/app/monaco/languages/typescript/tokenization.ts:98-105 | `appendFn` grows the list only at its end, by at most the appended token; it grows iff the list was empty or ended in another scope; the last scope is afterwards the appended one |
| Tokenization.AppendCoalesced | src/app/monaco/languages/typescript/tokenization.ts:98-105 | appending keeps a list free of consecutive equal scopes |
| Tokenization.AppendStarts | src/app/monaco/languages/typescript/tokenization.ts:98-105 | appending at or after every start keeps the starts non-decreasing, and strictly increasing when all starts are earlier |
| Tokenization.AppendScopeAt | src/app/monaco/languages/typescript/tokenization.ts:98-105 | appending at column o leaves the scope of every earlier column unchanged and gives every column from o on the appended scope |
| Tokenization.CheckSheBang | src/app/monaco/languages/typescript/tokenization.ts:191-196 | reports true iff the line's first two characters are `#!`, and then appends the shebang token at the given offset; otherwise leaves the tokens alone |
| Tokenization.FoldCoalesced | src/app/monaco/languages/typescript/tokenization.ts:123-147 | the entry loop never emits two consecutive tokens with the same scope |
| Tokenization.FoldStartsBounded | src/app/monaco/languages/typescript/tokenization.ts:123-147 | no token of the loop starts after the next entry's offset |
| Tokenization.FoldStartsNonDecreasing | src/app/monaco/languages/typescript/tokenization.ts:123-147 | the loop's token starts are non-decreasing |
| Tokenization.FoldStartsIncreasing | src/app/monaco/languages/typescript/tokenization.ts:123-147 | with every entry of positive length, the loop's token starts strictly increase |
| Tokenization.FoldExtends | src/app/monaco/languages/typescript/tokenization.ts:123-147 | the loop past entry j only adds tokens that start at or after entry j's offset |
| Tokenization.FoldKeepsEarlierScopes | src/app/monaco/languages/typescript/tokenization.ts:123-147 | the loop past entry j leaves the scope of every column before entry j unchanged |
| Tokenization.FoldScopeAt | src/app/monaco/languages/typescript/tokenization.ts:123-147 | every column covered by entry i shows the scope of entry i at its offset: coalescing loses no scope |
| Tokenization.FoldScopesSatisfy | src/app/monaco/languages/typescript/tokenization.ts:123-147 | every scope the loop emits has any property that all entry scopes and all earlier tokens have |
| Tokenization.EntryOffsetMonotone | src/app/monaco/languages/typescript/tokenization.ts:146 | an entry never starts before an earlier entry |
| Tokenization.AppendEntries | src/app/monaco/languages/typescript/tokenization.ts:123-147 | the loop, with its running offset and in-line scope choices, yields exactly the fold of the entries from the given tokens |
| Tokenization.Tokenize | src/app/monaco/languages/typescript/tokenization.ts:82-150 | returns a fresh end state, and the tokens and the end state's fields are exactly those `TokenizeLine` gives for the state's fields |
| ProgramAware.NullStyleCodes | src/app/monaco/languages/typescript/tokenization.ts:307-309 | the style is `null` exactly for whitespace and the classification codes the switch does not list |
| ProgramAware.KeywordStyles | src/app/monaco/languages/typescript/tokenization.ts:234-264 | `variable-2` iff a type-name code or a primitive-type keyword; `qualifier` iff a listed declaration or accessibility keyword; `number` iff the keyword `this`; `keyword` iff any other keyword |
| ProgramAware.IdentifierStyles | src/app/monaco/languages/typescript/tokenization.ts:266-286 | an identifier is `def` iff the trimmed text before it ends with `let`, `const` or `var`, and `variable` otherwise |
| ProgramAware.PunctuationStyles | src/app/monaco/languages/typescript/tokenization.ts:289-298 | punctuation is `delimiter.bracket` iff `{` or `}`, `delimiter.parenthesis` iff `(` or `)`, and `bracket` otherwise |
| ProgramAware.LookBehindIsTrailing | src/app/monaco/languages/typescript/tokenization.ts:267-270 | the look-behind depends only on the end of the text before the token: trimming its start never matters |
| ProgramAware.TsScope | src/app/monaco/languages/typescript/tokenization.ts:209 | the scope ends with `.ts` and begins with the style's name when there is one |
| ProgramAware.TsTokens | src/app/monaco/languages/typescript/tokenization.ts:205-212 | one token per span |
| ProgramAware.TsTokenAt | src/app/monaco/languages/typescript/tokenization.ts:205-212 | token i starts at the total text length of spans 0..i-1 and carries span i's style at that column with `.ts` |
| ProgramAware.TokenizeTs | src/app/monaco/languages/typescript/tokenization.ts:199-214 | the loop appends to the tokens it was given exactly the span tokens of the cached classification of the line |
| LineProperties.EndStateAdvances | src/app/monaco/languages/typescript/tokenization.ts:86-121 | on every path the end state is one line and the text plus its line break further, in the same dialect and file; the program-aware and shebang paths leave mode None and no doc comment; the lexical path takes the classifier's final mode and sets the doc flag iff that mode is inside a block comment and the previous flag was set or the line opens a doc comment |
| LineProperties.SheBangLine | src/app/monaco/languages/typescript/tokenization.ts:113-114 | a non-TypeScript line starting with `#!` gives exactly the token (0, `comment.shebang`) at any line number, independently of the classifier |
| LineProperties.LexicalTokensOrdered | src/app/monaco/languages/typescript/tokenization.ts:98-147 | a non-TypeScript line is coalesced with non-decreasing starts within the classified text, strictly increasing when every entry has positive length |
| LineProperties.LexicalScopeAt | src/app/monaco/languages/typescript/tokenization.ts:123-147 | every column of entry i shows entry i's scope |
| LineProperties.LexicalCommentScope | src/app/monaco/languages/typescript/tokenization.ts:133-139 | a comment entry's columns show `comment.doc.js` iff the new end state's doc flag is set or the entry's text holds a one-entry doc comment, and `comment.js` otherwise |
| LineProperties.JsDocContinuation | src/app/monaco/languages/typescript/tokenization.ts:120-139 | with the previous flag set and the line still inside a block comment, the flag is carried and comment columns show `comment.doc.js` |
| LineProperties.JsDocClosingLine | src/app/monaco/languages/typescript/tokenization.ts:120-139 | on a lexical line after a doc-comment line, with the classifier back outside any block comment, the doc flag is cleared and every column of a comment entry without its own `/**`…`*/` shows `comment.js` |
| LineProperties.JsDocClosingLineIsPlain | src/app/monaco/languages/typescript/tokenization.ts:133-139 | an example: the closing line ` */`, one comment entry, gives the single token (0, `comment.js`) and clears the flag |
| LineProperties.LexicalPunctuationScope | src/app/monaco/languages/typescript/tokenization.ts:127-131 | with a dialect's tables, a punctuation entry's columns show the bracket's delimiter scope for `( ) { } [ ]` and `delimiter` + suffix otherwise |
| LineProperties.LexicalOtherScope | src/app/monaco/languages/typescript/tokenization.ts:140-143 | with a dialect's tables, any other entry's columns show its class stem + suffix, and whitespace the empty scope |
| LineProperties.TsPathTokenAt | src/app/monaco/languages/typescript/tokenization.ts:108-110 | a TypeScript line has one token per span of the cached classification, token i at the text length of the spans before it with span i's style + `.ts` |
| LineProperties.TsPathWhitespaceIsNull | src/app/monaco/languages/typescript/tokenization.ts:209 | a whitespace span of a TypeScript line gives a token with the scope `null.ts` |
| LineProperties.TsPathDoesNotCoalesce | src/app/monaco/languages/typescript/tokenization.ts:205-212 | an example: the two keyword spans `if`, `if` give two adjacent tokens with the same scope `keyword.ts` |
| Dispatch.TokenizationSupport.constructor | src/app/monaco/languages/typescript/tokenization.ts:17-21 | the support keeps its dialect and classifier and uses that dialect's bracket and token tables |
| Dispatch.TokenizationSupport.GetInitialState | src/app/monaco/languages/typescript/tokenization.ts:24-32 | a fresh state of the support's dialect, mode None, no doc comment, the given file path, line 0, offset 0 |
| Dispatch.TokenizationSupport.Tokenize | src/app/monaco/languages/typescript/tokenization.ts:34 | the line's tokens and a fresh end state, exactly as `TokenizeLine` with the support's tables and classifiers |
| Dispatch.TokenizeLinesAdvance | src/app/monaco/languages/typescript/tokenization.ts:86-96 | after n lines the state is n lines and the lines' sizes with line breaks further, in the same dialect and file, with one token list per line |
| Dispatch.LineScopesCarryDialect | src/app/monaco/languages/typescript/tokenization.ts:17-36 | from a state of the support's dialect, every TypeScript scope ends with `.ts`, and every JavaScript scope ends with `.js`, is empty, or is `comment.shebang` |
| Dispatch.LinesScopesCarryDialect | src/app/monaco/languages/typescript/tokenization.ts:17-36 | from such a state, every token of every later line carries the support's dialect in the same sense |

## Left out

- The internals of both classifiers (`ts.createClassifier()` and the program-aware classifier cache). They are foreign library code and are taken as function parameters.
- The host global `window.creatingModelFilePath` is a parameter of `GetInitialState`.
- Monaco's `TokensProvider` registration is not modelled. `Equals` models the host's `instanceof State` test only as far as telling a `State` object from something else (`HostState.Foreign`).
- The commented-out heuristics in `getStyleForToken` are not live code and are not modelled, nor are the commented-out debug lines of `tokenizeTs`.
- Numeric enum values and character codes are not modelled:
  - `TokenClass`, `EndOfLineState` and `ClassificationType` are datatypes.
  - The bracket tables are keyed by characters rather than by their UTF-16 codes.
  - Lengths and offsets count Dafny characters, not UTF-16 code units.
- Line numbers and offsets are unbounded naturals. JavaScript numbers lose precision beyond 2^53, and the model does not capture that.
- PunctuationScope: if a token type table had no punctuation scope, the source would append `undefined`, where the model appends `""`. The source's tables always have one.
- Trim: whitespace is the ECMAScript WhiteSpace and LineTerminator set, written out character by character. No other Unicode handling is modelled.

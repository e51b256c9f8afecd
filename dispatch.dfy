/**
 * `createTokenizationSupport`: a tokenizer for one dialect. It picks that
 * dialect's two style tables once, hands out the initial state of a model and
 * tokenizes each line from the state the previous line ended in.
 */
module Dispatch {
  import opened Classification
  import opened JsText
  import opened TokenizerState
  import opened ProgramAware
  import opened StyleTables
  import opened Tokenization
  import opened LineProperties

  /** The state before the first line of a model: no open construct, at line 0, offset 0. */
  function InitialState(language: Language, creatingModelFilePath: string): StateValue {
    StateValue(language, EndOfLineState.None, false, creatingModelFilePath, 0, 0)
  }

  class TokenizationSupport {
    const language: Language
    const classifier: Classifier
    const classifierCache: ClassifierCache
    const bracketTypeTable: map<char, string>
    const tokenTypeTable: map<TokenClass, string>

    /** The classifier is created by the caller; the tables are those of `language`. */
    constructor (language: Language, classifier: Classifier, classifierCache: ClassifierCache)
      ensures this.language == language && this.classifier == classifier && this.classifierCache == classifierCache
      ensures bracketTypeTable == BracketTypeTableFor(language) && tokenTypeTable == TokenTypeTableFor(language)
    {
      this.language := language;
      this.classifier := classifier;
      this.classifierCache := classifierCache;
      bracketTypeTable := if language == TypeScript then TsBracketTypeTable else JsBracketTypeTable;
      tokenTypeTable := if language == TypeScript then TsTokenTypeTable else JsTokenTypeTable;
    }

    /** `getInitialState`: a new state of this support's dialect for the model being created. */
    method GetInitialState(creatingModelFilePath: string) returns (s: State)
      ensures fresh(s) && s.Value() == InitialState(language, creatingModelFilePath)
    {
      s := new State(StateValue(language, EndOfLineState.None, false, creatingModelFilePath, 0, 0));
    }

    /** `tokenize`: one line from the state the previous line ended in, with this support's tables. */
    method Tokenize(line: string, state: State) returns (tokens: seq<Token>, endState: State)
      ensures fresh(endState)
      ensures LineResult(tokens, endState.Value()) ==
        TokenizeLine(bracketTypeTable, tokenTypeTable, classifier, classifierCache, state.Value(), line)
    {
      tokens, endState := Tokenization.Tokenize(bracketTypeTable, tokenTypeTable, classifier, classifierCache, state, line);
    }
  }

  /** The tokens of each line and the state after the last one. */
  datatype LinesResult = LinesResult(lineTokens: seq<seq<Token>>, endState: StateValue)

  /**
   * The editor's use of a support: every line is tokenized from the end state
   * of the line before it.
   */
  function TokenizeLines(language: Language, classifier: Classifier, classifierCache: ClassifierCache,
    state: StateValue, lines: seq<string>): LinesResult
    decreases |lines|
  {
    if lines == [] then LinesResult([], state)
    else
      var first := TokenizeLine(BracketTypeTableFor(language), TokenTypeTableFor(language), classifier,
        classifierCache, state, lines[0]);
      var rest := TokenizeLines(language, classifier, classifierCache, first.endState, lines[1..]);
      LinesResult([first.tokens] + rest.lineTokens, rest.endState)
  }

  /** The number of characters the lines take up in the model, each with its line break. */
  function LinesSize(lines: seq<string>): nat {
    if lines == [] then 0 else |lines[0]| + 1 + LinesSize(lines[1..])
  }

  /**
   * After any number of lines the state is that many lines further and that
   * many characters further into the model, in the same dialect and file.
   */
  lemma {:induction false} TokenizeLinesAdvance(language: Language, classifier: Classifier, classifierCache: ClassifierCache,
    state: StateValue, lines: seq<string>)
    ensures var r := TokenizeLines(language, classifier, classifierCache, state, lines);
      && |r.lineTokens| == |lines|
      && r.endState.language == state.language && r.endState.filePath == state.filePath
      && r.endState.lineNumber == state.lineNumber + |lines|
      && r.endState.lineStartIndex == state.lineStartIndex + LinesSize(lines)
    decreases |lines|
  {
    if lines != [] {
      var first := TokenizeLine(BracketTypeTableFor(language), TokenTypeTableFor(language), classifier,
        classifierCache, state, lines[0]);
      EndStateAdvances(BracketTypeTableFor(language), TokenTypeTableFor(language), classifier, classifierCache, state, lines[0]);
      TokenizeLinesAdvance(language, classifier, classifierCache, first.endState, lines[1..]);
    }
  }

  /**
   * A scope a theme can tell apart by dialect: it ends with the dialect's
   * suffix, except, for JavaScript, the empty scope of unmapped classes and
   * the shebang scope.
   */
  predicate DialectScope(language: Language, scope: string) {
    if language == TypeScript then EndsWith(scope, ".ts")
    else EndsWith(scope, ".js") || scope == "" || scope == "comment.shebang"
  }

  /** Every scope the lexical path can give an entry, with the JavaScript tables. */
  lemma JsEntryScopes(ctx: LexicalContext)
    requires ctx.bracketTypeTable == JsBracketTypeTable && ctx.tokenTypeTable == JsTokenTypeTable && !ctx.isTypeScript
    ensures forall e, o :: DialectScope(EcmaScript5, EntryScoper(ctx)(e, o))
  {
    forall e, o ensures DialectScope(EcmaScript5, EntryScoper(ctx)(e, o)) {
      JsEntryScope(ctx, e, o);
    }
  }

  lemma JsEntryScope(ctx: LexicalContext, e: ClassificationInfo, o: nat)
    requires ctx.bracketTypeTable == JsBracketTypeTable && ctx.tokenTypeTable == JsTokenTypeTable && !ctx.isTypeScript
    ensures DialectScope(EcmaScript5, EntryScope(ctx, e, o))
  {
    match e.classification
    case Comment =>
      JsCommentScopes();
    case Punctuation =>
      if o < |ctx.text| && ctx.text[o] in JsBracketTypeTable {
        JsBracketScope(ctx.text[o]);
      }
      JsTableScope(Punctuation);
    case _ =>
      JsTableScope(e.classification);
  }

  lemma JsBracketScope(c: char)
    requires c in JsBracketTypeTable
    ensures EndsWith(JsBracketTypeTable[c], ".js")
  {
    BracketTypeTableShape(EcmaScript5, c);
    StyleTables.SuffixEndsWith("delimiter." + BracketKind(c), ".js");
  }

  lemma JsTableScope(c: TokenClass)
    ensures DialectScope(EcmaScript5, TableScope(JsTokenTypeTable, c))
  {
    TokenTypeTableShape(EcmaScript5, c);
    StyleTables.SuffixEndsWith(TokenStem(c), ".js");
  }

  lemma JsCommentScopes()
    ensures EndsWith(CommentScope(false, true), ".js") && EndsWith(CommentScope(false, false), ".js")
  {
    StyleTables.SuffixEndsWith("comment.doc", ".js");
    StyleTables.SuffixEndsWith("comment", ".js");
    assert "comment.doc" + ".js" == "comment.doc.js";
    assert "comment" + ".js" == "comment.js";
  }

  /** The scope test of a dialect as a function value. */
  function DialectOk(language: Language): string -> bool {
    s => DialectScope(language, s)
  }

  /** Every token of `tokens` carries dialect `language`. */
  predicate DialectScopes(language: Language, tokens: seq<Token>) {
    ScopesSatisfy(tokens, DialectOk(language))
  }

  /** Every token of the program-aware path ends with `.ts`. */
  lemma TsTokensCarryDialect(spans: seq<ClassifiedSpan>, line: string)
    ensures DialectScopes(TypeScript, TsTokens(spans, line, 0))
  {
    var r := TsTokens(spans, line, 0);
    forall j | 0 <= j < |r| ensures DialectOk(TypeScript)(r[j].scopes) {
      TsTokenAt(spans, line, 0, j);
    }
  }

  /** Every token of the lexical path with the JavaScript tables carries the JavaScript dialect. */
  lemma JsFoldCarriesDialect(ctx: LexicalContext, entries: seq<ClassificationInfo>)
    requires ctx.bracketTypeTable == JsBracketTypeTable && ctx.tokenTypeTable == JsTokenTypeTable && !ctx.isTypeScript
    ensures DialectScopes(EcmaScript5, FoldEntries(ctx, entries, []))
  {
    JsEntryScopes(ctx);
    FoldScopesSatisfy(EntryScoper(ctx), entries, |entries|, [], DialectOk(EcmaScript5));
  }

  /**
   * A line tokenized by a support from a state of the support's own dialect
   * carries that dialect in every scope.
   */
  lemma LineScopesCarryDialect(language: Language, classifier: Classifier, classifierCache: ClassifierCache,
    state: StateValue, text: string)
    requires state.language == language
    ensures DialectScopes(language, TokenizeLine(BracketTypeTableFor(language), TokenTypeTableFor(language), classifier,
      classifierCache, state, text).tokens)
  {
    if language == TypeScript {
      TsTokensCarryDialect(classifierCache(state.filePath, state.lineStartIndex, text), text);
    } else if LexicalLine(state, text) {
      var ctx := LineContext(BracketTypeTableFor(language), TokenTypeTableFor(language), classifier, state, text);
      LexicalTokens(BracketTypeTableFor(language), TokenTypeTableFor(language), classifier, classifierCache, state, text);
      JsFoldCarriesDialect(ctx, classifier(text, state.eolState).entries);
    } else {
      assert DialectOk(language)("comment.shebang");
    }
  }

  /**
   * From the initial state of a support, or any state of its dialect, every
   * token of every line carries the support's dialect.
   */
  lemma {:induction false} LinesScopesCarryDialect(language: Language, classifier: Classifier, classifierCache: ClassifierCache,
    state: StateValue, lines: seq<string>, i: nat)
    requires state.language == language
    requires i < |TokenizeLines(language, classifier, classifierCache, state, lines).lineTokens|
    ensures DialectScopes(language, TokenizeLines(language, classifier, classifierCache, state, lines).lineTokens[i])
    decreases |lines|
  {
    var first := TokenizeLine(BracketTypeTableFor(language), TokenTypeTableFor(language), classifier,
      classifierCache, state, lines[0]);
    var rest := TokenizeLines(language, classifier, classifierCache, first.endState, lines[1..]);
    TokenizeLinesUnfold(language, classifier, classifierCache, state, lines);
    if i == 0 {
      LineScopesCarryDialect(language, classifier, classifierCache, state, lines[0]);
    } else {
      EndStateAdvances(BracketTypeTableFor(language), TokenTypeTableFor(language), classifier, classifierCache, state, lines[0]);
      LinesScopesCarryDialect(language, classifier, classifierCache, first.endState, lines[1..], i - 1);
      assert rest.lineTokens[i - 1] == TokenizeLines(language, classifier, classifierCache, state, lines).lineTokens[i];
    }
  }

  /** The first line's tokens head the list; the rest come from its end state. */
  lemma TokenizeLinesUnfold(language: Language, classifier: Classifier, classifierCache: ClassifierCache,
    state: StateValue, lines: seq<string>)
    requires lines != []
    ensures var first := TokenizeLine(BracketTypeTableFor(language), TokenTypeTableFor(language), classifier,
        classifierCache, state, lines[0]);
      TokenizeLines(language, classifier, classifierCache, state, lines).lineTokens ==
        [first.tokens] + TokenizeLines(language, classifier, classifierCache, first.endState, lines[1..]).lineTokens
  {
  }
}

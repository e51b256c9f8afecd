/**
 * What one call of `tokenize` promises about the tokens and the end state of
 * a line, on each of its three paths: the program-aware path of a TypeScript
 * state, the shebang line and the lexical fold.
 */
module LineProperties {
  import opened Classification
  import opened JsText
  import opened TokenizerState
  import opened ProgramAware
  import opened StyleTables
  import opened Tokenization
  import Wrappers

  /** The line starts with `#!`. */
  predicate IsSheBangLine(text: string) {
    |text| >= 2 && text[0] == '#' && text[1] == '!'
  }

  /** The line goes through the lexical classifier: a non-TypeScript state and no shebang. */
  predicate LexicalLine(state: StateValue, text: string) {
    state.language != TypeScript && !IsSheBangLine(text)
  }

  /**
   * Every path advances the position: one line further, past the text and its
   * line break, in the same dialect and file. The program-aware path and the
   * shebang line leave the lexical fields reset; the lexical path takes the end
   * mode from the classifier and carries the doc-comment flag while a block
   * comment stays open.
   */
  lemma EndStateAdvances(bracketTypeTable: map<char, string>, tokenTypeTable: map<TokenClass, string>,
    classifier: Classifier, classifierCache: ClassifierCache, state: StateValue, text: string)
    ensures var e := TokenizeLine(bracketTypeTable, tokenTypeTable, classifier, classifierCache, state, text).endState;
      && e.language == state.language && e.filePath == state.filePath
      && e.lineNumber == state.lineNumber + 1 && e.lineStartIndex == state.lineStartIndex + |text| + 1
      && (!LexicalLine(state, text) ==> e.eolState == EndOfLineState.None && !e.inJsDocComment)
      && (LexicalLine(state, text) ==>
            var final := classifier(text, state.eolState).finalLexState;
            && e.eolState == final
            && (e.inJsDocComment <==>
                  final == InMultiLineCommentTrivia && (state.inJsDocComment || DocCommentOpensToEnd(text))))
  {
  }

  /**
   * A shebang line of a non-TypeScript state is the single shebang token at
   * column 0, whatever its line number, and the classifier is not consulted:
   * any two classifiers give the same result.
   */
  lemma SheBangLine(bracketTypeTable: map<char, string>, tokenTypeTable: map<TokenClass, string>,
    classifier: Classifier, other: Classifier, classifierCache: ClassifierCache, state: StateValue, text: string)
    requires state.language != TypeScript && IsSheBangLine(text)
    ensures var r := TokenizeLine(bracketTypeTable, tokenTypeTable, classifier, classifierCache, state, text);
      && r.tokens == [Token(0, "comment.shebang")]
      && r.endState == AdvancedState(state, text)
      && r == TokenizeLine(bracketTypeTable, tokenTypeTable, other, classifierCache, state, text)
  {
  }

  /** On the lexical path the tokens are the fold of the classifier's entries from an empty list. */
  lemma LexicalTokens(bracketTypeTable: map<char, string>, tokenTypeTable: map<TokenClass, string>,
    classifier: Classifier, classifierCache: ClassifierCache, state: StateValue, text: string)
    requires LexicalLine(state, text)
    ensures TokenizeLine(bracketTypeTable, tokenTypeTable, classifier, classifierCache, state, text).tokens ==
      FoldEntries(LineContext(bracketTypeTable, tokenTypeTable, classifier, state, text),
        classifier(text, state.eolState).entries, [])
    ensures TokenizeLine(bracketTypeTable, tokenTypeTable, classifier, classifierCache, state, text).endState.inJsDocComment ==
      LineContext(bracketTypeTable, tokenTypeTable, classifier, state, text).endInJsDocComment
  {
  }

  /**
   * A non-TypeScript line never has two consecutive tokens with the same
   * scope, its starts are in order and lie within the classified text, and
   * they strictly increase when every entry is non-empty.
   */
  lemma LexicalTokensOrdered(bracketTypeTable: map<char, string>, tokenTypeTable: map<TokenClass, string>,
    classifier: Classifier, classifierCache: ClassifierCache, state: StateValue, text: string)
    requires state.language != TypeScript
    ensures var r := TokenizeLine(bracketTypeTable, tokenTypeTable, classifier, classifierCache, state, text).tokens;
      && Coalesced(r)
      && StartsNonDecreasing(r)
      && (LexicalLine(state, text) ==>
            var entries := classifier(text, state.eolState).entries;
            && StartsAtMost(r, EntryOffset(entries, |entries|))
            && ((forall j :: 0 <= j < |entries| ==> entries[j].length > 0) ==> StartsIncreasing(r)))
  {
    if LexicalLine(state, text) {
      var ctx := LineContext(bracketTypeTable, tokenTypeTable, classifier, state, text);
      var entries := classifier(text, state.eolState).entries;
      LexicalTokens(bracketTypeTable, tokenTypeTable, classifier, classifierCache, state, text);
      FoldCoalesced(EntryScoper(ctx), entries, |entries|, []);
      FoldStartsNonDecreasing(EntryScoper(ctx), entries, |entries|, []);
      FoldStartsBounded(EntryScoper(ctx), entries, |entries|, []);
      if forall j :: 0 <= j < |entries| ==> entries[j].length > 0 {
        FoldStartsIncreasing(EntryScoper(ctx), entries, |entries|);
      }
    }
  }

  /**
   * On the lexical path every column covered by entry `i` shows the scope of
   * entry `i`: coalescing merges tokens but never loses a scope.
   */
  lemma LexicalScopeAt(bracketTypeTable: map<char, string>, tokenTypeTable: map<TokenClass, string>,
    classifier: Classifier, classifierCache: ClassifierCache, state: StateValue, text: string, i: nat, pos: nat)
    requires LexicalLine(state, text)
    requires var entries := classifier(text, state.eolState).entries;
      i < |entries| && EntryOffset(entries, i) <= pos < EntryOffset(entries, i) + entries[i].length
    ensures var entries := classifier(text, state.eolState).entries;
      ScopeAt(TokenizeLine(bracketTypeTable, tokenTypeTable, classifier, classifierCache, state, text).tokens, pos) ==
      Wrappers.Some(EntryScope(LineContext(bracketTypeTable, tokenTypeTable, classifier, state, text),
        entries[i], EntryOffset(entries, i)))
  {
    var ctx := LineContext(bracketTypeTable, tokenTypeTable, classifier, state, text);
    var entries := classifier(text, state.eolState).entries;
    LexicalTokens(bracketTypeTable, tokenTypeTable, classifier, classifierCache, state, text);
    FoldScopeAt(EntryScoper(ctx), entries, [], i, pos);
  }

  /**
   * A comment entry's columns show the JavaScript doc-comment scope exactly
   * when the end state's doc-comment flag is set or the entry's own text opens
   * and closes a doc comment, and the plain JavaScript comment scope
   * otherwise; the dialect suffix is `.js` even for a TypeScript tokenizer.
   */
  lemma LexicalCommentScope(bracketTypeTable: map<char, string>, tokenTypeTable: map<TokenClass, string>,
    classifier: Classifier, classifierCache: ClassifierCache, state: StateValue, text: string, i: nat, pos: nat)
    requires LexicalLine(state, text)
    requires var entries := classifier(text, state.eolState).entries;
      i < |entries| && entries[i].classification == Comment &&
      EntryOffset(entries, i) <= pos < EntryOffset(entries, i) + entries[i].length
    ensures var entries := classifier(text, state.eolState).entries;
      var r := TokenizeLine(bracketTypeTable, tokenTypeTable, classifier, classifierCache, state, text);
      ScopeAt(r.tokens, pos) ==
      Wrappers.Some(
        if r.endState.inJsDocComment || DocCommentBlock(Substr(text, EntryOffset(entries, i), entries[i].length))
        then "comment.doc.js" else "comment.js")
  {
    LexicalTokens(bracketTypeTable, tokenTypeTable, classifier, classifierCache, state, text);
    LexicalScopeAt(bracketTypeTable, tokenTypeTable, classifier, classifierCache, state, text, i, pos);
  }

  /**
   * A doc comment left open on the previous line stays a doc comment: while the
   * classifier reports the line still inside a block comment, the flag is
   * carried and every comment entry shows the doc-comment scope.
   */
  lemma JsDocContinuation(bracketTypeTable: map<char, string>, tokenTypeTable: map<TokenClass, string>,
    classifier: Classifier, classifierCache: ClassifierCache, state: StateValue, text: string, i: nat, pos: nat)
    requires LexicalLine(state, text) && state.inJsDocComment
    requires classifier(text, state.eolState).finalLexState == InMultiLineCommentTrivia
    requires var entries := classifier(text, state.eolState).entries;
      i < |entries| && entries[i].classification == Comment &&
      EntryOffset(entries, i) <= pos < EntryOffset(entries, i) + entries[i].length
    ensures var r := TokenizeLine(bracketTypeTable, tokenTypeTable, classifier, classifierCache, state, text);
      r.endState.inJsDocComment && ScopeAt(r.tokens, pos) == Wrappers.Some("comment.doc.js")
  {
    LexicalCommentScope(bracketTypeTable, tokenTypeTable, classifier, classifierCache, state, text, i, pos);
  }

  /**
   * The comment rule reads the flag of the new end state, not the previous
   * one: on the line that closes a doc comment, where the classifier is back
   * outside any block comment, the flag is cleared and every comment entry
   * that does not itself hold a whole doc comment shows the plain comment
   * scope, although the previous line was inside the doc comment.
   */
  lemma JsDocClosingLine(bracketTypeTable: map<char, string>, tokenTypeTable: map<TokenClass, string>,
    classifier: Classifier, classifierCache: ClassifierCache, state: StateValue, text: string, i: nat, pos: nat)
    requires LexicalLine(state, text) && state.inJsDocComment
    requires classifier(text, state.eolState).finalLexState != InMultiLineCommentTrivia
    requires var entries := classifier(text, state.eolState).entries;
      i < |entries| && entries[i].classification == Comment &&
      !DocCommentBlock(Substr(text, EntryOffset(entries, i), entries[i].length)) &&
      EntryOffset(entries, i) <= pos < EntryOffset(entries, i) + entries[i].length
    ensures var r := TokenizeLine(bracketTypeTable, tokenTypeTable, classifier, classifierCache, state, text);
      !r.endState.inJsDocComment && ScopeAt(r.tokens, pos) == Wrappers.Some("comment.js")
  {
    LexicalCommentScope(bracketTypeTable, tokenTypeTable, classifier, classifierCache, state, text, i, pos);
  }

  /**
   * An instance of the closing line: a space, then star and slash, classified
   * as one comment entry with the classifier back outside any comment, gives
   * the single plain comment token.
   */
  lemma JsDocClosingLineIsPlain(bracketTypeTable: map<char, string>, tokenTypeTable: map<TokenClass, string>,
    classifierCache: ClassifierCache, state: StateValue)
    requires state.language != TypeScript && state.inJsDocComment
    ensures var classifier: Classifier :=
        (t: string, e: EndOfLineState) => ClassificationResult(EndOfLineState.None, [ClassificationInfo(3, Comment)]);
      var r := TokenizeLine(bracketTypeTable, tokenTypeTable, classifier, classifierCache, state, " */");
      r.tokens == [Token(0, "comment.js")] && !r.endState.inJsDocComment
  {
    var classifier: Classifier :=
      (t: string, e: EndOfLineState) => ClassificationResult(EndOfLineState.None, [ClassificationInfo(3, Comment)]);
    var text := " */";
    assert !IsSheBangLine(text);
    LexicalTokens(bracketTypeTable, tokenTypeTable, classifier, classifierCache, state, text);
    var ctx := LineContext(bracketTypeTable, tokenTypeTable, classifier, state, text);
    assert !ctx.endInJsDocComment;
    assert !DocCommentBlock(Substr(text, 0, 3)) by {
      assert Substr(text, 0, 3) == text;
      assert !HasAt(text, 0, "/**");
    }
    assert EntryScope(ctx, ClassificationInfo(3, Comment), 0) == "comment.js";
  }

  /**
   * With the tables of dialect `language`, a punctuation entry's columns show
   * the bracket's delimiter scope when the character at its offset is one of
   * `( ) { } [ ]`, and the plain delimiter scope otherwise, both with the
   * tables' suffix.
   */
  lemma LexicalPunctuationScope(language: Language, classifier: Classifier, classifierCache: ClassifierCache,
    state: StateValue, text: string, i: nat, pos: nat)
    requires LexicalLine(state, text)
    requires var entries := classifier(text, state.eolState).entries;
      i < |entries| && entries[i].classification == Punctuation &&
      EntryOffset(entries, i) <= pos < EntryOffset(entries, i) + entries[i].length
    ensures var entries := classifier(text, state.eolState).entries;
      var at := EntryOffset(entries, i);
      var r := TokenizeLine(BracketTypeTableFor(language), TokenTypeTableFor(language), classifier, classifierCache, state, text);
      ScopeAt(r.tokens, pos) ==
      Wrappers.Some(
        if at < |text| && text[at] in "(){}[]" then "delimiter." + BracketKind(text[at]) + Suffix(language)
        else "delimiter" + Suffix(language))
  {
    var entries := classifier(text, state.eolState).entries;
    var at := EntryOffset(entries, i);
    LexicalScopeAt(BracketTypeTableFor(language), TokenTypeTableFor(language), classifier, classifierCache, state, text, i, pos);
    TokenTypeTableShape(language, Punctuation);
    if at < |text| {
      BracketTypeTableShape(language, text[at]);
    }
  }

  /**
   * With the tables of dialect `language`, every other entry's columns show
   * its class's stem with the tables' suffix, and whitespace, which the
   * tables do not map, shows the empty scope.
   */
  lemma LexicalOtherScope(language: Language, classifier: Classifier, classifierCache: ClassifierCache,
    state: StateValue, text: string, i: nat, pos: nat)
    requires LexicalLine(state, text)
    requires var entries := classifier(text, state.eolState).entries;
      i < |entries| && entries[i].classification != Punctuation && entries[i].classification != Comment &&
      EntryOffset(entries, i) <= pos < EntryOffset(entries, i) + entries[i].length
    ensures var entries := classifier(text, state.eolState).entries;
      var r := TokenizeLine(BracketTypeTableFor(language), TokenTypeTableFor(language), classifier, classifierCache, state, text);
      ScopeAt(r.tokens, pos) ==
      Wrappers.Some(if entries[i].classification == Whitespace then "" else TokenStem(entries[i].classification) + Suffix(language))
  {
    var entries := classifier(text, state.eolState).entries;
    LexicalScopeAt(BracketTypeTableFor(language), TokenTypeTableFor(language), classifier, classifierCache, state, text, i, pos);
    TokenTypeTableShape(language, entries[i].classification);
  }

  /**
   * A TypeScript line has one token per classified span of the program-aware
   * classifier at the state's file and offset, never merged: token `i` starts
   * where the texts of the spans before it end and carries the style of span
   * `i` with `.ts` appended.
   */
  lemma TsPathTokenAt(bracketTypeTable: map<char, string>, tokenTypeTable: map<TokenClass, string>,
    classifier: Classifier, classifierCache: ClassifierCache, state: StateValue, text: string, i: nat)
    requires state.language == TypeScript
    requires i < |classifierCache(state.filePath, state.lineStartIndex, text)|
    ensures var spans := classifierCache(state.filePath, state.lineStartIndex, text);
      var r := TokenizeLine(bracketTypeTable, tokenTypeTable, classifier, classifierCache, state, text).tokens;
      var at := TextLength(spans[..i]);
      |r| == |spans| && r[i] == Token(at, TsScope(GetStyleForToken(spans[i], text, at)))
  {
    var spans := classifierCache(state.filePath, state.lineStartIndex, text);
    assert TokenizeLine(bracketTypeTable, tokenTypeTable, classifier, classifierCache, state, text).tokens ==
      TsTokens(spans, text, 0);
    TsTokenAt(spans, text, 0, i);
  }

  /**
   * A span without a style is not dropped: a whitespace span of a TypeScript
   * line gives the scope `null.ts`, as JavaScript writes `null + '.ts'`.
   */
  lemma TsPathWhitespaceIsNull(bracketTypeTable: map<char, string>, tokenTypeTable: map<TokenClass, string>,
    classifier: Classifier, classifierCache: ClassifierCache, state: StateValue, text: string, i: nat)
    requires state.language == TypeScript
    requires var spans := classifierCache(state.filePath, state.lineStartIndex, text);
      i < |spans| && spans[i].classificationType == whiteSpace
    ensures var r := TokenizeLine(bracketTypeTable, tokenTypeTable, classifier, classifierCache, state, text).tokens;
      i < |r| && r[i].scopes == "null.ts"
  {
    TsPathTokenAt(bracketTypeTable, tokenTypeTable, classifier, classifierCache, state, text, i);
  }

  /** The program-aware path does not coalesce: the spans `if`, `if` give two equal scopes side by side. */
  lemma TsPathDoesNotCoalesce(bracketTypeTable: map<char, string>, tokenTypeTable: map<TokenClass, string>,
    classifier: Classifier, state: StateValue)
    requires state.language == TypeScript
    ensures var cache: ClassifierCache :=
        (p: string, o: nat, t: string) => [ClassifiedSpan("if", keyword), ClassifiedSpan("if", keyword)];
      TokenizeLine(bracketTypeTable, tokenTypeTable, classifier, cache, state, "ifif").tokens ==
        [Token(0, "keyword.ts"), Token(2, "keyword.ts")]
  {
    var cache: ClassifierCache :=
      (p: string, o: nat, t: string) => [ClassifiedSpan("if", keyword), ClassifiedSpan("if", keyword)];
    var spans := cache(state.filePath, state.lineStartIndex, "ifif");
    assert KeywordStyle("if") == "keyword";
    assert TsScope(Named("keyword")) == "keyword.ts";
    assert spans[1..][1..] == [];
  }
}

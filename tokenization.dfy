/**
 * `tokenize`: one line of text and the state before it give the line's tokens
 * and a new end state. A TypeScript state goes to the program-aware path; any
 * other state goes through the shebang check and then the lexical path, which
 * folds the lexical classifier's entries into coalesced tokens.
 */
module Tokenization {
  import opened Classification
  import opened JsText
  import opened TokenizerState
  import opened ProgramAware
  import Wrappers

  /** The tokens of a line and the state after it. */
  datatype LineResult = LineResult(tokens: seq<Token>, endState: StateValue)

  /**
   * `appendFn`: adds a token at the end unless the last token already has the
   * same scope. The list only ever grows at its end, by at most one token, and
   * its last scope is afterwards the one appended.
   */
  function Append(tokens: seq<Token>, startIndex: nat, scope: string): seq<Token> {
    if |tokens| == 0 || tokens[|tokens| - 1].scopes != scope then tokens + [Token(startIndex, scope)]
    else tokens
  }

  /**
   * The list only ever grows at its end, by at most one token, which is the
   * appended one, and its last scope is afterwards the one appended; it
   * grows exactly when it was empty or ended in another scope.
   */
  lemma AppendShape(tokens: seq<Token>, startIndex: nat, scope: string)
    ensures var r := Append(tokens, startIndex, scope);
      |tokens| <= |r| <= |tokens| + 1 && r[..|tokens|] == tokens &&
      |r| > 0 && r[|r| - 1].scopes == scope &&
      (|r| == |tokens| + 1 ==> r[|tokens|] == Token(startIndex, scope)) &&
      (|r| == |tokens| + 1 <==> |tokens| == 0 || tokens[|tokens| - 1].scopes != scope)
  {
  }

  /** No two consecutive tokens carry the same scope. */
  predicate Coalesced(tokens: seq<Token>) {
    forall k :: 0 < k < |tokens| ==> tokens[k - 1].scopes != tokens[k].scopes
  }

  predicate StartsNonDecreasing(tokens: seq<Token>) {
    forall i, j :: 0 <= i < j < |tokens| ==> tokens[i].startIndex <= tokens[j].startIndex
  }

  predicate StartsIncreasing(tokens: seq<Token>) {
    forall i, j :: 0 <= i < j < |tokens| ==> tokens[i].startIndex < tokens[j].startIndex
  }

  predicate StartsAtMost(tokens: seq<Token>, bound: nat) {
    forall k :: 0 <= k < |tokens| ==> tokens[k].startIndex <= bound
  }

  predicate StartsBelow(tokens: seq<Token>, bound: nat) {
    forall k :: 0 <= k < |tokens| ==> tokens[k].startIndex < bound
  }

  /**
   * The scope the editor shows at column `pos`: that of the last token that
   * starts at or before it, if any.
   */
  function ScopeAt(tokens: seq<Token>, pos: nat): Wrappers.Option<string>
    decreases |tokens|
  {
    if tokens == [] then Wrappers.None
    else if tokens[|tokens| - 1].startIndex <= pos then Wrappers.Some(tokens[|tokens| - 1].scopes)
    else ScopeAt(tokens[..|tokens| - 1], pos)
  }

  /** Appending keeps the list coalesced. */
  lemma AppendCoalesced(tokens: seq<Token>, startIndex: nat, scope: string)
    requires Coalesced(tokens)
    ensures Coalesced(Append(tokens, startIndex, scope))
  {
  }

  /** Appending at or after every start keeps the starts in order. */
  lemma AppendStarts(tokens: seq<Token>, startIndex: nat, scope: string)
    requires StartsAtMost(tokens, startIndex)
    ensures StartsAtMost(Append(tokens, startIndex, scope), startIndex)
    ensures StartsNonDecreasing(tokens) ==> StartsNonDecreasing(Append(tokens, startIndex, scope))
    ensures StartsIncreasing(tokens) && StartsBelow(tokens, startIndex) ==>
      StartsIncreasing(Append(tokens, startIndex, scope))
  {
  }

  /**
   * Appending at column `o` leaves the scope of every column before `o` as it
   * was and gives every column from `o` on the appended scope.
   */
  lemma AppendScopeAt(tokens: seq<Token>, startIndex: nat, scope: string, pos: nat)
    requires StartsAtMost(tokens, startIndex)
    ensures pos < startIndex ==> ScopeAt(Append(tokens, startIndex, scope), pos) == ScopeAt(tokens, pos)
    ensures startIndex <= pos ==> ScopeAt(Append(tokens, startIndex, scope), pos) == Wrappers.Some(scope)
  {
    var r := Append(tokens, startIndex, scope);
    if |r| == |tokens| + 1 {
      assert r[..|r| - 1] == tokens;
    }
  }

  /**
   * What the scope of one classifier entry depends on besides the entry: the
   * two tables, the line, the doc-comment flag of the new end state and the
   * dialect test of the enclosing call.
   */
  datatype LexicalContext = LexicalContext(
    bracketTypeTable: map<char, string>,
    tokenTypeTable: map<TokenClass, string>,
    text: string,
    endInJsDocComment: bool,
    isTypeScript: bool)

  /**
   * A punctuation entry at `offset`: the bracket table's scope for the
   * character there, falling back (JavaScript `||`: a missing or empty scope)
   * to the token type table's punctuation scope (empty when the table has
   * none).
   */
  function PunctuationScope(ctx: LexicalContext, offset: nat): string {
    if offset < |ctx.text| && ctx.text[offset] in ctx.bracketTypeTable && ctx.bracketTypeTable[ctx.text[offset]] != ""
    then ctx.bracketTypeTable[ctx.text[offset]]
    else TableScope(ctx.tokenTypeTable, Punctuation)
  }

  /** The token type table's scope for a class, empty when it has none. */
  function TableScope(tokenTypeTable: map<TokenClass, string>, c: TokenClass): string {
    if c in tokenTypeTable then tokenTypeTable[c] else ""
  }

  /** The scope of a comment entry. */
  function CommentScope(isTypeScript: bool, isDoc: bool): string {
    if isDoc then (if isTypeScript then "comment.doc.ts" else "comment.doc.js")
    else (if isTypeScript then "comment.ts" else "comment.js")
  }

  /** The scope the lexical path gives the entry that starts at `offset`. */
  function EntryScope(ctx: LexicalContext, entry: ClassificationInfo, offset: nat): string {
    match entry.classification
    case Punctuation => PunctuationScope(ctx, offset)
    case Comment =>
      CommentScope(ctx.isTypeScript, ctx.endInJsDocComment || DocCommentBlock(Substr(ctx.text, offset, entry.length)))
    case _ => TableScope(ctx.tokenTypeTable, entry.classification)
  }

  /** Where entry `i` starts: the total length of the entries before it. */
  function EntryOffset(entries: seq<ClassificationInfo>, i: nat): nat
    requires i <= |entries|
  {
    if i == 0 then 0 else EntryOffset(entries, i - 1) + entries[i - 1].length
  }

  /** Entries never start before an earlier entry. */
  lemma {:induction false} EntryOffsetMonotone(entries: seq<ClassificationInfo>, i: nat, j: nat)
    requires i <= j <= |entries|
    ensures EntryOffset(entries, i) <= EntryOffset(entries, j)
    decreases j
  {
    if i < j {
      EntryOffsetMonotone(entries, i, j - 1);
    }
  }

  /** The scoping of entries as a function value, so that the fold can be reasoned about for any scoping. */
  function EntryScoper(ctx: LexicalContext): (ClassificationInfo, nat) -> string {
    (e: ClassificationInfo, o: nat) => EntryScope(ctx, e, o)
  }

  /** The loop over all the entries of a line, after the tokens `tokens`. */
  function FoldEntries(ctx: LexicalContext, entries: seq<ClassificationInfo>, tokens: seq<Token>): seq<Token> {
    Fold(EntryScoper(ctx), entries, |entries|, tokens)
  }

  /**
   * The loop over the first `k` entries for any scoping `scopeOf`: each
   * entry's scope is appended at its offset.
   */
  function Fold(scopeOf: (ClassificationInfo, nat) -> string, entries: seq<ClassificationInfo>, k: nat, tokens: seq<Token>): seq<Token>
    requires k <= |entries|
  {
    if k == 0 then tokens
    else
      var at := EntryOffset(entries, k - 1);
      Append(Fold(scopeOf, entries, k - 1, tokens), at, scopeOf(entries[k - 1], at))
  }

  /** The fold never emits two consecutive tokens with the same scope. */
  lemma {:induction false} FoldCoalesced(scopeOf: (ClassificationInfo, nat) -> string, entries: seq<ClassificationInfo>, k: nat, tokens: seq<Token>)
    requires k <= |entries| && Coalesced(tokens)
    ensures Coalesced(Fold(scopeOf, entries, k, tokens))
    decreases k
  {
    if k > 0 {
      var at := EntryOffset(entries, k - 1);
      FoldCoalesced(scopeOf, entries, k - 1, tokens);
      AppendCoalesced(Fold(scopeOf, entries, k - 1, tokens), at, scopeOf(entries[k - 1], at));
    }
  }

  /** No start of the fold lies beyond the start of the next entry. */
  lemma {:induction false} FoldStartsBounded(scopeOf: (ClassificationInfo, nat) -> string, entries: seq<ClassificationInfo>, k: nat, tokens: seq<Token>)
    requires k <= |entries| && StartsAtMost(tokens, 0)
    ensures StartsAtMost(Fold(scopeOf, entries, k, tokens), EntryOffset(entries, k))
    decreases k
  {
    if k > 0 {
      var at := EntryOffset(entries, k - 1);
      FoldStartsBounded(scopeOf, entries, k - 1, tokens);
      AppendKeepsAtMost(Fold(scopeOf, entries, k - 1, tokens), at, scopeOf(entries[k - 1], at), EntryOffset(entries, k));
    }
  }

  /** The fold's starts are in order. */
  lemma {:induction false} FoldStartsNonDecreasing(scopeOf: (ClassificationInfo, nat) -> string, entries: seq<ClassificationInfo>, k: nat, tokens: seq<Token>)
    requires k <= |entries| && StartsNonDecreasing(tokens) && StartsAtMost(tokens, 0)
    ensures StartsNonDecreasing(Fold(scopeOf, entries, k, tokens))
    decreases k
  {
    if k > 0 {
      var at := EntryOffset(entries, k - 1);
      FoldStartsNonDecreasing(scopeOf, entries, k - 1, tokens);
      FoldStartsBounded(scopeOf, entries, k - 1, tokens);
      AppendStarts(Fold(scopeOf, entries, k - 1, tokens), at, scopeOf(entries[k - 1], at));
    }
  }

  /** With entries of positive length, the starts of a fold begun on no tokens strictly increase. */
  lemma {:induction false} FoldStartsIncreasing(scopeOf: (ClassificationInfo, nat) -> string, entries: seq<ClassificationInfo>, k: nat)
    requires k <= |entries|
    requires forall j :: 0 <= j < |entries| ==> entries[j].length > 0
    ensures StartsIncreasing(Fold(scopeOf, entries, k, []))
    ensures StartsBelow(Fold(scopeOf, entries, k, []), if k == 0 then 1 else EntryOffset(entries, k))
    decreases k
  {
    if k > 0 {
      var at := EntryOffset(entries, k - 1);
      FoldStartsIncreasing(scopeOf, entries, k - 1);
      if k > 1 {
        AppendKeepsIncreasing(Fold(scopeOf, entries, k - 1, []), at, scopeOf(entries[k - 1], at), EntryOffset(entries, k));
      }
    }
  }

  lemma AppendKeepsAtMost(tokens: seq<Token>, startIndex: nat, scope: string, bound: nat)
    requires StartsAtMost(tokens, startIndex) && startIndex <= bound
    ensures StartsAtMost(Append(tokens, startIndex, scope), bound)
  {
    AppendStarts(tokens, startIndex, scope);
  }

  lemma AppendKeepsIncreasing(tokens: seq<Token>, startIndex: nat, scope: string, bound: nat)
    requires StartsIncreasing(tokens) && StartsBelow(tokens, startIndex) && startIndex < bound
    ensures StartsIncreasing(Append(tokens, startIndex, scope)) && StartsBelow(Append(tokens, startIndex, scope), bound)
  {
    AppendStarts(tokens, startIndex, scope);
  }

  /** `r` is `t` followed by tokens that start at `bound` or later. */
  predicate ExtendsFrom(r: seq<Token>, t: seq<Token>, bound: nat) {
    |t| <= |r| && r[..|t|] == t && forall m :: |t| <= m < |r| ==> bound <= r[m].startIndex
  }

  /** Folding the entries from `j` on only adds tokens at or after the start of entry `j`. */
  lemma {:induction false} FoldExtends(scopeOf: (ClassificationInfo, nat) -> string, entries: seq<ClassificationInfo>, j: nat, k: nat, tokens: seq<Token>)
    requires j <= k <= |entries|
    ensures ExtendsFrom(Fold(scopeOf, entries, k, tokens), Fold(scopeOf, entries, j, tokens), EntryOffset(entries, j))
    decreases k
  {
    if j < k {
      var at := EntryOffset(entries, k - 1);
      FoldExtends(scopeOf, entries, j, k - 1, tokens);
      EntryOffsetMonotone(entries, j, k - 1);
      AppendExtends(Fold(scopeOf, entries, k - 1, tokens), Fold(scopeOf, entries, j, tokens), at,
        scopeOf(entries[k - 1], at), EntryOffset(entries, j));
    }
  }

  lemma AppendExtends(r: seq<Token>, t: seq<Token>, startIndex: nat, scope: string, bound: nat)
    requires ExtendsFrom(r, t, bound) && bound <= startIndex
    ensures ExtendsFrom(Append(r, startIndex, scope), t, bound)
  {
    AppendShape(r, startIndex, scope);
    var a := Append(r, startIndex, scope);
    assert a[..|t|] == a[..|r|][..|t|];
  }

  /** Tokens that start after `pos` do not change the scope at `pos`. */
  lemma {:induction false} ScopeAtExtended(r: seq<Token>, t: seq<Token>, pos: nat)
    requires ExtendsFrom(r, t, pos + 1)
    ensures ScopeAt(r, pos) == ScopeAt(t, pos)
    decreases |r|
  {
    if |r| > |t| {
      var init := r[..|r| - 1];
      assert init[..|t|] == t;
      ScopeAtExtended(init, t, pos);
    } else {
      assert r == t;
    }
  }

  /** Folding the entries from `j` on leaves the scope of every column before entry `j` as it was. */
  lemma FoldKeepsEarlierScopes(scopeOf: (ClassificationInfo, nat) -> string, entries: seq<ClassificationInfo>, j: nat, k: nat, tokens: seq<Token>, pos: nat)
    requires j <= k <= |entries| && pos < EntryOffset(entries, j)
    ensures ScopeAt(Fold(scopeOf, entries, k, tokens), pos) == ScopeAt(Fold(scopeOf, entries, j, tokens), pos)
  {
    FoldExtends(scopeOf, entries, j, k, tokens);
    var r := Fold(scopeOf, entries, k, tokens);
    var t := Fold(scopeOf, entries, j, tokens);
    assert ExtendsFrom(r, t, pos + 1);
    ScopeAtExtended(r, t, pos);
  }

  /**
   * Coalescing loses nothing: every column covered by entry `i` shows the
   * scope of entry `i`.
   */
  lemma FoldScopeAt(scopeOf: (ClassificationInfo, nat) -> string, entries: seq<ClassificationInfo>, tokens: seq<Token>, i: nat, pos: nat)
    requires StartsAtMost(tokens, 0)
    requires i < |entries|
    requires EntryOffset(entries, i) <= pos < EntryOffset(entries, i) + entries[i].length
    ensures ScopeAt(Fold(scopeOf, entries, |entries|, tokens), pos) ==
      Wrappers.Some(scopeOf(entries[i], EntryOffset(entries, i)))
  {
    var at := EntryOffset(entries, i);
    FoldStartsBounded(scopeOf, entries, i, tokens);
    AppendScopeAt(Fold(scopeOf, entries, i, tokens), at, scopeOf(entries[i], at), pos);
    FoldKeepsEarlierScopes(scopeOf, entries, i + 1, |entries|, tokens, pos);
  }

  /** Every token's scope satisfies `ok`. */
  predicate ScopesSatisfy(tokens: seq<Token>, ok: string -> bool) {
    forall j :: 0 <= j < |tokens| ==> ok(tokens[j].scopes)
  }

  /** Every scope the fold emits satisfies `ok` when every entry scope and every earlier token does. */
  lemma {:induction false} FoldScopesSatisfy(scopeOf: (ClassificationInfo, nat) -> string, entries: seq<ClassificationInfo>, k: nat, tokens: seq<Token>, ok: string -> bool)
    requires k <= |entries| && ScopesSatisfy(tokens, ok)
    requires forall e, o :: ok(scopeOf(e, o))
    ensures ScopesSatisfy(Fold(scopeOf, entries, k, tokens), ok)
    decreases k
  {
    if k > 0 {
      var at := EntryOffset(entries, k - 1);
      FoldScopesSatisfy(scopeOf, entries, k - 1, tokens, ok);
      AppendScopesSatisfy(Fold(scopeOf, entries, k - 1, tokens), at, scopeOf(entries[k - 1], at), ok);
    }
  }

  lemma AppendScopesSatisfy(tokens: seq<Token>, startIndex: nat, scope: string, ok: string -> bool)
    requires ScopesSatisfy(tokens, ok) && ok(scope)
    ensures ScopesSatisfy(Append(tokens, startIndex, scope), ok)
  {
  }

  /**
   * `checkSheBang`: when the line starts with `#!`, appends the shebang token
   * at `deltaOffset` and reports true; otherwise leaves the tokens alone.
   */
  function CheckSheBang(deltaOffset: nat, line: string, tokens: seq<Token>): (r: (bool, seq<Token>))
    ensures r.0 <==> |line| >= 2 && line[0] == '#' && line[1] == '!'
    ensures r.1 == if r.0 then Append(tokens, deltaOffset, "comment.shebang") else tokens
  {
    if IndexOf(line, "#!") == 0 then (true, Append(tokens, deltaOffset, "comment.shebang"))
    else (false, tokens)
  }

  /** The state every path of `tokenize` starts its end state from. */
  function AdvancedState(state: StateValue, text: string): StateValue {
    StateValue(state.language, EndOfLineState.None, false, state.filePath,
      state.lineNumber + 1, state.lineStartIndex + |text| + 1)
  }

  /** The new doc-comment flag of the lexical path. */
  function EndInJsDocComment(state: StateValue, text: string, finalLexState: EndOfLineState): bool {
    finalLexState == InMultiLineCommentTrivia && (state.inJsDocComment || DocCommentOpensToEnd(text))
  }

  /** The context the lexical path scopes a line's entries in. */
  function LineContext(bracketTypeTable: map<char, string>, tokenTypeTable: map<TokenClass, string>,
    classifier: Classifier, state: StateValue, text: string): LexicalContext
  {
    var result := classifier(text, state.eolState);
    LexicalContext(bracketTypeTable, tokenTypeTable, text,
      EndInJsDocComment(state, text, result.finalLexState), state.language == TypeScript)
  }

  /** `tokenize` on values: the tokens of `text` and the state after it. */
  function TokenizeLine(bracketTypeTable: map<char, string>, tokenTypeTable: map<TokenClass, string>,
    classifier: Classifier, classifierCache: ClassifierCache, state: StateValue, text: string): LineResult
  {
    var endState := AdvancedState(state, text);
    if state.language == TypeScript then
      LineResult(TsTokens(classifierCache(state.filePath, state.lineStartIndex, text), text, 0), endState)
    else
      var sheBang := CheckSheBang(0, text, []);
      if sheBang.0 then LineResult(sheBang.1, endState)
      else
        var result := classifier(text, state.eolState);
        var ctx := LineContext(bracketTypeTable, tokenTypeTable, classifier, state, text);
        LineResult(FoldEntries(ctx, result.entries, sheBang.1),
          endState.(eolState := result.finalLexState, inJsDocComment := ctx.endInJsDocComment))
  }

  /**
   * `tokenize`: builds the end state first, then fills in the tokens on the
   * program-aware path, the shebang path or the lexical path, updating the
   * end state's lexical fields in place on the last.
   */
  method Tokenize(bracketTypeTable: map<char, string>, tokenTypeTable: map<TokenClass, string>,
    classifier: Classifier, classifierCache: ClassifierCache, state: State, text: string)
    returns (tokens: seq<Token>, endState: State)
    ensures fresh(endState)
    ensures LineResult(tokens, endState.Value()) ==
      TokenizeLine(bracketTypeTable, tokenTypeTable, classifier, classifierCache, state.Value(), text)
  {
    tokens := [];
    endState := new State(StateValue(state.language, EndOfLineState.None, false, state.filePath,
      state.lineNumber + 1, state.lineStartIndex + |text| + 1));

    var isTypeScript := state.language == TypeScript;
    if isTypeScript {
      tokens := TokenizeTs(classifierCache, state, tokens, text);
      return;
    }

    var sheBang := CheckSheBang(0, text, tokens);
    tokens := sheBang.1;
    if !isTypeScript && sheBang.0 {
      return;
    }

    var result := classifier(text, state.eolState);
    endState.eolState := result.finalLexState;
    endState.inJsDocComment := result.finalLexState == InMultiLineCommentTrivia
      && (state.inJsDocComment || DocCommentOpensToEnd(text));
    tokens := AppendEntries(bracketTypeTable, tokenTypeTable, text, endState, isTypeScript, result.entries, tokens);
  }

  /**
   * The loop of `tokenize` over the lexical classifier's entries: each entry
   * is scoped at its offset in the line and handed to `appendFn`. Comments
   * read the doc-comment flag of the end state being built.
   */
  method AppendEntries(bracketTypeTable: map<char, string>, tokenTypeTable: map<TokenClass, string>,
    text: string, endState: State, isTypeScript: bool, entries: seq<ClassificationInfo>, prior: seq<Token>)
    returns (tokens: seq<Token>)
    ensures tokens == FoldEntries(
      LexicalContext(bracketTypeTable, tokenTypeTable, text, endState.inJsDocComment, isTypeScript), entries, prior)
  {
    ghost var ctx := LexicalContext(bracketTypeTable, tokenTypeTable, text, endState.inJsDocComment, isTypeScript);
    tokens := prior;
    var offset: nat := 0;
    for i := 0 to |entries|
      invariant offset == EntryOffset(entries, i)
      invariant tokens == Fold(EntryScoper(ctx), entries, i, prior)
    {
      var entry := entries[i];
      var scope: string;
      if entry.classification == Punctuation {
        if offset < |text| && text[offset] in bracketTypeTable && bracketTypeTable[text[offset]] != "" {
          scope := bracketTypeTable[text[offset]];
        } else {
          scope := if Punctuation in tokenTypeTable then tokenTypeTable[Punctuation] else "";
        }
      } else if entry.classification == Comment {
        if endState.inJsDocComment || DocCommentBlock(Substr(text, offset, entry.length)) {
          scope := if isTypeScript then "comment.doc.ts" else "comment.doc.js";
        } else {
          scope := if isTypeScript then "comment.ts" else "comment.js";
        }
      } else {
        scope := if entry.classification in tokenTypeTable then tokenTypeTable[entry.classification] else "";
      }
      assert scope == EntryScoper(ctx)(entry, offset);
      tokens := Append(tokens, offset, scope);
      offset := offset + entry.length;
    }
  }
}

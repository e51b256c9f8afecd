/**
 * The program-aware path: classified spans supplied by the program-aware
 * classifier are mapped, one token per span, to scopes with the `.ts` suffix.
 */
module ProgramAware {
  import opened Classification
  import opened JsText
  import TokenizerState

  /**
   * A style as `getStyleForToken` returns it: a scope name, or JavaScript's
   * `null` for codes it has no style for.
   */
  datatype MaybeStyle = Null | Named(name: string)

  /** Keywords styled as type names. */
  const PrimitiveTypeKeywords: set<string> := {"string", "number", "void", "bool", "boolean"}

  /** Keywords styled as qualifiers. */
  const QualifierKeywords: set<string> :=
    {"static", "public", "private", "get", "set", "function", "var", "let", "const"}

  /** The codes of declared type-level names. */
  const TypeNameCodes: set<ClassificationType> :=
    {className, enumName, interfaceName, moduleName, typeParameterName, typeAliasName}

  /** The codes without a style. */
  const UnstyledCodes: set<ClassificationType> := {whiteSpace, text, docCommentTagName, jsxText}

  /**
   * The declaration look-behind: the text of the line before the token,
   * trimmed, ends with `let`, `const` or `var`.
   */
  predicate FollowsDeclarationKeyword(line: string, startIndex: nat) {
    var lastToken := Trim(Substr(line, 0, startIndex));
    EndsWith(lastToken, "let") || EndsWith(lastToken, "const") || EndsWith(lastToken, "var")
  }

  /** The style of a keyword, chosen by its text. */
  function KeywordStyle(word: string): string {
    if word in PrimitiveTypeKeywords then "variable-2"
    else if word in QualifierKeywords then "qualifier"
    else if word == "this" then "number"
    else "keyword"
  }

  /** `getStyleForToken`: the style of one classified span at `startIndex` in `line`. */
  function GetStyleForToken(token: ClassifiedSpan, line: string, startIndex: nat): MaybeStyle {
    match token.classificationType
    case numericLiteral => Named("constant.numeric")
    case stringLiteral => Named("string")
    case regularExpressionLiteral => Named("constant.character")
    case operator => Named("keyword.operator")
    case comment => Named("comment")
    case className => Named("variable-2")
    case enumName => Named("variable-2")
    case interfaceName => Named("variable-2")
    case moduleName => Named("variable-2")
    case typeParameterName => Named("variable-2")
    case typeAliasName => Named("variable-2")
    case keyword => Named(KeywordStyle(token.text))
    case identifier =>
      if FollowsDeclarationKeyword(line, startIndex) then Named("def") else Named("variable")
    case parameterName => Named("variable.parameter")
    case punctuation =>
      if token.text == "{" || token.text == "}" then Named("delimiter.bracket")
      else if token.text == "(" || token.text == ")" then Named("delimiter.parenthesis")
      else Named("bracket")
    case jsxOpenTagName => Named("tag")
    case jsxCloseTagName => Named("tag")
    case jsxSelfClosingTagName => Named("tag")
    case jsxAttribute => Named("property")
    case jsxAttributeStringLiteralValue => Named("string")
    case whiteSpace => Null
    case _ => Null
  }

  /** Exactly the codes without a style give `null`. */
  lemma NullStyleCodes(token: ClassifiedSpan, line: string, startIndex: nat)
    ensures GetStyleForToken(token, line, startIndex) == Null <==> token.classificationType in UnstyledCodes
  {
  }

  /**
   * Which tokens a keyword-derived style comes from: type-like keywords share
   * `variable-2` with the declared type names, declaration and accessibility
   * keywords give `qualifier`, `this` alone gives `number`, and every other
   * keyword gives `keyword`.
   */
  lemma KeywordStyles(token: ClassifiedSpan, line: string, startIndex: nat)
    ensures var r := GetStyleForToken(token, line, startIndex);
      && (r == Named("variable-2") <==>
            token.classificationType in TypeNameCodes
            || (token.classificationType == keyword && token.text in PrimitiveTypeKeywords))
      && (r == Named("qualifier") <==> token.classificationType == keyword && token.text in QualifierKeywords)
      && (r == Named("number") <==> token.classificationType == keyword && token.text == "this")
      && (r == Named("keyword") <==>
            token.classificationType == keyword && token.text !in PrimitiveTypeKeywords
            && token.text !in QualifierKeywords && token.text != "this")
  {
  }

  /** An identifier is a definition exactly when the declaration look-behind holds. */
  lemma IdentifierStyles(token: ClassifiedSpan, line: string, startIndex: nat)
    ensures var r := GetStyleForToken(token, line, startIndex);
      && (r == Named("def") <==> token.classificationType == identifier && FollowsDeclarationKeyword(line, startIndex))
      && (r == Named("variable") <==> token.classificationType == identifier && !FollowsDeclarationKeyword(line, startIndex))
  {
  }

  /** Punctuation styles depend on the exact text of the span. */
  lemma PunctuationStyles(token: ClassifiedSpan, line: string, startIndex: nat)
    ensures var r := GetStyleForToken(token, line, startIndex);
      && (r == Named("delimiter.bracket") <==> token.classificationType == punctuation && token.text in {"{", "}"})
      && (r == Named("delimiter.parenthesis") <==> token.classificationType == punctuation && token.text in {"(", ")"})
      && (r == Named("bracket") <==>
            token.classificationType == punctuation && token.text !in {"{", "}", "(", ")"})
  {
  }

  /**
   * The look-behind inspects only the end of the text before the token: it is
   * the same test on that text with only its trailing whitespace removed.
   */
  lemma LookBehindIsTrailing(line: string, startIndex: nat)
    ensures FollowsDeclarationKeyword(line, startIndex) <==>
      var before := TrimEnd(Substr(line, 0, startIndex));
      EndsWith(before, "let") || EndsWith(before, "const") || EndsWith(before, "var")
  {
    var before := Substr(line, 0, startIndex);
    LettersNotTrimmable("let");
    LettersNotTrimmable("const");
    LettersNotTrimmable("var");
    EndsWithAfterTrim(before, "let");
    EndsWithAfterTrim(before, "const");
    EndsWithAfterTrim(before, "var");
  }

  /** The scope string `getStyleForToken(...) + '.ts'`: JavaScript writes `null` as "null". */
  function TsScope(style: MaybeStyle): (r: string)
    ensures EndsWith(r, ".ts")
    ensures style.Named? ==> |style.name| < |r| && r[..|style.name|] == style.name
  {
    match style
    case Null => assert ("null" + ".ts")[4..] == ".ts"; "null.ts"
    case Named(s) => assert (s + ".ts")[|s|..] == ".ts"; s + ".ts"
  }

  /** The total length of the spans' texts. */
  function TextLength(spans: seq<ClassifiedSpan>): nat {
    if spans == [] then 0 else |spans[0].text| + TextLength(spans[1..])
  }

  /** The tokens `tokenizeTs` emits for `spans` when its column cursor starts at `startIndex`. */
  function TsTokens(spans: seq<ClassifiedSpan>, line: string, startIndex: nat): (r: seq<Token>)
    ensures |r| == |spans|
    decreases |spans|
  {
    if spans == [] then []
    else
      [Token(startIndex, TsScope(GetStyleForToken(spans[0], line, startIndex)))]
      + TsTokens(spans[1..], line, startIndex + |spans[0].text|)
  }

  /**
   * One token per span, in order and never merged: token `i` starts where the
   * texts of the spans before it end, and carries the style of span `i` with
   * the `.ts` suffix.
   */
  lemma {:induction false} TsTokenAt(spans: seq<ClassifiedSpan>, line: string, startIndex: nat, i: nat)
    requires i < |spans|
    ensures |TsTokens(spans, line, startIndex)| == |spans|
    ensures var at := startIndex + TextLength(spans[..i]);
      TsTokens(spans, line, startIndex)[i] == Token(at, TsScope(GetStyleForToken(spans[i], line, at)))
  {
    if i > 0 {
      TsTokenAt(spans[1..], line, startIndex + |spans[0].text|, i - 1);
      assert spans[..i][1..] == spans[1..][..i - 1];
      assert spans[1..][i - 1] == spans[i];
    } else {
      assert spans[..0] == [];
    }
  }

  /**
   * `tokenizeTs`: asks the program-aware classifier for the spans of the line
   * at the state's absolute offset and appends one token per span to the
   * tokens already in the result.
   */
  method TokenizeTs(classifierCache: ClassifierCache, state: TokenizerState.State, retTokens: seq<Token>, text: string)
    returns (tokens: seq<Token>)
    ensures tokens == retTokens + TsTokens(classifierCache(state.filePath, state.lineStartIndex, text), text, 0)
  {
    var classifications := classifierCache(state.filePath, state.lineStartIndex, text);
    tokens := retTokens;
    var startIndex: nat := 0;
    for i := 0 to |classifications|
      invariant tokens + TsTokens(classifications[i..], text, startIndex) == retTokens + TsTokens(classifications, text, 0)
    {
      var classifiedSpan := classifications[i];
      assert classifications[i..][1..] == classifications[i + 1..];
      tokens := tokens + [Token(startIndex, TsScope(GetStyleForToken(classifiedSpan, text, startIndex)))];
      startIndex := startIndex + |classifiedSpan.text|;
    }
  }
}

/**
 * The four constant style tables: for each dialect one table from bracket
 * characters to delimiter scopes and one from lexical token classes to scopes.
 * They are built once when the module loads and are only read afterwards.
 */
module StyleTables {
  import opened Classification
  import opened JsText

  const TsBracketTypeTable: map<char, string> := map[
    '(' := "delimiter.parenthesis.ts",
    ')' := "delimiter.parenthesis.ts",
    '{' := "delimiter.bracket.ts",
    '}' := "delimiter.bracket.ts",
    '[' := "delimiter.array.ts",
    ']' := "delimiter.array.ts"
  ]

  const TsTokenTypeTable: map<TokenClass, string> := map[
    Identifier := "identifier.ts",
    Keyword := "keyword.ts",
    Operator := "delimiter.ts",
    Punctuation := "delimiter.ts",
    NumberLiteral := "number.ts",
    RegExpLiteral := "regexp.ts",
    StringLiteral := "string.ts"
  ]

  const JsBracketTypeTable: map<char, string> := map[
    '(' := "delimiter.parenthesis.js",
    ')' := "delimiter.parenthesis.js",
    '{' := "delimiter.bracket.js",
    '}' := "delimiter.bracket.js",
    '[' := "delimiter.array.js",
    ']' := "delimiter.array.js"
  ]

  const JsTokenTypeTable: map<TokenClass, string> := map[
    Identifier := "identifier.js",
    Keyword := "keyword.js",
    Operator := "delimiter.js",
    Punctuation := "delimiter.js",
    NumberLiteral := "number.js",
    RegExpLiteral := "regexp.js",
    StringLiteral := "string.js"
  ]

  /** The bracket table a tokenizer created for `language` uses. */
  function BracketTypeTableFor(language: Language): map<char, string> {
    if language == TypeScript then TsBracketTypeTable else JsBracketTypeTable
  }

  /** The token type table a tokenizer created for `language` uses. */
  function TokenTypeTableFor(language: Language): map<TokenClass, string> {
    if language == TypeScript then TsTokenTypeTable else JsTokenTypeTable
  }

  /** The dialect suffix that lets a theme tell the two dialects apart. */
  function Suffix(language: Language): string {
    if language == TypeScript then ".ts" else ".js"
  }

  /** The delimiter kind of a bracket character. */
  function BracketKind(c: char): string {
    if c == '(' || c == ')' then "parenthesis"
    else if c == '{' || c == '}' then "bracket"
    else "array"
  }

  /** The scope of a token class, without the dialect suffix. */
  function TokenStem(c: TokenClass): string {
    match c
    case Identifier => "identifier"
    case Keyword => "keyword"
    case Operator => "delimiter"
    case Punctuation => "delimiter"
    case NumberLiteral => "number"
    case RegExpLiteral => "regexp"
    case StringLiteral => "string"
    case _ => ""
  }

  /**
   * Both bracket tables map exactly the six characters `( ) { } [ ]`, each to
   * the same delimiter scope followed by the table's dialect suffix.
   */
  lemma BracketTypeTableShape(language: Language, c: char)
    ensures c in BracketTypeTableFor(language) <==> c in "(){}[]"
    ensures c in BracketTypeTableFor(language) ==>
      BracketTypeTableFor(language)[c] == "delimiter." + BracketKind(c) + Suffix(language)
  {
    assert "(){}[]" == ['(', ')', '{', '}', '[', ']'];
    BracketScope(c, Suffix(language));
    if language == TypeScript {
      TsBracketTable(c);
    } else {
      JsBracketTable(c);
    }
  }

  lemma TsBracketTable(c: char)
    ensures c in TsBracketTypeTable <==> c in ['(', ')', '{', '}', '[', ']']
    ensures (c == '(' || c == ')') ==> TsBracketTypeTable[c] == "delimiter.parenthesis" + ".ts"
    ensures (c == '{' || c == '}') ==> TsBracketTypeTable[c] == "delimiter.bracket" + ".ts"
    ensures (c == '[' || c == ']') ==> TsBracketTypeTable[c] == "delimiter.array" + ".ts"
  {
    assert "delimiter.parenthesis" + ".ts" == "delimiter.parenthesis.ts";
    assert "delimiter.bracket" + ".ts" == "delimiter.bracket.ts";
    assert "delimiter.array" + ".ts" == "delimiter.array.ts";
  }

  lemma JsBracketTable(c: char)
    ensures c in JsBracketTypeTable <==> c in ['(', ')', '{', '}', '[', ']']
    ensures (c == '(' || c == ')') ==> JsBracketTypeTable[c] == "delimiter.parenthesis" + ".js"
    ensures (c == '{' || c == '}') ==> JsBracketTypeTable[c] == "delimiter.bracket" + ".js"
    ensures (c == '[' || c == ']') ==> JsBracketTypeTable[c] == "delimiter.array" + ".js"
  {
    assert "delimiter.parenthesis" + ".js" == "delimiter.parenthesis.js";
    assert "delimiter.bracket" + ".js" == "delimiter.bracket.js";
    assert "delimiter.array" + ".js" == "delimiter.array.js";
  }

  /** The scope of a bracket character with a given suffix, written out. */
  lemma BracketScope(c: char, suffix: string)
    ensures (c == '(' || c == ')') ==> "delimiter." + BracketKind(c) + suffix == "delimiter.parenthesis" + suffix
    ensures (c == '{' || c == '}') ==> "delimiter." + BracketKind(c) + suffix == "delimiter.bracket" + suffix
    ensures (c == '[' || c == ']') ==> "delimiter." + BracketKind(c) + suffix == "delimiter.array" + suffix
  {
    assert "delimiter." + "parenthesis" == "delimiter.parenthesis";
    assert "delimiter." + "bracket" == "delimiter.bracket";
    assert "delimiter." + "array" == "delimiter.array";
  }

  /**
   * Both token type tables map every class except `Comment` and `Whitespace`,
   * each to the same stem followed by the table's dialect suffix.
   */
  lemma TokenTypeTableShape(language: Language, c: TokenClass)
    ensures c in TokenTypeTableFor(language) <==> c != Comment && c != Whitespace
    ensures c in TokenTypeTableFor(language) ==>
      TokenTypeTableFor(language)[c] == TokenStem(c) + Suffix(language)
  {
    if language == TypeScript {
      TsTokenTable(c);
    } else {
      JsTokenTable(c);
    }
  }

  lemma TsTokenTable(c: TokenClass)
    ensures c in TsTokenTypeTable <==> c != Comment && c != Whitespace
    ensures c in TsTokenTypeTable ==> TsTokenTypeTable[c] == TokenStem(c) + ".ts"
  {
    assert "identifier" + ".ts" == "identifier.ts";
    assert "keyword" + ".ts" == "keyword.ts";
    assert "delimiter" + ".ts" == "delimiter.ts";
    assert "number" + ".ts" == "number.ts";
    assert "regexp" + ".ts" == "regexp.ts";
    assert "string" + ".ts" == "string.ts";
  }

  lemma JsTokenTable(c: TokenClass)
    ensures c in JsTokenTypeTable <==> c != Comment && c != Whitespace
    ensures c in JsTokenTypeTable ==> JsTokenTypeTable[c] == TokenStem(c) + ".js"
  {
    assert "identifier" + ".js" == "identifier.js";
    assert "keyword" + ".js" == "keyword.js";
    assert "delimiter" + ".js" == "delimiter.js";
    assert "number" + ".js" == "number.js";
    assert "regexp" + ".js" == "regexp.js";
    assert "string" + ".js" == "string.js";
  }

  /** Every scope in the tables of a dialect ends with that dialect's suffix. */
  lemma TableScopesCarrySuffix(language: Language)
    ensures forall c | c in BracketTypeTableFor(language) :: EndsWith(BracketTypeTableFor(language)[c], Suffix(language))
    ensures forall c | c in TokenTypeTableFor(language) :: EndsWith(TokenTypeTableFor(language)[c], Suffix(language))
  {
    forall c | c in BracketTypeTableFor(language)
      ensures EndsWith(BracketTypeTableFor(language)[c], Suffix(language))
    {
      BracketTypeTableShape(language, c);
      SuffixEndsWith("delimiter." + BracketKind(c), Suffix(language));
    }
    forall c | c in TokenTypeTableFor(language)
      ensures EndsWith(TokenTypeTableFor(language)[c], Suffix(language))
    {
      TokenTypeTableShape(language, c);
      SuffixEndsWith(TokenStem(c), Suffix(language));
    }
  }

  lemma SuffixEndsWith(stem: string, suffix: string)
    ensures EndsWith(stem + suffix, suffix)
  {
    assert (stem + suffix)[|stem|..] == suffix;
  }
}

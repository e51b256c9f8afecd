/**
 * The values the tokenizer exchanges with its two external classifiers and
 * with the editor host: dialects, token classes, end-of-line states,
 * classified spans and the tokens of a line.
 */
module Classification {

  /** The two dialects a tokenizer is created for. */
  datatype Language = TypeScript | EcmaScript5

  /** The token kinds reported by the lexical classifier (`ts.TokenClass`). */
  datatype TokenClass =
    | Punctuation
    | Keyword
    | Operator
    | Comment
    | Whitespace
    | Identifier
    | NumberLiteral
    | StringLiteral
    | RegExpLiteral

  /** Where the lexical classifier stopped at the end of a line (`ts.EndOfLineState`). */
  datatype EndOfLineState =
    | None
    | InMultiLineCommentTrivia
    | InSingleQuoteStringLiteral
    | InDoubleQuoteStringLiteral
    | InTemplateHeadOrNoSubstitutionTemplate
    | InTemplateMiddleOrTail
    | InTemplateSubstitutionPosition

  /**
   * The codes reported by the program-aware classifier (`ts.ClassificationType`),
   * under the names the classifier gives them.
   */
  datatype ClassificationType =
    | comment
    | identifier
    | keyword
    | numericLiteral
    | operator
    | stringLiteral
    | regularExpressionLiteral
    | whiteSpace
    | text
    | punctuation
    | className
    | enumName
    | interfaceName
    | moduleName
    | typeParameterName
    | typeAliasName
    | parameterName
    | docCommentTagName
    | jsxOpenTagName
    | jsxCloseTagName
    | jsxSelfClosingTagName
    | jsxAttribute
    | jsxText
    | jsxAttributeStringLiteralValue

  /** One entry of the lexical classifier's result: a length and a class. */
  datatype ClassificationInfo = ClassificationInfo(length: nat, classification: TokenClass)

  /** What the lexical classifier reports for one line. */
  datatype ClassificationResult = ClassificationResult(finalLexState: EndOfLineState, entries: seq<ClassificationInfo>)

  /** One span of the program-aware classifier: its text and its code. */
  datatype ClassifiedSpan = ClassifiedSpan(text: string, classificationType: ClassificationType)

  /** A token handed to the editor: where it starts in the line and its scope. */
  datatype Token = Token(startIndex: nat, scopes: string)

  /**
   * The lexical classifier `getClassificationsForLine(text, lexState, true)`:
   * the line text and the prior end-of-line state give the entries and the
   * final state.
   */
  type Classifier = (string, EndOfLineState) -> ClassificationResult

  /**
   * The program-aware classifier `getClassificationsForLine(filePath,
   * lineStartIndex, text)`.
   */
  type ClassifierCache = (string, nat, string) -> seq<ClassifiedSpan>
}

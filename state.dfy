/**
 * The per-line state: everything needed to resume tokenizing at the next
 * line. `StateValue` is its six fields as a value; `State` is the object the
 * editor host holds, whose constructor assigns the fields and whose fields the
 * lexical path updates while it builds a line's end state.
 */
module TokenizerState {
  import opened Classification

  datatype StateValue = StateValue(
    language: Language,
    eolState: EndOfLineState,
    inJsDocComment: bool,
    filePath: string,
    lineNumber: nat,
    lineStartIndex: nat)

  /**
   * The field comparison behind `State.equals`: every field except the
   * dialect.
   */
  predicate SameState(a: StateValue, b: StateValue) {
    a.eolState == b.eolState
    && a.inJsDocComment == b.inJsDocComment
    && a.filePath == b.filePath
    && a.lineNumber == b.lineNumber
    && a.lineStartIndex == b.lineStartIndex
  }

  /** Two states compare equal exactly when they agree once the dialect is set aside. */
  lemma SameStateIgnoresOnlyLanguage(a: StateValue, b: StateValue)
    ensures SameState(a, b) <==> a.(language := b.language) == b
  {
  }

  /** The comparison is an equivalence. */
  lemma SameStateIsEquivalence(a: StateValue, b: StateValue, c: StateValue)
    ensures SameState(a, a)
    ensures SameState(a, b) ==> SameState(b, a)
    ensures SameState(a, b) && SameState(b, c) ==> SameState(a, c)
  {
  }

  /**
   * What the host may hand to `equals`: a `State` object (of any support, as
   * they share the class), or anything else, such as a missing value or a
   * state object of another class.
   */
  datatype HostState = OfTokenizer(state: State) | Foreign

  class State {
    var language: Language
    var eolState: EndOfLineState
    var inJsDocComment: bool
    var filePath: string
    var lineNumber: nat
    var lineStartIndex: nat

    /** The six fields as a value. */
    function Value(): StateValue
      reads this
    {
      StateValue(language, eolState, inJsDocComment, filePath, lineNumber, lineStartIndex)
    }

    /** `new State(config)`: copies each field of the configuration. */
    constructor (config: StateValue)
      ensures Value() == config
    {
      language := config.language;
      eolState := config.eolState;
      inJsDocComment := config.inJsDocComment;
      filePath := config.filePath;
      lineNumber := config.lineNumber;
      lineStartIndex := config.lineStartIndex;
    }

    /** `clone`: a new object with all six fields copied, equal to this one. */
    method Clone() returns (c: State)
      ensures fresh(c)
      ensures c.Value() == Value()
      ensures Equals(OfTokenizer(c))
    {
      c := new State(Value());
    }

    /**
     * `equals`: true for this very object, false for anything that is not a
     * state of this tokenizer, and otherwise the field comparison. The shortcut
     * for the same object agrees with the field comparison.
     */
    function Equals(other: HostState): (r: bool)
      reads this, if other.OfTokenizer? then {other.state} else {}
      ensures r <==> other.OfTokenizer? && SameState(Value(), other.state.Value())
      ensures other == OfTokenizer(this) ==> r
    {
      if other == OfTokenizer(this) then true
      else if !other.OfTokenizer? then false
      else
        var o := other.state;
        eolState == o.eolState
        && inJsDocComment == o.inJsDocComment
        && filePath == o.filePath
        && lineNumber == o.lineNumber
        && lineStartIndex == o.lineStartIndex
    }
  }
}

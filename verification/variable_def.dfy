/**
 * `AsciiParser::VariableDef`: the description of one recognised metadatum
 * (its declared type, its name, whether `type[]` is accepted too, and the
 * validator run on its text after parsing).
 */
module VariableDefs {
  import opened Expected

  /**
   * A `PostParseHandler` is a `std::function`, which may be empty. Apart from
   * `DefaultPostParseHandler`, handlers are supplied from outside the parser
   * and are known here only by an opaque id.
   */
  datatype PostParseHandler = EmptyHandler | DefaultHandler | CustomHandler(id: nat)

  datatype VariableDef = VariableDef(
    typeName: string,
    name: string,
    allowArrayType: bool,
    postParseHandler: PostParseHandler)

  /** The outcome of invoking a `std::function`. */
  datatype Call<+R> = Returned(result: R) | BadFunctionCall

  /** The default validator accepts every input text. */
  function DefaultPostParseHandler(text: string): (r: Expected<bool, string>)
    ensures r.Value? && r.value
  {
    Value(true)
  }

  /**
   * Invokes a post-parse handler on `text`. The results of handlers supplied
   * from outside are given by `foreign`; invoking an empty `std::function`
   * throws `std::bad_function_call`.
   */
  function CallPostParseHandler(h: PostParseHandler, text: string,
                                foreign: (nat, string) -> Expected<bool, string>): Call<Expected<bool, string>>
  {
    match h
    case EmptyHandler => BadFunctionCall
    case DefaultHandler => Returned(DefaultPostParseHandler(text))
    case CustomHandler(id) => Returned(foreign(id, text))
  }

  /** `VariableDef()`: every member default-initialised, so the handler is empty. */
  function EmptyVariableDef(): VariableDef
  {
    VariableDef("", "", false, EmptyHandler)
  }

  /** `VariableDef(t, n, a = false, ph = DefaultPostParseHandler)`. */
  function NewVariableDef(t: string, n: string, a: bool := false,
                          ph: PostParseHandler := DefaultHandler): VariableDef
  {
    VariableDef(t, n, a, ph)
  }

  /**
   * A definition built from a type and a name alone does not accept the
   * array form, and its validator accepts whatever text it is given.
   */
  lemma TwoArgumentDefinitionDefaults(t: string, n: string, text: string,
                                      foreign: (nat, string) -> Expected<bool, string>)
    ensures NewVariableDef(t, n).typeName == t && NewVariableDef(t, n).name == n
    ensures !NewVariableDef(t, n).allowArrayType
    ensures CallPostParseHandler(NewVariableDef(t, n).postParseHandler, text, foreign) == Returned(Value(true))
  {
  }

  /** A default-constructed definition has no validator to call. */
  lemma EmptyDefinitionHasNoHandler(text: string, foreign: (nat, string) -> Expected<bool, string>)
    ensures EmptyVariableDef().typeName == "" && EmptyVariableDef().name == ""
    ensures !EmptyVariableDef().allowArrayType
    ensures CallPostParseHandler(EmptyVariableDef().postParseHandler, text, foreign) == BadFunctionCall
  {
  }
}

/**
 * Stages from the library: the text rendering of `FormatPrintToConsole`.
 * Printing itself is not modelled; `render` stands for Python's `str`.
 */
module Library {
  import opened Wrappers

  /** `FormatPrintToConsole`: three optional formatters from a value to text. */
  datatype FormatPrintToConsole<!V> = FormatPrintToConsole(
    contentFormatter: Option<V -> string>,
    prefixFormatter: Option<V -> string>,
    postfixFormatter: Option<V -> string>)
  {
    /** The prefix part: the prefix formatter's text, or nothing. */
    function Prefix(x: V): string {
      if prefixFormatter.Some? then prefixFormatter.value(x) else ""
    }

    /** The content part: the content formatter's text, or the default rendering of `x`. */
    function Content(render: V -> string, x: V): string {
      if contentFormatter.Some? then contentFormatter.value(x) else render(x)
    }

    /** The postfix part: the postfix formatter's text, or nothing. */
    function Postfix(x: V): string {
      if postfixFormatter.Some? then postfixFormatter.value(x) else ""
    }

    /** `to_string(input)`: the prefix, the content and the postfix, in that order. */
    function ToString(render: V -> string, x: V): string {
      Prefix(x) + Content(render, x) + Postfix(x)
    }
  }

  /** With no formatters, the text is just the default rendering of the value. */
  lemma NoFormatters<V>(render: V -> string, x: V)
    ensures FormatPrintToConsole(None, None, None).ToString(render, x) == render(x)
  {
  }

  /** An absent prefix or postfix formatter contributes nothing. */
  lemma AbsentFormattersAddNothing<V>(p: FormatPrintToConsole<V>, render: V -> string, x: V)
    ensures p.prefixFormatter.None? ==> p.ToString(render, x) == p.Content(render, x) + p.Postfix(x)
    ensures p.postfixFormatter.None? ==> p.ToString(render, x) == p.Prefix(x) + p.Content(render, x)
  {
  }

  /**
   * A content formatter replaces the default rendering rather than adding to
   * it: the text no longer depends on how the value would print by default.
   */
  lemma ContentReplacesDefault<V>(p: FormatPrintToConsole<V>, render1: V -> string, render2: V -> string, x: V)
    requires p.contentFormatter.Some?
    ensures p.ToString(render1, x) == p.ToString(render2, x)
    ensures p.ToString(render1, x) == p.Prefix(x) + p.contentFormatter.value(x) + p.Postfix(x)
  {
  }
}

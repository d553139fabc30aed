/** Facts about line breaks shared by both display texts. */
module Lines {

  predicate NoNewline(s: string)
  {
    '\n' !in s
  }

  /** Joining two pieces without a line break gives a piece without one. */
  lemma NoNewlineConcat(x: string, y: string)
    requires NoNewline(x) && NoNewline(y)
    ensures NoNewline(x + y)
  {
  }
}

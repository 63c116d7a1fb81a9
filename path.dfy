/**
 * The path cursor of the form parser: a slash-delimited string naming the
 * elements that are open, from the document root to the current position.
 */
module Path {
  import opened Chars

  /** Opening element `tag` appends `/tag` to the cursor. */
  function Push(path: string, tag: string): (r: string)
    ensures |r| == |path| + |tag| + 1 && r[..|path|] == path && r[|path|..] == "/" + tag
    ensures EndsWithFold(r, "/" + tag)
  {
    path + "/" + tag
  }

  /**
   * Closing element `tag` removes a trailing `/tag`, matched without regard to
   * the case of ASCII letters; when the cursor does not end that way it is
   * left as it is (the cursor is not a strict stack).
   */
  function Pop(path: string, tag: string): (r: string)
    ensures r == path || (|r| + |tag| + 1 == |path| && r == path[..|r|])
    ensures r != path <==> EndsWithFold(path, "/" + tag)
  {
    var segment := "/" + tag;
    if EndsWithFold(path, segment) then path[..|path| - |segment|] else path
  }

  /** Closing an element whose name differs only in case from the one just opened restores the cursor. */
  lemma PopPush(path: string, openTag: string, closed: string)
    requires EqualsFold(openTag, closed)
    ensures Pop(Push(path, openTag), closed) == path
  {
  }
}

/** A field of the source that may be null or undefined. The source compares both with `?? null`,
    so the model keeps one absent value. */
module Option {
  datatype Option<+T> = None | Some(value: T) {
    function Or(other: Option<T>): Option<T> {
      if Some? then this else other
    }

    function GetOr(default: T): T {
      match this
      case Some(v) => v
      case None => default
    }
  }

  /** JavaScript truthiness of an optional string: null, undefined and "" are all falsy. */
  predicate Truthy(s: Option<string>) {
    s.Some? && s.value != ""
  }

  /** The white space that JavaScript's `trim` removes. */
  predicate IsSpace(c: char) {
    || c == ' ' || '\t' <= c <= '\r' || c == '\U{a0}' || c == '\U{1680}' || '\U{2000}' <= c <= '\U{200a}'
    || c == '\U{2028}' || c == '\U{2029}' || c == '\U{202f}' || c == '\U{205f}' || c == '\U{3000}' || c == '\U{feff}'
  }

  /** The same by code points. */
  predicate IsSpaceCode(n: int) {
    9 <= n <= 13 || n == 32 || n == 160 || n == 5760 || 8192 <= n <= 8202 || n in {8232, 8233, 8239, 8287, 12288, 65279}
  }

  lemma SpaceCodes(c: char)
    ensures IsSpace(c) <==> IsSpaceCode(c as int)
  {
  }

  /** `!s.trim()` */
  predicate Blank(s: string) {
    forall i :: 0 <= i < |s| ==> IsSpace(s[i])
  }

  predicate SaysSomething(s: string) {
    exists i :: 0 <= i < |s| && !IsSpace(s[i])
  }

  lemma BlankSaysNothing(s: string)
    ensures Blank(s) <==> !SaysSomething(s)
  {
  }
}

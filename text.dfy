/**
 * Character classes and string helpers used by the command patterns and
 * by the help catalogue. Strings are sequences of characters; the regular
 * expressions involved use no flags, so `\w`, `\d` and `.` keep their
 * ASCII meaning from the JavaScript regular-expression grammar.
 */
module Text {

  /** `\w`: [A-Za-z0-9_] */
  predicate IsWordChar(c: char) {
    ('a' <= c <= 'z') || ('A' <= c <= 'Z') || ('0' <= c <= '9') || c == '_'
  }

  /** `\d`: [0-9] */
  predicate IsDigit(c: char) {
    '0' <= c <= '9'
  }

  /** The characters `.` does not match: LF, CR, LINE SEPARATOR, PARAGRAPH SEPARATOR. */
  predicate IsLineTerminator(c: char) {
    c == '\n' || c == '\r' || c == '\U{2028}' || c == '\U{2029}'
  }

  /** A match of `\w+`. */
  predicate IsWord(s: string) {
    |s| > 0 && forall i :: 0 <= i < |s| ==> IsWordChar(s[i])
  }

  /** A match of `\d+`. */
  predicate IsDigits(s: string) {
    |s| > 0 && forall i :: 0 <= i < |s| ==> IsDigit(s[i])
  }

  /** A match of `.*`. */
  predicate NoLineTerminator(s: string) {
    forall i :: 0 <= i < |s| ==> !IsLineTerminator(s[i])
  }

  predicate StartsWith(s: string, prefix: string) {
    |prefix| <= |s| && s[..|prefix|] == prefix
  }

  /** `n` space characters. */
  function Spaces(n: nat): string
  {
    seq(n, _ => ' ')
  }

  /** A string whose first `n` characters are spaces is `n` spaces and the rest. */
  lemma LeadingSpaces(t: string, n: nat)
    requires n <= |t| && forall i :: 0 <= i < n ==> t[i] == ' '
    ensures t == Spaces(n) + t[n..]
  {
    assert t[..n] == Spaces(n);
    assert t == t[..n] + t[n..];
  }

  /** Array.prototype.join: the elements separated by `sep`. */
  function Join(xs: seq<string>, sep: string): string
  {
    if |xs| == 0 then ""
    else if |xs| == 1 then xs[0]
    else Join(xs[..|xs| - 1], sep) + sep + xs[|xs| - 1]
  }

  /** Five lines joined: each line, with `sep` between neighbours. */
  lemma JoinFive(a: string, b: string, c: string, d: string, e: string, sep: string)
    ensures Join([a, b, c, d, e], sep) == a + sep + b + sep + c + sep + d + sep + e
  {
    var xs := [a, b, c, d, e];
    assert xs[..1] == [a];
    assert xs[..2][..1] == [a];
    assert xs[..3][..2] == xs[..2];
    assert xs[..4][..3] == xs[..3];
    assert xs[..4] == xs[..|xs| - 1];
    assert Join(xs[..2], sep) == a + sep + b;
    assert Join(xs[..3], sep) == a + sep + b + sep + c;
    assert Join(xs[..4], sep) == a + sep + b + sep + c + sep + d;
  }
}

/** The localisation layer (`intl.str`, `intl.todo`), left uninterpreted. */
module Localization {

  /**
   * `str(key, substitutions)` looks up a localised template; `todo(text)`
   * marks text that has no translation yet. Both are parameters of the
   * model: nothing is assumed about what they return.
   */
  datatype Intl = Intl(str: (string, map<string, string>) -> string, todo: string -> string)
}

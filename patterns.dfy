/**
 * The regular expressions of the instant-command table
 * (src/js/sandbox/commands.js), one `Exec` per pattern. `Exec(p, s)` is
 * `p.exec(s)`: `None` when `p` does not match, otherwise the match array,
 * whose element 0 is the matched text and element `i` is capture group `i`
 * (`None` for a group that did not take part in the match).
 */
module Patterns {
  import opened Wrappers
  import opened Text

  type Captures = seq<Option<string>>

  datatype Pattern =
    | Ls                        // /^ls( |$)/
    | Cd                        // /^cd( |$)/
    | LocaleOrReset             // /^(locale|locale reset)$/
    | Show                      // /^show$/
    | Alias                     // /^alias (\w+)="(.+)"$/
    | Unalias                   // /^unalias (\w+)$/
    | LocaleToken               // /^locale (\w+)$/
    | Flip                      // /^flip$/
    | DisableLevelInstructions  // /^disableLevelInstructions$/
    | Refresh                   // /^refresh$/
    | Rollup                    // /^rollup (\d+)$/
    | Echo                      // /^echo "(.*?)"$|^echo (.*?)$/
    | ShowCommands              // /^show +commands$/

  function Exec(p: Pattern, s: string): Option<Captures> {
    match p
    case Ls => ExecWordThenSpaceOrEnd("ls", s)
    case Cd => ExecWordThenSpaceOrEnd("cd", s)
    case LocaleOrReset =>
      if s == "locale" || s == "locale reset" then Some([Some(s), Some(s)]) else None
    case Show => ExecExact("show", s)
    case Alias => ExecAlias(s)
    case Unalias => ExecArgument("unalias ", s, false)
    case LocaleToken => ExecArgument("locale ", s, false)
    case Flip => ExecExact("flip", s)
    case DisableLevelInstructions => ExecExact("disableLevelInstructions", s)
    case Refresh => ExecExact("refresh", s)
    case Rollup => ExecArgument("rollup ", s, true)
    case Echo => ExecEcho(s)
    case ShowCommands => ExecShowCommands(s)
  }

  /** `^show +commands$`: `show`, then spaces, the first of which is at index 4, then `commands`. */
  function ExecShowCommands(s: string): Option<Captures> {
    if StartsWith(s, "show ") && DropSpaces(s[4..]) == "commands" then Some([Some(s)]) else None
  }

  /** `^w( |$)`: the bare word, or the word and a space followed by anything. */
  function ExecWordThenSpaceOrEnd(w: string, s: string): Option<Captures> {
    if s == w then Some([Some(w), Some("")])
    else if StartsWith(s, w + " ") then Some([Some(w + " "), Some(" ")])
    else None
  }

  /** `^w$` */
  function ExecExact(w: string, s: string): Option<Captures> {
    if s == w then Some([Some(s)]) else None
  }

  /** `^prefix(\w+)$`, or `^prefix(\d+)$` when `digits` holds. */
  function ExecArgument(prefix: string, s: string, digits: bool): Option<Captures> {
    if StartsWith(s, prefix) && (if digits then IsDigits(s[|prefix|..]) else IsWord(s[|prefix|..]))
    then Some([Some(s), Some(s[|prefix|..])])
    else None
  }

  /**
   * `^alias (\w+)="(.+)"$`. The greedy `\w+` can only stop where the `=`
   * is, so the name is the longest run of word characters after
   * `alias `; the expansion is everything between `="` and the final `"`,
   * which may itself contain quotes.
   */
  function ExecAlias(s: string): Option<Captures> {
    if !StartsWith(s, "alias ") then None
    else
      var rest := s[6..];
      var n := WordPrefixLength(rest);
      if n == 0 || |rest| < n + 4 || rest[n] != '=' || rest[n + 1] != '"' || rest[|rest| - 1] != '"' then None
      else if !NoLineTerminator(rest[n + 2..|rest| - 1]) then None
      else Some([Some(s), Some(rest[..n]), Some(rest[n + 2..|rest| - 1])])
  }

  /**
   * `^echo "(.*?)"$|^echo (.*?)$`. The first alternative is tried first and
   * captures the text between the quotes; otherwise the second captures
   * everything after `echo `. Neither may span a line terminator.
   */
  function ExecEcho(s: string): Option<Captures> {
    if !StartsWith(s, "echo ") || !NoLineTerminator(s[5..]) then None
    else
      var rest := s[5..];
      if |rest| >= 2 && rest[0] == '"' && rest[|rest| - 1] == '"'
      then Some([Some(s), Some(rest[1..|rest| - 1]), None])
      else Some([Some(s), None, Some(rest)])
  }

  /** Length of the longest prefix of `s` made of word characters. */
  function WordPrefixLength(s: string): (n: nat)
    ensures n <= |s|
    ensures forall i :: 0 <= i < n ==> IsWordChar(s[i])
    ensures n < |s| ==> !IsWordChar(s[n])
  {
    if s == [] || !IsWordChar(s[0]) then 0 else 1 + WordPrefixLength(s[1..])
  }

  /** `s` without its leading spaces. */
  function DropSpaces(s: string): (r: string)
    ensures |r| <= |s| && r == s[|s| - |r|..]
    ensures forall i :: 0 <= i < |s| - |r| ==> s[i] == ' '
    ensures r == [] || r[0] != ' '
  {
    if s != [] && s[0] == ' ' then DropSpaces(s[1..]) else s
  }

  /** The alias pattern matches exactly `alias n="e"` with `n` a word and `e` a non-empty line, capturing both. */
  lemma AliasMatches(n: string, e: string)
    requires IsWord(n) && e != [] && NoLineTerminator(e)
    ensures Exec(Alias, "alias " + n + "=\"" + e + "\"") == Some([Some("alias " + n + "=\"" + e + "\""), Some(n), Some(e)])
  {
    var s := "alias " + n + "=\"" + e + "\"";
    var tail := "=\"" + e + "\"";
    assert s == "alias " + (n + tail);
    assert s[..6] == "alias " && s[6..] == n + tail;
    WordThenTail(n, tail);
    AliasTail(s, n, e, tail);
  }

  /** The word prefix of `n + tail` is `n` when `tail` starts with something other than a word character. */
  lemma WordThenTail(n: string, tail: string)
    requires IsWord(n) && tail != [] && !IsWordChar(tail[0])
    ensures WordPrefixLength(n + tail) == |n|
  {
    var rest := n + tail;
    assert forall i :: 0 <= i < |n| ==> rest[i] == n[i];
    assert rest[|n|] == tail[0];
  }

  lemma AliasTail(s: string, n: string, e: string, tail: string)
    requires IsWord(n) && e != [] && NoLineTerminator(e)
    requires tail == "=\"" + e + "\""
    requires |s| >= 6 && s[..6] == "alias " && s[6..] == n + tail && WordPrefixLength(s[6..]) == |n|
    ensures Exec(Alias, s) == Some([Some(s), Some(n), Some(e)])
  {
    var rest := s[6..];
    assert rest[..|n|] == n;
    assert rest[|n|..] == tail;
    assert rest[|n| + 2..|rest| - 1] == e;
  }

  lemma AliasMatchIsSound(s: string)
    requires Exec(Alias, s).Some?
    ensures var bits := Exec(Alias, s).value;
      && |bits| == 3 && bits[1].Some? && bits[2].Some?
      && IsWord(bits[1].value) && bits[2].value != [] && NoLineTerminator(bits[2].value)
      && s == "alias " + bits[1].value + "=\"" + bits[2].value + "\""
  {
    var rest := s[6..];
    var n := WordPrefixLength(rest);
    assert rest == rest[..n] + "=\"" + rest[n + 2..|rest| - 1] + "\"";
    assert s == s[..6] + rest;
  }

  /** `^show +commands$` matches `show`, one or more spaces, then `commands`, and nothing else. */
  lemma ShowCommandsMatches(k: nat)
    requires k >= 1
    ensures Exec(ShowCommands, "show" + Spaces(k) + "commands").Some?
  {
    var sp := Spaces(k);
    var s := "show" + sp + "commands";
    assert s[4..] == sp + "commands";
    assert s[..5] == "show " by {
      assert s[..4] == "show";
      assert s[4] == sp[0] == ' ';
      assert s[..5] == s[..4] + [s[4]];
    }
    DropSpacesOf(k, "commands");
  }

  lemma ShowCommandsMatchIsSound(s: string)
    requires Exec(ShowCommands, s).Some?
    ensures |s| >= 13 && s == "show" + Spaces(|s| - 12) + "commands"
  {
    var tail := s[4..];
    SpacesThenWord(tail, "commands");
    ShowCommandsShape(s, |tail| - 8);
  }

  lemma ShowCommandsShape(s: string, k: nat)
    requires |s| >= 5 && s[..5] == "show " && s[4..] == Spaces(k) + "commands"
    ensures |s| >= 13 && s == "show" + Spaces(|s| - 12) + "commands"
  {
    assert s[..4] == "show" by {
      assert s[..4] == s[..5][..4];
    }
    assert s[4] == s[..5][4] == ' ';
    assert (Spaces(k) + "commands")[0] == ' ';
    assert k >= 1;
    assert |s[4..]| == k + 8;
    assert s == s[..4] + s[4..];
    assert "show" + (Spaces(k) + "commands") == "show" + Spaces(k) + "commands";
  }

  lemma SpacesThenWord(t: string, w: string)
    requires DropSpaces(t) == w
    ensures |t| >= |w| && t == Spaces(|t| - |w|) + w
  {
    LeadingSpaces(t, |t| - |w|);
  }

  lemma {:induction false} DropSpacesOf(k: nat, t: string)
    requires t == [] || t[0] != ' '
    ensures DropSpaces(Spaces(k) + t) == t
    decreases k
  {
    if k > 0 {
      assert (Spaces(k) + t)[1..] == Spaces(k - 1) + t;
      DropSpacesOf(k - 1, t);
    }
  }

  /** `echo "t"` takes the first alternative and captures `t`. */
  lemma EchoQuotedMatches(t: string)
    requires NoLineTerminator(t)
    ensures Exec(Echo, "echo \"" + t + "\"") == Some([Some("echo \"" + t + "\""), Some(t), None])
  {
    var s := "echo \"" + t + "\"";
    assert s[5..] == "\"" + t + "\"";
    assert s[5..][1..|s[5..]| - 1] == t;
  }

  /** `echo t`, with `t` not wrapped in quotes, takes the second alternative and captures `t`. */
  lemma EchoPlainMatches(t: string)
    requires NoLineTerminator(t)
    requires !(|t| >= 2 && t[0] == '"' && t[|t| - 1] == '"')
    ensures Exec(Echo, "echo " + t) == Some([Some("echo " + t), None, Some(t)])
  {
    assert ("echo " + t)[5..] == t;
  }

  /** The literal text every match of a pattern begins with. */
  function Lead(p: Pattern): string {
    match p
    case Ls => "ls"
    case Cd => "cd"
    case LocaleOrReset => "locale"
    case Show => "show"
    case Alias => "alias "
    case Unalias => "unalias "
    case LocaleToken => "locale "
    case Flip => "flip"
    case DisableLevelInstructions => "disableLevelInstructions"
    case Refresh => "refresh"
    case Rollup => "rollup "
    case Echo => "echo "
    case ShowCommands => "show "
  }

  /** Every pattern is anchored at the start of the input by its leading text. */
  lemma MatchStartsWithLead(p: Pattern, s: string)
    requires Exec(p, s).Some?
    ensures StartsWith(s, Lead(p))
  {
    match p
    case Ls =>
      if s != "ls" {
        assert s[..2] == s[..3][..2];
      }
    case Cd =>
      if s != "cd" {
        assert s[..2] == s[..3][..2];
      }
    case LocaleOrReset =>
      if s != "locale" {
        assert s[..6] == "locale reset"[..6];
      }
    case _ =>
  }
}

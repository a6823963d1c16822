/**
 * The instant commands of the sandbox (src/js/sandbox/commands.js:18-174):
 * what each handler answers and which store state and events it changes.
 *
 * In the source every handler ends by throwing a `CommandResult`; here the
 * result is returned. The stores the handlers touch (`LocaleStore`,
 * `GlobalStateStore`, `LevelStore`) are fields updated in place, and the
 * event bus is an append-only log.
 */
module Sandbox {
  import opened Wrappers
  import opened Text
  import opened Localization
  import opened JsObject
  import opened Patterns
  import opened InstantTable
  import AllCommands
  import Catalogue

  /** What an instant handler throws: always a `CommandResult` carrying a message. */
  datatype Outcome = CommandResult(msg: string)

  /** The events the handlers trigger on the application's event bus. */
  datatype Event = RefreshTree | RollupCommands(count: string)

  /** A triggered event together with the `flipTreeY` value its listeners see. */
  datatype Fired = Fired(event: Event, flipTreeY: bool)

  /** The store state the instant handlers read and write. */
  datatype Stores = Stores(
    locale: string,
    flipTreeY: bool,
    levelInstructionsDisabled: bool,
    aliasMap: map<string, string>,
    events: seq<Fired>)

  /**
   * What the handlers read but never change: the default locale, the
   * localisation functions, the level's command table, and the engine's
   * command and option tables.
   */
  datatype Env = Env(
    defaultLocale: string,
    intl: Intl,
    levelRegexMap: Obj<string>,
    engineRegexMap: AllCommands.EngineTable<string>,
    engineOptionMap: Catalogue.OptionTable)

  const ShowTopics: seq<string> := ["show commands", "show solution", "show goal"]

  /** The message of `show`: its localised title, a break, then the three sub-topics, one per line. */
  function ShowMessage(intl: Intl): string {
    Join([intl.str("show-command", map[]), Catalogue.Break] + ShowTopics, "\n")
  }

  function AliasMessage(name: string, expansion: string): string {
    "Set alias \"" + name + "\" to \"" + expansion + "\""
  }

  function UnaliasMessage(name: string): string {
    "Removed alias \"" + name + "\""
  }

  /** The message of `show commands`: the catalogue's lines joined with newlines. */
  function CatalogueMessage(env: Env): string {
    Join(Catalogue.CatalogueLines(env.intl.str("show-all-commands", map[]),
                                  env.levelRegexMap, env.engineRegexMap, env.engineOptionMap), "\n")
  }

  /**
   * `bits[1] || bits[2]` as written: the quoted text when it is a non-empty
   * string, otherwise the unquoted capture, `None` when that is undefined.
   */
  function EchoMessageAsWritten(bits: Captures): Option<string>
    requires |bits| == 3
  {
    if bits[1].Some? && bits[1].value != "" then bits[1] else bits[2]
  }

  /** The echo message as intended: the quoted text when the first alternative matched, else the plain text. */
  function EchoMessage(bits: Captures): string
    requires |bits| == 3 && (bits[1].Some? || bits[2].Some?)
  {
    if bits[1].Some? then bits[1].value else bits[2].value
  }

  /**
   * The handler of the entry with pattern `p`, given the match array `bits`
   * of `s`; `catalogue` is the text `show commands` prints, which `Instant`
   * supplies as `CatalogueMessage(env)`.
   */
  function Respond(p: Pattern, s: string, bits: Captures, st: Stores, env: Env, catalogue: string): (Outcome, Stores)
    requires Exec(p, s) == Some(bits)
  {
    match p
    case Ls => (CommandResult(env.intl.str("ls-command", map[])), st)
    case Cd => (CommandResult(env.intl.str("cd-command", map[])), st)
    case LocaleOrReset =>
      (CommandResult(env.intl.str("locale-reset-command", map["locale" := env.defaultLocale])),
       st.(locale := env.defaultLocale))
    case Show => (CommandResult(ShowMessage(env.intl)), st)
    case Alias =>
      var name, expansion := bits[1].value, bits[2].value;
      (CommandResult(AliasMessage(name, expansion)), st.(aliasMap := st.aliasMap[name := expansion]))
    case Unalias =>
      var name := bits[1].value;
      (CommandResult(UnaliasMessage(name)), st.(aliasMap := st.aliasMap - {name}))
    case LocaleToken =>
      var locale := bits[1].value;
      (CommandResult(env.intl.str("locale-command", map["locale" := locale])), st.(locale := locale))
    case Flip =>
      var flipped := !st.flipTreeY;
      (CommandResult(env.intl.str("flip-tree-command", map[])),
       st.(flipTreeY := flipped, events := st.events + [Fired(RefreshTree, flipped)]))
    case DisableLevelInstructions =>
      (CommandResult(env.intl.todo("Level instructions disabled")), st.(levelInstructionsDisabled := true))
    case Refresh =>
      (CommandResult(env.intl.str("refresh-tree-command", map[])),
       st.(events := st.events + [Fired(RefreshTree, st.flipTreeY)]))
    case Rollup =>
      (CommandResult("Commands combined!"),
       st.(events := st.events + [Fired(RollupCommands(bits[1].value), st.flipTreeY)]))
    case Echo => (CommandResult(EchoMessage(bits)), st)
    case ShowCommands => (CommandResult(catalogue), st)
  }

  /**
   * The instant command for `s`: `None` when no entry matches (the input is
   * then left to the other parsers), otherwise the first matching entry's
   * result and the new store state.
   */
  function Instant(s: string, st: Stores, env: Env, catalogue: string): Option<(Outcome, Stores)> {
    match FirstHit(s)
    case None => None
    case Some(hit) => Some(Respond(InstantCommands[hit.index].pattern, s, hit.bits, st, env, catalogue))
  }

  /** The stores, updated in place by the handlers. */
  class SandboxStores {
    var locale: string
    var flipTreeY: bool
    var levelInstructionsDisabled: bool
    var aliasMap: map<string, string>
    var events: seq<Fired>

    function State(): Stores
      reads this
    {
      Stores(locale, flipTreeY, levelInstructionsDisabled, aliasMap, events)
    }

    constructor(st: Stores)
      ensures State() == st
    {
      locale := st.locale;
      flipTreeY := st.flipTreeY;
      levelInstructionsDisabled := st.levelInstructionsDisabled;
      aliasMap := st.aliasMap;
      events := st.events;
    }

    /** `LocaleActions.changeLocale` */
    method ChangeLocale(l: string)
      modifies this
      ensures State() == old(State()).(locale := l)
    {
      locale := l;
    }

    /** `GlobalStateActions.changeFlipTreeY` */
    method ChangeFlipTreeY(flip: bool)
      modifies this
      ensures State() == old(State()).(flipTreeY := flip)
    {
      flipTreeY := flip;
    }

    /** `GlobalStateActions.disableLevelInstructions` */
    method DisableLevelInstructions()
      modifies this
      ensures State() == old(State()).(levelInstructionsDisabled := true)
    {
      levelInstructionsDisabled := true;
    }

    /** `LevelStore.addToAliasMap` */
    method AddToAliasMap(name: string, expansion: string)
      modifies this
      ensures State() == old(State()).(aliasMap := old(aliasMap)[name := expansion])
    {
      aliasMap := aliasMap[name := expansion];
    }

    /** `LevelStore.removeFromAliasMap` */
    method RemoveFromAliasMap(name: string)
      modifies this
      ensures State() == old(State()).(aliasMap := old(aliasMap) - {name})
    {
      aliasMap := aliasMap - {name};
    }

    /** `getEvents().trigger(e)`: the listeners see the current `flipTreeY`. */
    method Trigger(e: Event)
      modifies this
      ensures State() == old(State()).(events := old(events) + [Fired(e, old(flipTreeY))])
    {
      events := events + [Fired(e, flipTreeY)];
    }

    /**
     * Runs `s` through the instant-command table: the first matching
     * entry's handler updates the stores and its result is returned;
     * `None`, with nothing changed, when no entry matches.
     */
    method RunInstant(s: string, env: Env) returns (r: Option<Outcome>)
      modifies this
      ensures var res := Instant(s, old(State()), env, CatalogueMessage(env));
        && (res.None? ==> r.None? && State() == old(State()))
        && (res.Some? ==> r == Some(res.value.0) && State() == res.value.1)
    {
      ghost var catalogue := CatalogueMessage(env);
      var hit := Scan(s);
      if hit.None? {
        return None;
      }
      var p, bits := InstantCommands[hit.value.index].pattern, hit.value.bits;
      if p == ShowCommands {
        RespondShowCommands(s, bits, State(), env, catalogue);
        var out := ShowCatalogue(env);
        r := Some(out);
      } else {
        var out := Handle(p, s, bits, env, catalogue);
        r := Some(out);
      }
    }

    /** The handler of `show commands`, which does not touch the stores. */
    method ShowCatalogue(env: Env) returns (out: Outcome)
      ensures out == CommandResult(CatalogueMessage(env))
    {
      var lines := Catalogue.BuildCatalogue(env.intl.str("show-all-commands", map[]),
                                            env.levelRegexMap, env.engineRegexMap, env.engineOptionMap);
      out := CommandResult(Join(lines, "\n"));
    }

    /** The handler of every entry but `show commands`, which does not touch the stores. */
    method Handle(p: Pattern, s: string, bits: Captures, env: Env, ghost catalogue: string) returns (out: Outcome)
      requires Exec(p, s) == Some(bits) && p != ShowCommands
      modifies this
      ensures var res := Respond(p, s, bits, old(State()), env, catalogue);
        out == res.0 && State() == res.1
    {
      match p
      case Ls =>
        out := CommandResult(env.intl.str("ls-command", map[]));
      case Cd =>
        out := CommandResult(env.intl.str("cd-command", map[]));
      case LocaleOrReset =>
        ChangeLocale(env.defaultLocale);
        out := CommandResult(env.intl.str("locale-reset-command", map["locale" := env.defaultLocale]));
      case Show =>
        out := CommandResult(ShowMessage(env.intl));
      case Alias =>
        AddToAliasMap(bits[1].value, bits[2].value);
        out := CommandResult(AliasMessage(bits[1].value, bits[2].value));
      case Unalias =>
        RemoveFromAliasMap(bits[1].value);
        out := CommandResult(UnaliasMessage(bits[1].value));
      case LocaleToken =>
        ChangeLocale(bits[1].value);
        out := CommandResult(env.intl.str("locale-command", map["locale" := bits[1].value]));
      case Flip =>
        ChangeFlipTreeY(!flipTreeY);
        Trigger(RefreshTree);
        out := CommandResult(env.intl.str("flip-tree-command", map[]));
      case DisableLevelInstructions =>
        DisableLevelInstructions();
        out := CommandResult(env.intl.todo("Level instructions disabled"));
      case Refresh =>
        Trigger(RefreshTree);
        out := CommandResult(env.intl.str("refresh-tree-command", map[]));
      case Rollup =>
        Trigger(RollupCommands(bits[1].value));
        out := CommandResult("Commands combined!");
      case Echo =>
        out := CommandResult(EchoMessage(bits));
    }
  }

  // Which entry handles an input

  /** The patterns of the entries before entry `i`, in table order. */
  function EarlierPatterns(i: nat): seq<Pattern>
    requires i <= |InstantCommands|
  {
    seq(i, j requires 0 <= j < i => InstantCommands[j].pattern)
  }

  /** Entry `i` handles `s` when it matches and none of the earlier patterns does. */
  lemma HandledBy(s: string, i: nat, st: Stores, env: Env, catalogue: string)
    requires i < |InstantCommands| && Exec(InstantCommands[i].pattern, s).Some?
    requires forall p :: p in EarlierPatterns(i) ==> Exec(p, s).None?
    ensures Instant(s, st, env, catalogue)
      == Some(Respond(InstantCommands[i].pattern, s, Exec(InstantCommands[i].pattern, s).value, st, env, catalogue))
  {
    forall j | 0 <= j < i
      ensures Exec(InstantCommands[j].pattern, s).None?
    {
      assert EarlierPatterns(i)[j] == InstantCommands[j].pattern;
    }
    FirstHitAt(s, i, 0);
  }

  /** No entry handles `s` when none of the patterns matches. */
  lemma HandledByNone(s: string, st: Stores, env: Env, catalogue: string)
    requires forall p :: p in EarlierPatterns(|InstantCommands|) ==> Exec(p, s).None?
    ensures Instant(s, st, env, catalogue).None?
  {
    forall j | 0 <= j < |InstantCommands|
      ensures Exec(InstantCommands[j].pattern, s).None?
    {
      assert EarlierPatterns(|InstantCommands|)[j] == InstantCommands[j].pattern;
    }
  }

  // ls and cd

  /** `ls` and `cd`, bare or followed by a space, answer with a fixed message and change nothing. */
  lemma ListAndChangeDirectory(rest: string, st: Stores, env: Env, catalogue: string)
    requires rest == "" || rest[0] == ' '
    ensures Instant("ls" + rest, st, env, catalogue) == Some((CommandResult(env.intl.str("ls-command", map[])), st))
    ensures Instant("cd" + rest, st, env, catalogue) == Some((CommandResult(env.intl.str("cd-command", map[])), st))
  {
    var ls, cd := "ls" + rest, "cd" + rest;
    if rest != "" {
      assert ls[..3] == "ls ";
      assert cd[..3] == "cd ";
    }
    assert cd[0] == 'c';
    assert EarlierPatterns(1) == [Ls];
    LeadsMiss(cd, [Ls], 0);
    HandledBy(ls, 0, st, env, catalogue);
    HandledBy(cd, 1, st, env, catalogue);
  }

  /** `ls` or `cd` glued to another word, as in `lsfoo` or `cdx`, is no instant command at all. */
  lemma NoWordBoundaryNoCommand(rest: string, st: Stores, env: Env, catalogue: string)
    requires rest != "" && rest[0] != ' '
    ensures Instant("ls" + rest, st, env, catalogue).None?
    ensures Instant("cd" + rest, st, env, catalogue).None?
  {
    GluedWordUnmatched("ls", rest);
    GluedWordUnmatched("cd", rest);
    HandledByNone("ls" + rest, st, env, catalogue);
    HandledByNone("cd" + rest, st, env, catalogue);
  }

  lemma GluedWordUnmatched(w: string, rest: string)
    requires w == "ls" || w == "cd"
    requires rest != "" && rest[0] != ' '
    ensures forall p :: p in EarlierPatterns(|InstantCommands|) ==> Exec(p, w + rest).None?
  {
    var s := w + rest;
    assert s[0] == w[0] && s[1] == w[1] && s[2] == rest[0];
    NoSpaceAfterTwoLetters(s);
    if w == "ls" {
      NoOtherEntryTakesL(s);
    } else {
      NoOtherEntryTakesC(s);
    }
    assert EarlierPatterns(|InstantCommands|)
      == [Ls, Cd, LocaleOrReset, Show, Alias, Unalias, LocaleToken, Flip,
          DisableLevelInstructions, Refresh, Rollup, Echo, ShowCommands];
  }

  lemma NoOtherEntryTakesL(s: string)
    requires |s| >= 2 && s[0] == 'l' && s[1] == 's'
    ensures forall p ::
      p in [Show, Alias, Unalias, Flip, DisableLevelInstructions, Refresh, Rollup, Echo, ShowCommands, LocaleOrReset, LocaleToken]
      ==> Exec(p, s).None?
  {
    LeadsMiss(s, [Show, Alias, Unalias, Flip, DisableLevelInstructions, Refresh, Rollup, Echo, ShowCommands], 0);
    LeadsMiss(s, [LocaleOrReset, LocaleToken], 1);
  }

  lemma NoOtherEntryTakesC(s: string)
    requires |s| >= 1 && s[0] == 'c'
    ensures forall p ::
      p in [Show, Alias, Unalias, Flip, DisableLevelInstructions, Refresh, Rollup, Echo, ShowCommands, LocaleOrReset, LocaleToken]
      ==> Exec(p, s).None?
  {
    LeadsMiss(s, [Show, Alias, Unalias, Flip, DisableLevelInstructions, Refresh, Rollup, Echo, ShowCommands,
                  LocaleOrReset, LocaleToken], 0);
  }

  /** `ls` and `cd` need their word to end the input or be followed by a space. */
  lemma NoSpaceAfterTwoLetters(s: string)
    requires |s| >= 3 && s[2] != ' '
    ensures Exec(Ls, s).None? && Exec(Cd, s).None?
  {
    assert s[..3][2] == s[2];
  }

  // locale

  /**
   * Bare `locale` and `locale reset` both switch to the default locale and
   * report it. The later `locale <word>` entry would also match
   * `locale reset`, but the earlier entry takes it, so the locale never
   * becomes `reset`.
   */
  lemma LocaleReset(s: string, st: Stores, env: Env, catalogue: string)
    requires s == "locale" || s == "locale reset"
    ensures Instant(s, st, env, catalogue) == Some((
      CommandResult(env.intl.str("locale-reset-command", map["locale" := env.defaultLocale])),
      st.(locale := env.defaultLocale)))
  {
    assert s[1] == 'o';
    LocaleEntryHandles(s, st, env, catalogue);
  }

  /** The later `locale <word>` entry would take `locale reset` too, with `reset` as the locale. */
  lemma ResetIsALocaleWord()
    ensures Exec(LocaleToken, "locale reset") == Some([Some("locale reset"), Some("reset")])
  {
    assert "locale reset"[7..] == "reset";
  }

  lemma LocaleEntryHandles(s: string, st: Stores, env: Env, catalogue: string)
    requires |s| >= 2 && s[1] == 'o' && Exec(LocaleOrReset, s).Some?
    ensures Instant(s, st, env, catalogue) == Some(Respond(LocaleOrReset, s, Exec(LocaleOrReset, s).value, st, env, catalogue))
  {
    assert EarlierPatterns(2) == [Ls, Cd];
    LeadsMiss(s, [Ls, Cd], 1);
    HandledBy(s, 2, st, env, catalogue);
  }

  /** `locale <t>`, for any word `t` other than `reset`, switches to `t` verbatim and reports it. */
  lemma LocaleSetsToken(t: string, st: Stores, env: Env, catalogue: string)
    requires IsWord(t) && t != "reset"
    ensures Instant("locale " + t, st, env, catalogue) == Some((
      CommandResult(env.intl.str("locale-command", map["locale" := t])),
      st.(locale := t)))
  {
    var s := "locale " + t;
    assert s[7..] == t;
    assert s[..7] == "locale ";
    assert s[1] == 'o';
    assert EarlierPatterns(6) == [Ls, Cd, LocaleOrReset, Show, Alias, Unalias];
    LeadsMiss(s, [Ls, Cd, Show, Alias, Unalias], 1);
    assert Exec(LocaleOrReset, s).None?;
    HandledBy(s, 6, st, env, catalogue);
  }

  // show

  /** Bare `show` lists the three sub-topics under its title and changes nothing. */
  lemma ShowListsTopics(st: Stores, env: Env, catalogue: string)
    ensures Instant("show", st, env, catalogue) == Some((CommandResult(ShowMessage(env.intl)), st))
    ensures ShowMessage(env.intl)
      == env.intl.str("show-command", map[]) + "\n" + "<br/>" + "\n" + "show commands" + "\n" + "show solution" + "\n" + "show goal"
  {
    var s := "show";
    assert s[0] == 's' && s[1] == 'h';
    assert EarlierPatterns(3) == [Ls, Cd, LocaleOrReset];
    forall p | p in [Ls, Cd, LocaleOrReset] ensures Exec(p, s).None? {
      LeadMismatch(p, s, 0);
    }
    HandledBy(s, 3, st, env, catalogue);
    ShowMessageText(env.intl.str("show-command", map[]));
  }

  lemma ShowMessageText(title: string)
    ensures Join([title, Catalogue.Break] + ShowTopics, "\n")
      == title + "\n" + "<br/>" + "\n" + "show commands" + "\n" + "show solution" + "\n" + "show goal"
  {
    assert [title, Catalogue.Break] + ShowTopics == [title, "<br/>", "show commands", "show solution", "show goal"];
    JoinFive(title, "<br/>", "show commands", "show solution", "show goal", "\n");
  }

  /** The `show` entry matches only the exact word. */
  lemma ShowIsExact(s: string)
    ensures Exec(Show, s).Some? <==> s == "show"
  {
  }

  /** `show commands`, with any number of spaces, is not taken by `show` and reaches the catalogue. */
  lemma ShowCommandsReachesCatalogue(k: nat, st: Stores, env: Env, catalogue: string)
    requires k >= 1
    ensures Instant("show" + Spaces(k) + "commands", st, env, catalogue) == Some((CommandResult(catalogue), st))
  {
    ShowCommandsMatches(k);
    ShowCommandsEntryHandles("show" + Spaces(k) + "commands", st, env, catalogue);
  }

  lemma ShowCommandsEntryHandles(s: string, st: Stores, env: Env, catalogue: string)
    requires Exec(ShowCommands, s).Some?
    ensures Instant(s, st, env, catalogue) == Some((CommandResult(catalogue), st))
  {
    assert s[..5] == "show ";
    assert s[0] == s[..5][0] == 's';
    ShowCommandsNotEarlier(s);
    HandledBy(s, 12, st, env, catalogue);
    RespondShowCommands(s, Exec(ShowCommands, s).value, st, env, catalogue);
  }

  lemma ShowCommandsNotEarlier(s: string)
    requires |s| > 0 && s[0] == 's' && s != "show"
    ensures forall p :: p in EarlierPatterns(12) ==> Exec(p, s).None?
  {
    NoEarlyEntryTakesS(s);
    NoLateEntryTakesS(s);
    assert EarlierPatterns(12)
      == [Ls, Cd, LocaleOrReset, Show, Alias, Unalias, LocaleToken, Flip,
          DisableLevelInstructions, Refresh, Rollup, Echo];
  }

  lemma NoEarlyEntryTakesS(s: string)
    requires |s| > 0 && s[0] == 's'
    ensures Exec(Ls, s).None? && Exec(Cd, s).None? && Exec(LocaleOrReset, s).None?
    ensures Exec(Alias, s).None? && Exec(Unalias, s).None? && Exec(LocaleToken, s).None?
  {
    LeadMismatch(Ls, s, 0);
    LeadMismatch(Cd, s, 0);
    LeadMismatch(LocaleOrReset, s, 0);
    LeadMismatch(Alias, s, 0);
    LeadMismatch(Unalias, s, 0);
    LeadMismatch(LocaleToken, s, 0);
  }

  lemma NoLateEntryTakesS(s: string)
    requires |s| > 0 && s[0] == 's'
    ensures Exec(Flip, s).None? && Exec(DisableLevelInstructions, s).None? && Exec(Refresh, s).None?
    ensures Exec(Rollup, s).None? && Exec(Echo, s).None?
  {
    LeadMismatch(Flip, s, 0);
    LeadMismatch(DisableLevelInstructions, s, 0);
    LeadMismatch(Refresh, s, 0);
    LeadMismatch(Rollup, s, 0);
    LeadMismatch(Echo, s, 0);
  }

  /** A pattern cannot match an input that differs from its lead at position `k`. */
  lemma LeadMismatch(p: Pattern, s: string, k: nat)
    requires k < |Lead(p)| && (k >= |s| || s[k] != Lead(p)[k])
    ensures Exec(p, s).None?
  {
    if Exec(p, s).Some? {
      MatchStartsWithLead(p, s);
    }
  }

  /** No pattern of `ps` matches an input that differs from each of their leads at position `k`. */
  lemma LeadsMiss(s: string, ps: seq<Pattern>, k: nat)
    requires forall p :: p in ps ==> k < |Lead(p)| && (k >= |s| || s[k] != Lead(p)[k])
    ensures forall p :: p in ps ==> Exec(p, s).None?
  {
    forall p | p in ps
      ensures Exec(p, s).None?
    {
      LeadMismatch(p, s, k);
    }
  }

  lemma RespondShowCommands(s: string, bits: Captures, st: Stores, env: Env, catalogue: string)
    requires Exec(ShowCommands, s) == Some(bits)
    ensures Respond(ShowCommands, s, bits, st, env, catalogue) == (CommandResult(catalogue), st)
  {
  }

  // alias and unalias

  /** `alias n="e"` records exactly `n -> e` in the alias map and reports it. */
  lemma AliasRecords(n: string, e: string, st: Stores, env: Env, catalogue: string)
    requires IsWord(n) && e != "" && NoLineTerminator(e)
    ensures Instant("alias " + n + "=\"" + e + "\"", st, env, catalogue) == Some((
      CommandResult("Set alias \"" + n + "\" to \"" + e + "\""),
      st.(aliasMap := st.aliasMap[n := e])))
  {
    var s := "alias " + n + "=\"" + e + "\"";
    AliasMatches(n, e);
    assert s[0] == 'a';
    assert EarlierPatterns(4) == [Ls, Cd, LocaleOrReset, Show];
    LeadsMiss(s, EarlierPatterns(4), 0);
    HandledBy(s, 4, st, env, catalogue);
  }

  /** `unalias n` removes `n` from the alias map, whether or not it was there, and reports it. */
  lemma UnaliasRemoves(n: string, st: Stores, env: Env, catalogue: string)
    requires IsWord(n)
    ensures Instant("unalias " + n, st, env, catalogue) == Some((
      CommandResult("Removed alias \"" + n + "\""),
      st.(aliasMap := st.aliasMap - {n})))
    ensures n !in Instant("unalias " + n, st, env, catalogue).value.1.aliasMap
  {
    var s := "unalias " + n;
    assert s[8..] == n;
    assert s[0] == 'u';
    assert EarlierPatterns(5) == [Ls, Cd, LocaleOrReset, Show, Alias];
    LeadsMiss(s, EarlierPatterns(5), 0);
    HandledBy(s, 5, st, env, catalogue);
  }

  /** `unalias n` undoes `alias n="e"` when `n` had no alias before. */
  lemma UnaliasUndoesAlias(n: string, e: string, st: Stores, env: Env, catalogue: string, st1: Stores, st2: Stores, r1: Outcome, r2: Outcome)
    requires IsWord(n) && e != "" && NoLineTerminator(e) && n !in st.aliasMap
    requires Instant("alias " + n + "=\"" + e + "\"", st, env, catalogue) == Some((r1, st1))
    requires Instant("unalias " + n, st1, env, catalogue) == Some((r2, st2))
    ensures st2 == st
  {
    AliasRecords(n, e, st, env, catalogue);
    UnaliasRemoves(n, st1, env, catalogue);
    assert st1.aliasMap - {n} == st.aliasMap;
  }

  // flip

  /**
   * `flip` stores the negation of `flipTreeY` and then triggers
   * `refreshTree`, whose listeners already see the new value.
   */
  lemma FlipNegates(st: Stores, env: Env, catalogue: string)
    ensures Instant("flip", st, env, catalogue) == Some((
      CommandResult(env.intl.str("flip-tree-command", map[])),
      st.(flipTreeY := !st.flipTreeY, events := st.events + [Fired(RefreshTree, !st.flipTreeY)])))
  {
    var s := "flip";
    assert EarlierPatterns(7) == [Ls, Cd, LocaleOrReset, Show, Alias, Unalias, LocaleToken];
    LeadsMiss(s, EarlierPatterns(7), 0);
    HandledBy(s, 7, st, env, catalogue);
  }

  /** Two flips restore `flipTreeY`; each leaves one `refreshTree` in the log. */
  lemma FlipTwiceRestores(st: Stores, env: Env, catalogue: string, st1: Stores, st2: Stores, r1: Outcome, r2: Outcome)
    requires Instant("flip", st, env, catalogue) == Some((r1, st1))
    requires Instant("flip", st1, env, catalogue) == Some((r2, st2))
    ensures st2.flipTreeY == st.flipTreeY
    ensures st2 == st.(events := st.events + [Fired(RefreshTree, !st.flipTreeY), Fired(RefreshTree, st.flipTreeY)])
  {
    FlipNegates(st, env, catalogue);
    FlipNegates(st1, env, catalogue);
  }

  // disableLevelInstructions, refresh, rollup

  /** `disableLevelInstructions` sets the flag and reports it through `intl.todo`. */
  lemma DisableLevelInstructionsSetsFlag(st: Stores, env: Env, catalogue: string)
    ensures Instant("disableLevelInstructions", st, env, catalogue) == Some((
      CommandResult(env.intl.todo("Level instructions disabled")),
      st.(levelInstructionsDisabled := true)))
  {
    var s := "disableLevelInstructions";
    assert EarlierPatterns(8) == [Ls, Cd, LocaleOrReset, Show, Alias, Unalias, LocaleToken, Flip];
    LeadsMiss(s, EarlierPatterns(8), 0);
    HandledBy(s, 8, st, env, catalogue);
  }

  /** `refresh` only triggers `refreshTree`. */
  lemma RefreshTriggers(st: Stores, env: Env, catalogue: string)
    ensures Instant("refresh", st, env, catalogue) == Some((
      CommandResult(env.intl.str("refresh-tree-command", map[])),
      st.(events := st.events + [Fired(RefreshTree, st.flipTreeY)])))
  {
    var s := "refresh";
    assert EarlierPatterns(9) == [Ls, Cd, LocaleOrReset, Show, Alias, Unalias, LocaleToken, Flip, DisableLevelInstructions];
    LeadsMiss(s, EarlierPatterns(9), 0);
    HandledBy(s, 9, st, env, catalogue);
  }

  /** `rollup <digits>` triggers `rollupCommands` with the digits as text. */
  lemma RollupTriggers(d: string, st: Stores, env: Env, catalogue: string)
    requires IsDigits(d)
    ensures Instant("rollup " + d, st, env, catalogue) == Some((
      CommandResult("Commands combined!"),
      st.(events := st.events + [Fired(RollupCommands(d), st.flipTreeY)])))
  {
    var s := "rollup " + d;
    assert s[7..] == d;
    assert s[0] == 'r' && s[1] == 'o';
    assert EarlierPatterns(10)
      == [Ls, Cd, LocaleOrReset, Show, Alias, Unalias, LocaleToken, Flip, DisableLevelInstructions, Refresh];
    LeadsMiss(s, [Ls, Cd, LocaleOrReset, Show, Alias, Unalias, LocaleToken, Flip, DisableLevelInstructions], 0);
    LeadsMiss(s, [Refresh], 1);
    HandledBy(s, 10, st, env, catalogue);
  }

  // echo

  /** `echo "t"` answers `t` without the quotes. */
  lemma EchoQuoted(t: string, st: Stores, env: Env, catalogue: string)
    requires NoLineTerminator(t)
    ensures Instant("echo \"" + t + "\"", st, env, catalogue) == Some((CommandResult(t), st))
  {
    var s := "echo \"" + t + "\"";
    EchoQuotedMatches(t);
    EchoEntryHandles(s, st, env, catalogue);
  }

  /** `echo t`, with `t` not wrapped in quotes, answers everything after `echo `. */
  lemma EchoPlain(t: string, st: Stores, env: Env, catalogue: string)
    requires NoLineTerminator(t)
    requires !(|t| >= 2 && t[0] == '"' && t[|t| - 1] == '"')
    ensures Instant("echo " + t, st, env, catalogue) == Some((CommandResult(t), st))
  {
    var s := "echo " + t;
    EchoPlainMatches(t);
    EchoEntryHandles(s, st, env, catalogue);
  }

  lemma EchoEntryHandles(s: string, st: Stores, env: Env, catalogue: string)
    requires Exec(Echo, s).Some?
    ensures Instant(s, st, env, catalogue) == Some(Respond(Echo, s, Exec(Echo, s).value, st, env, catalogue))
  {
    assert s[0] == 'e';
    assert EarlierPatterns(11)
      == [Ls, Cd, LocaleOrReset, Show, Alias, Unalias, LocaleToken, Flip, DisableLevelInstructions, Refresh, Rollup];
    LeadsMiss(s, EarlierPatterns(11), 0);
    HandledBy(s, 11, st, env, catalogue);
  }

  /**
   * `bits[1] || bits[2]` as written leaves the message of `echo ""`
   * undefined: the empty quoted capture is falsy and the second
   * alternative did not take part in the match.
   */
  lemma EchoEmptyQuotesAsWritten()
    ensures Exec(Echo, "echo \"\"") == Some([Some("echo \"\""), Some(""), None])
    ensures EchoMessageAsWritten(Exec(Echo, "echo \"\"").value).None?
  {
    EchoQuotedMatches("");
    assert "echo \"" + "" + "\"" == "echo \"\"";
  }

  /** Apart from that input, the written and the intended message agree. */
  lemma EchoAsWrittenAgrees(s: string)
    requires Exec(Echo, s).Some? && Exec(Echo, s).value[1] != Some("")
    ensures EchoMessageAsWritten(Exec(Echo, s).value) == Some(EchoMessage(Exec(Echo, s).value))
  {
  }

  // invariants of every instant command

  /** Every handler only appends to the event log, at most one event. */
  lemma EventsOnlyGrow(s: string, st: Stores, env: Env, catalogue: string)
    requires Instant(s, st, env, catalogue).Some?
    ensures var events := Instant(s, st, env, catalogue).value.1.events;
      |st.events| <= |events| <= |st.events| + 1 && events[..|st.events|] == st.events
  {
    var hit := FirstHit(s).value;
    RespondOnlyAppends(InstantCommands[hit.index].pattern, s, hit.bits, st, env, catalogue);
  }

  lemma RespondOnlyAppends(p: Pattern, s: string, bits: Captures, st: Stores, env: Env, catalogue: string)
    requires Exec(p, s) == Some(bits)
    ensures var events := Respond(p, s, bits, st, env, catalogue).1.events;
      |st.events| <= |events| <= |st.events| + 1 && events[..|st.events|] == st.events
  {
    match p
    case Flip =>
      assert (st.events + [Fired(RefreshTree, !st.flipTreeY)])[..|st.events|] == st.events;
    case Refresh =>
      assert (st.events + [Fired(RefreshTree, st.flipTreeY)])[..|st.events|] == st.events;
    case Rollup =>
      assert (st.events + [Fired(RollupCommands(bits[1].value), st.flipTreeY)])[..|st.events|] == st.events;
    case _ =>
  }

  /** The handlers of `ls`, `cd`, `show`, `echo` and `show commands` change no state. */
  lemma PureEntriesKeepState(s: string, st: Stores, env: Env, catalogue: string)
    requires FirstHit(s).Some?
    requires InstantCommands[FirstHit(s).value.index].pattern in {Ls, Cd, Show, Echo, ShowCommands}
    ensures Instant(s, st, env, catalogue).value.1 == st
  {
  }
}

/**
 * The ordered instant-command table (`instantCommands`,
 * src/js/sandbox/commands.js:18-174) and the scan that picks an entry.
 *
 * The loop that runs the table is not in commands.js. Its behaviour is
 * taken as an assumption: the entries are tried in array order and the
 * first whose pattern matches handles the input; since every handler ends
 * by throwing, no later entry is tried.
 */
module InstantTable {
  import opened Wrappers
  import opened Patterns

  /** The third and fourth tuple items, present for commands shown by `show commands`. */
  datatype Listing = Listing(name: string, help: string)

  datatype Entry = Entry(pattern: Pattern, listing: Option<Listing>)

  const InstantCommands: seq<Entry> := [
    Entry(Ls, None),
    Entry(Cd, None),
    Entry(LocaleOrReset, Some(Listing("locale", "change locale from the command line, or reset with `locale reset`"))),
    Entry(Show, Some(Listing("show", "Run `show commands|solution|goal` to see the available commands or aspects of the current level"))),
    Entry(Alias, Some(Listing("alias", "Run `alias` to map a certain shortcut to an expansion"))),
    Entry(Unalias, Some(Listing("unalias", "Opposite of `alias`"))),
    Entry(LocaleToken, None),
    Entry(Flip, Some(Listing("flip", "flip the direction of the tree (and commit arrows)"))),
    Entry(DisableLevelInstructions, Some(Listing("disableLevelInstructions", "Disable the level instructions"))),
    Entry(Refresh, None),
    Entry(Rollup, None),
    Entry(Echo, Some(Listing("echo", "echo out a string to the terminal output"))),
    Entry(ShowCommands, None)
  ]

  /** The entry that handles an input, and its match array. */
  datatype Hit = Hit(index: nat, bits: Captures)

  /** The first entry at or after `from` whose pattern matches `s`. */
  function FirstHitFrom(s: string, from: nat): (r: Option<Hit>)
    requires from <= |InstantCommands|
    ensures r.Some? ==>
      && from <= r.value.index < |InstantCommands|
      && Exec(InstantCommands[r.value.index].pattern, s) == Some(r.value.bits)
      && forall j :: from <= j < r.value.index ==> Exec(InstantCommands[j].pattern, s).None?
    ensures r.None? ==> forall j :: from <= j < |InstantCommands| ==> Exec(InstantCommands[j].pattern, s).None?
    decreases |InstantCommands| - from
  {
    if from == |InstantCommands| then None
    else match Exec(InstantCommands[from].pattern, s)
      case Some(bits) => Some(Hit(from, bits))
      case None => FirstHitFrom(s, from + 1)
  }

  /** The entry that handles `s`: the first one, in table order, whose pattern matches. */
  function FirstHit(s: string): Option<Hit>
  {
    FirstHitFrom(s, 0)
  }

  /** The table scan, as a loop over the entries. */
  method Scan(s: string) returns (hit: Option<Hit>)
    ensures hit == FirstHit(s)
    ensures hit.Some? ==> hit.value.index < |InstantCommands|
  {
    var i := 0;
    while i < |InstantCommands|
      invariant i <= |InstantCommands|
      invariant FirstHitFrom(s, i) == FirstHit(s)
    {
      var bits := Exec(InstantCommands[i].pattern, s);
      if bits.Some? {
        return Some(Hit(i, bits.value));
      }
      i := i + 1;
    }
    return None;
  }

  /** Entry `i` handles `s` exactly when it matches and no earlier entry does. */
  lemma {:induction false} FirstHitAt(s: string, i: nat, from: nat)
    requires from <= i < |InstantCommands|
    requires forall j :: from <= j < i ==> Exec(InstantCommands[j].pattern, s).None?
    requires Exec(InstantCommands[i].pattern, s).Some?
    ensures FirstHitFrom(s, from) == Some(Hit(i, Exec(InstantCommands[i].pattern, s).value))
    decreases i - from
  {
    if from < i {
      FirstHitAt(s, i, from + 1);
    }
  }
}

/**
 * The `show commands` catalogue (src/js/sandbox/commands.js:118-173): the
 * engine's option lists, the named instant commands with their help text,
 * and the output lines in the order of the merged command table.
 *
 * `Object.keys(options)` of an engine option object is given as the
 * sequence of its keys; `None` stands for a method whose option object is
 * null (skipped by `if (options)`).
 */
module Catalogue {
  import opened Wrappers
  import opened JsObject
  import opened InstantTable
  import Text
  import AllCommands

  const Break := "<br/>"
  const Indent := "&nbsp;&nbsp;&nbsp;&nbsp;"

  /** `Commands.commands.getOptionMap()`: vcs -> method -> option keys, or None for null. */
  type OptionTable = Obj<Obj<Option<seq<string>>>>

  /** `Object.keys(options).filter(option => option.length > 1)` */
  function LongOptions(keys: seq<string>): (r: seq<string>)
    ensures forall o :: o in r <==> o in keys && |o| > 1
    ensures |r| <= |keys|
    decreases |keys|
  {
    if keys == [] then []
    else
      var last := keys[|keys| - 1];
      LongOptions(keys[..|keys| - 1]) + (if |last| > 1 then [last] else [])
  }

  /** The write for one method of `vcs`: none when its option object is null. */
  function MethodOptionWrite(vcs: string, m: (string, Option<seq<string>>)): seq<(string, seq<string>)> {
    if m.1.Some? then [(vcs + " " + m.0, LongOptions(m.1.value))] else []
  }

  /** The writes `commandToOptions[vcs + ' ' + method] = ...` for one `vcs`, skipping null option objects. */
  function MethodOptionWrites(vcs: string, methods: seq<(string, Option<seq<string>>)>): seq<(string, seq<string>)>
    decreases |methods|
  {
    if methods == [] then []
    else MethodOptionWrites(vcs, methods[..|methods| - 1]) + MethodOptionWrite(vcs, methods[|methods| - 1])
  }

  /** The same writes for every `vcs` of the option table, in key order. */
  function OptionWrites(t: seq<(string, Obj<Option<seq<string>>>)>): seq<(string, seq<string>)>
    decreases |t|
  {
    if t == [] then []
    else OptionWrites(t[..|t| - 1]) + MethodOptionWrites(t[|t| - 1].0, t[|t| - 1].1)
  }

  /** `(tuple[2], tuple[3])` of every named entry, in table order. */
  function Listings(entries: seq<Entry>): seq<(string, string)>
    decreases |entries|
  {
    if entries == [] then []
    else Listings(entries[..|entries| - 1]) + ListingOf(entries[|entries| - 1])
  }

  /** The listing an entry contributes: none when its name is missing or empty (`if (!commandName) return`). */
  function ListingOf(e: Entry): seq<(string, string)> {
    if e.listing.Some? && e.listing.value.name != "" then [(e.listing.value.name, e.listing.value.help)] else []
  }

  /** The writes `commandToOptions[commandName] = [tuple[3]]`. */
  function HelpAsOptions(ls: seq<(string, string)>): seq<(string, seq<string>)>
    decreases |ls|
  {
    if ls == [] then []
    else HelpAsOptions(ls[..|ls| - 1]) + [(ls[|ls| - 1].0, [ls[|ls| - 1].1])]
  }

  /** JavaScript truthiness of a looked-up string: present and not empty. */
  predicate Truthy(v: Option<string>) {
    v.Some? && v.value != ""
  }

  function Indented(os: seq<string>): seq<string>
    decreases |os|
  {
    if os == [] then [] else Indented(os[..|os| - 1]) + [Indent + os[|os| - 1]]
  }

  /** The lines pushed for one command of the catalogue. */
  function Block(command: string, commandToOptions: Obj<seq<string>>, selected: Obj<string>): seq<string>
  {
    var gap := if Truthy(Get(selected, command)) then [Break] else [];
    var options := match Get(commandToOptions, command)
      case Some(os) => Indented(os)
      case None => [];
    gap + [command] + options + gap
  }

  function Blocks(commands: seq<string>, commandToOptions: Obj<seq<string>>, selected: Obj<string>): seq<string>
    decreases |commands|
  {
    if commands == [] then []
    else
      Blocks(commands[..|commands| - 1], commandToOptions, selected)
        + Block(commands[|commands| - 1], commandToOptions, selected)
  }

  /** `allCommands` once the named instant commands are added. */
  function ListedCommands(level: Obj<string>, engine: AllCommands.EngineTable<string>): Obj<string>
  {
    SetAll(SetAll([], AllCommands.AllCommands(level, engine)), Listings(InstantCommands))
  }

  /** `commandToOptions` once complete. */
  function CommandToOptions(options: OptionTable): Obj<seq<string>>
  {
    SetAll(SetAll([], OptionWrites(options)), HelpAsOptions(Listings(InstantCommands)))
  }

  /** `selectedInstantCommands` */
  function SelectedInstantCommands(): Obj<string>
  {
    SetAll([], Listings(InstantCommands))
  }

  /** The catalogue's lines; `header` is `intl.str('show-all-commands')`. */
  function CatalogueLines(header: string, level: Obj<string>, engine: AllCommands.EngineTable<string>, options: OptionTable): seq<string>
  {
    [header, Break] + Blocks(Keys(ListedCommands(level, engine)), CommandToOptions(options), SelectedInstantCommands())
  }

  /** The outer `forEach` over `getOptionMap()`. */
  method OptionLists(options: OptionTable) returns (commandToOptions: Obj<seq<string>>)
    ensures commandToOptions == SetAll([], OptionWrites(options))
  {
    commandToOptions := [];
    var i := 0;
    while i < |options|
      invariant i <= |options|
      invariant commandToOptions == SetAll([], OptionWrites(options[..i]))
    {
      commandToOptions := AddOptionLists(commandToOptions, options[i].0, options[i].1);
      assert options[..i + 1][..i] == options[..i];
      SetAllAppend([], OptionWrites(options[..i]), MethodOptionWrites(options[i].0, options[i].1));
      i := i + 1;
    }
    assert options[..i] == options;
  }

  /** The inner `forEach`: the long options of every method of `vcs` whose option object is not null. */
  method AddOptionLists(commandToOptions: Obj<seq<string>>, vcs: string, methods: Obj<Option<seq<string>>>)
    returns (r: Obj<seq<string>>)
    ensures r == SetAll(commandToOptions, MethodOptionWrites(vcs, methods))
  {
    r := commandToOptions;
    var j := 0;
    while j < |methods|
      invariant j <= |methods|
      invariant r == SetAll(commandToOptions, MethodOptionWrites(vcs, methods[..j]))
    {
      MethodOptionWritesStep(vcs, methods, j);
      r := AddOptionList(r, vcs, methods[j], commandToOptions, MethodOptionWrites(vcs, methods[..j]));
      j := j + 1;
    }
    assert methods[..j] == methods;
  }

  lemma MethodOptionWritesStep(vcs: string, methods: seq<(string, Option<seq<string>>)>, j: nat)
    requires j < |methods|
    ensures MethodOptionWrites(vcs, methods[..j + 1])
      == MethodOptionWrites(vcs, methods[..j]) + MethodOptionWrite(vcs, methods[j])
  {
    assert methods[..j + 1][..j] == methods[..j];
  }

  /** One call of the inner callback. */
  method AddOptionList(r: Obj<seq<string>>, vcs: string, m: (string, Option<seq<string>>),
                       ghost commandToOptions: Obj<seq<string>>, ghost done: seq<(string, seq<string>)>)
    returns (r': Obj<seq<string>>)
    requires r == SetAll(commandToOptions, done)
    ensures r' == SetAll(commandToOptions, done + MethodOptionWrite(vcs, m))
  {
    var options := m.1;
    if options.Some? {
      var longOptions := LongOptions(options.value);
      SetAllSnoc(commandToOptions, done, vcs + " " + m.0, longOptions);
      r' := Set(r, vcs + " " + m.0, longOptions);
    } else {
      assert done + MethodOptionWrite(vcs, m) == done;
      r' := r;
    }
  }

  /** `instantCommands.map(...)`: each named entry goes into all three objects. */
  method AddInstantCommands(allCommands: Obj<string>, commandToOptions: Obj<seq<string>>)
    returns (all: Obj<string>, toOptions: Obj<seq<string>>, selected: Obj<string>)
    ensures all == SetAll(allCommands, Listings(InstantCommands))
    ensures toOptions == SetAll(commandToOptions, HelpAsOptions(Listings(InstantCommands)))
    ensures selected == SetAll([], Listings(InstantCommands))
  {
    all, toOptions, selected := AddNamedEntries(InstantCommands, allCommands, commandToOptions);
  }

  /** The body of that `map` over any table of entries. */
  method AddNamedEntries(entries: seq<Entry>, allCommands: Obj<string>, commandToOptions: Obj<seq<string>>)
    returns (all: Obj<string>, toOptions: Obj<seq<string>>, selected: Obj<string>)
    ensures all == SetAll(allCommands, Listings(entries))
    ensures toOptions == SetAll(commandToOptions, HelpAsOptions(Listings(entries)))
    ensures selected == SetAll([], Listings(entries))
  {
    all, toOptions, selected := allCommands, commandToOptions, [];
    var i := 0;
    while i < |entries|
      invariant i <= |entries|
      invariant all == SetAll(allCommands, Listings(entries[..i]))
      invariant toOptions == SetAll(commandToOptions, HelpAsOptions(Listings(entries[..i])))
      invariant selected == SetAll([], Listings(entries[..i]))
    {
      ListingsStep(entries, i);
      all, toOptions, selected := AddNamedEntry(entries[i], Listings(entries[..i]), allCommands, commandToOptions, all, toOptions, selected);
      i := i + 1;
    }
    assert entries[..i] == entries;
  }

  lemma ListingsStep(entries: seq<Entry>, i: nat)
    requires i < |entries|
    ensures Listings(entries[..i + 1]) == Listings(entries[..i]) + ListingOf(entries[i])
  {
    assert entries[..i + 1][..i] == entries[..i];
  }

  /** One call of the `map` callback: a named entry is written into all three objects. */
  method AddNamedEntry(e: Entry, ghost done: seq<(string, string)>, ghost allCommands: Obj<string>,
                       ghost commandToOptions: Obj<seq<string>>,
                       all: Obj<string>, toOptions: Obj<seq<string>>, selected: Obj<string>)
    returns (all': Obj<string>, toOptions': Obj<seq<string>>, selected': Obj<string>)
    requires all == SetAll(allCommands, done)
    requires toOptions == SetAll(commandToOptions, HelpAsOptions(done))
    requires selected == SetAll([], done)
    ensures all' == SetAll(allCommands, done + ListingOf(e))
    ensures toOptions' == SetAll(commandToOptions, HelpAsOptions(done + ListingOf(e)))
    ensures selected' == SetAll([], done + ListingOf(e))
  {
    if e.listing.Some? && e.listing.value.name != "" {
      var name, help := e.listing.value.name, e.listing.value.help;
      HelpAsOptionsSnoc(done, name, help);
      SetAllSnoc(commandToOptions, HelpAsOptions(done), name, [help]);
      SetAllSnoc(allCommands, done, name, help);
      SetAllSnoc([], done, name, help);
      all', toOptions', selected' := Set(all, name, help), Set(toOptions, name, [help]), Set(selected, name, help);
    } else {
      assert done + ListingOf(e) == done;
      all', toOptions', selected' := all, toOptions, selected;
    }
  }

  lemma HelpAsOptionsSnoc(done: seq<(string, string)>, name: string, help: string)
    ensures HelpAsOptions(done + [(name, help)]) == HelpAsOptions(done) + [(name, [help])]
  {
    assert (done + [(name, help)])[..|done|] == done;
  }

  /** The final `forEach` over `Object.keys(allCommands)`. */
  method LayOut(header: string, all: Obj<string>, commandToOptions: Obj<seq<string>>, selected: Obj<string>)
    returns (lines: seq<string>)
    ensures lines == [header, Break] + Blocks(Keys(all), commandToOptions, selected)
  {
    lines := [header, Break];
    var commands := Keys(all);
    var i := 0;
    while i < |commands|
      invariant i <= |commands|
      invariant lines == [header, Break] + Blocks(commands[..i], commandToOptions, selected)
    {
      lines := PushBlock(lines, commands[i], commandToOptions, selected);
      BlocksSnoc(commands[..i], commands[i], commandToOptions, selected);
      AppendAssoc([header, Break], Blocks(commands[..i], commandToOptions, selected), Block(commands[i], commandToOptions, selected));
      assert commands[..i + 1] == commands[..i] + [commands[i]];
      i := i + 1;
    }
    assert commands[..i] == commands;
  }

  lemma BlocksSnoc(commands: seq<string>, c: string, commandToOptions: Obj<seq<string>>, selected: Obj<string>)
    ensures Blocks(commands + [c], commandToOptions, selected)
      == Blocks(commands, commandToOptions, selected) + Block(c, commandToOptions, selected)
  {
    assert (commands + [c])[..|commands|] == commands;
  }

  /** The count of `c` in a sequence is its count in all but the last element, plus one if the last is `c`. */
  lemma LastCount<T>(s: seq<T>, c: T)
    requires s != []
    ensures multiset(s)[c] == multiset(s[..|s| - 1])[c] + if s[|s| - 1] == c then 1 else 0
  {
    assert s == s[..|s| - 1] + [s[|s| - 1]];
  }

  /** All but the last element of `a + b`, for a non-empty `b`, is `a` and all but the last of `b`. */
  lemma AppendInit<T>(a: seq<T>, b: seq<T>)
    requires b != []
    ensures (a + b)[..|a + b| - 1] == a + b[..|b| - 1] && (a + b)[|a + b| - 1] == b[|b| - 1]
  {
  }

  lemma AppendEmpty<T>(a: seq<T>)
    ensures a + [] == a
  {
  }

  lemma AppendAssoc<T>(a: seq<T>, b: seq<T>, c: seq<T>)
    ensures (a + b) + c == a + (b + c)
  {
  }

  /** The `forEach` callback: the lines for one command. */
  method PushBlock(lines: seq<string>, command: string, commandToOptions: Obj<seq<string>>, selected: Obj<string>)
    returns (r: seq<string>)
    ensures r == lines + Block(command, commandToOptions, selected)
  {
    var gap := Truthy(Get(selected, command));
    r := lines;
    if gap {
      r := r + [Break];
    }
    r := r + [command];
    var options := Get(commandToOptions, command);
    if options.Some? {
      r := PushOptions(r, options.value);
    }
    if gap {
      r := r + [Break];
    }
  }

  /** `commandToOptions[command].forEach(option => lines.push(indent + option))` */
  method PushOptions(lines: seq<string>, os: seq<string>) returns (r: seq<string>)
    ensures r == lines + Indented(os)
  {
    r := lines;
    var m := 0;
    while m < |os|
      invariant m <= |os|
      invariant r == lines + Indented(os[..m])
    {
      assert os[..m + 1][..m] == os[..m];
      r := r + [Indent + os[m]];
      m := m + 1;
    }
    assert os[..m] == os;
  }

  /** The `show commands` handler's catalogue, built as the source builds it. */
  method BuildCatalogue(header: string, level: Obj<string>, engine: AllCommands.EngineTable<string>, options: OptionTable)
    returns (lines: seq<string>)
    ensures lines == CatalogueLines(header, level, engine, options)
  {
    var all := AllCommands.GetAllCommands(level, engine);
    all := SetAll([], all);
    var commandToOptions := OptionLists(options);
    var selected;
    all, commandToOptions, selected := AddInstantCommands(all, commandToOptions);
    lines := LayOut(header, all, commandToOptions, selected);
  }

  // Properties of the catalogue

  /** A table entry is listed exactly when it has a non-empty name: unnamed entries contribute nothing. */
  lemma {:induction false} ListingsAreNamedEntries(entries: seq<Entry>, name: string, help: string)
    ensures (name, help) in Listings(entries)
      <==> name != "" && exists i :: 0 <= i < |entries| && entries[i].listing == Some(Listing(name, help))
    decreases |entries|
  {
    if entries != [] {
      var init := entries[..|entries| - 1];
      ListingsAreNamedEntries(init, name, help);
      if (name, help) in Listings(entries) && (name, help) !in Listings(init) {
        assert entries[|entries| - 1].listing == Some(Listing(name, help));
      }
      if exists i :: 0 <= i < |entries| && entries[i].listing == Some(Listing(name, help)) {
        var i :| 0 <= i < |entries| && entries[i].listing == Some(Listing(name, help));
        if i < |entries| - 1 {
          assert init[i] == entries[i];
        }
      }
    }
  }

  /** The help text recorded for a name is that of its last listing, as one option line. */
  lemma {:induction false} HelpAsOptionsLastFor(ls: seq<(string, string)>, c: string)
    ensures LastFor(HelpAsOptions(ls), c)
      == if c in Keys(ls) then Some([LastFor(ls, c).value]) else None
    decreases |ls|
  {
    if ls != [] {
      var init := ls[..|ls| - 1];
      HelpAsOptionsLastFor(init, c);
      assert Keys(ls) == Keys(init) + [ls[|ls| - 1].0];
      assert Keys(HelpAsOptions(ls)) == Keys(HelpAsOptions(init)) + [ls[|ls| - 1].0];
    }
  }

  /** Every option line recorded for an engine command is a long option (more than one character). */
  lemma {:induction false} OptionWritesAreLong(t: seq<(string, Obj<Option<seq<string>>>)>, c: string)
    ensures forall os :: LastFor(OptionWrites(t), c) == Some(os) ==> forall o :: o in os ==> |o| > 1
    decreases |t|
  {
    if t != [] {
      OptionWritesAreLong(t[..|t| - 1], c);
      MethodOptionWritesAreLong(t[|t| - 1].0, t[|t| - 1].1, c);
      LastForAppend(OptionWrites(t[..|t| - 1]), MethodOptionWrites(t[|t| - 1].0, t[|t| - 1].1), c);
    }
  }

  lemma {:induction false} MethodOptionWritesAreLong(vcs: string, methods: seq<(string, Option<seq<string>>)>, c: string)
    ensures forall os :: LastFor(MethodOptionWrites(vcs, methods), c) == Some(os) ==> forall o :: o in os ==> |o| > 1
    decreases |methods|
  {
    if methods != [] {
      var init := methods[..|methods| - 1];
      MethodOptionWritesAreLong(vcs, init, c);
      LastForAppend(MethodOptionWrites(vcs, init), MethodOptionWrite(vcs, methods[|methods| - 1]), c);
    }
  }

  /** The last write for a key in `a + b` is the last in `b` when `b` has one, else the last in `a`. */
  lemma {:induction false} LastForAppend<V>(a: seq<(string, V)>, b: seq<(string, V)>, k: string)
    ensures LastFor(a + b, k) == if k in Keys(b) then LastFor(b, k) else LastFor(a, k)
    decreases |b|
  {
    if b == [] {
      assert a + b == a;
    } else {
      var init := b[..|b| - 1];
      LastForAppend(a, init, k);
      assert (a + b)[..|a + b| - 1] == a + init;
      assert (a + b)[|a + b| - 1] == b[|b| - 1];
      assert Keys(init) == Keys(b)[..|b| - 1];
      assert k in Keys(b) <==> k in Keys(init) || k == b[|b| - 1].0 by {
        assert Keys(b) == Keys(b)[..|b| - 1] + [Keys(b)[|b| - 1]];
      }
    }
  }

  /** Every method of every `vcs` whose option object is not null gets its long options recorded. */
  lemma {:induction false} OptionWritesRecordEveryMethod(t: seq<(string, Obj<Option<seq<string>>>)>, i: nat, j: nat)
    requires i < |t| && j < |t[i].1| && t[i].1[j].1.Some?
    ensures (t[i].0 + " " + t[i].1[j].0, LongOptions(t[i].1[j].1.value)) in OptionWrites(t)
    decreases |t|
  {
    if i < |t| - 1 {
      OptionWritesRecordEveryMethod(t[..|t| - 1], i, j);
    } else {
      MethodOptionWritesRecordEveryMethod(t[i].0, t[i].1, j);
    }
  }

  lemma {:induction false} MethodOptionWritesRecordEveryMethod(vcs: string, methods: seq<(string, Option<seq<string>>)>, j: nat)
    requires j < |methods| && methods[j].1.Some?
    ensures (vcs + " " + methods[j].0, LongOptions(methods[j].1.value)) in MethodOptionWrites(vcs, methods)
    decreases |methods|
  {
    if j < |methods| - 1 {
      MethodOptionWritesRecordEveryMethod(vcs, methods[..|methods| - 1], j);
    }
  }

  /** The filter keeps the order of the keys: filtering a concatenation filters each part. */
  lemma {:induction false} LongOptionsAppend(a: seq<string>, b: seq<string>)
    ensures LongOptions(a + b) == LongOptions(a) + LongOptions(b)
    decreases |b|
  {
    if b == [] {
      AppendEmpty(a);
    } else {
      var init := b[..|b| - 1];
      var last := b[|b| - 1];
      var kept := if |last| > 1 then [last] else [];
      LongOptionsAppend(a, init);
      AppendInit(a, b);
      assert LongOptions(a + b) == LongOptions(a + init) + kept;
      assert LongOptions(b) == LongOptions(init) + kept;
      AppendAssoc(LongOptions(a), LongOptions(init), kept);
    }
  }

  /** Every write recorded for the option table comes from a method whose option object is not null. */
  lemma {:induction false} OptionWritesComeFromMethods(t: seq<(string, Obj<Option<seq<string>>>)>, w: (string, seq<string>))
    requires w in OptionWrites(t)
    ensures exists i, j ::
      0 <= i < |t| && 0 <= j < |t[i].1| && t[i].1[j].1.Some?
      && w == (t[i].0 + " " + t[i].1[j].0, LongOptions(t[i].1[j].1.value))
    decreases |t|
  {
    var init, last := t[..|t| - 1], t[|t| - 1];
    if w in OptionWrites(init) {
      OptionWritesComeFromMethods(init, w);
      var i, j :| 0 <= i < |init| && 0 <= j < |init[i].1| && init[i].1[j].1.Some?
        && w == (init[i].0 + " " + init[i].1[j].0, LongOptions(init[i].1[j].1.value));
      assert init[i] == t[i];
    } else {
      MethodOptionWritesComeFromMethods(last.0, last.1, w);
      var j :| 0 <= j < |last.1| && last.1[j].1.Some? && w == (last.0 + " " + last.1[j].0, LongOptions(last.1[j].1.value));
      assert t[|t| - 1] == last;
    }
  }

  lemma {:induction false} MethodOptionWritesComeFromMethods(vcs: string, methods: seq<(string, Option<seq<string>>)>, w: (string, seq<string>))
    requires w in MethodOptionWrites(vcs, methods)
    ensures exists j :: 0 <= j < |methods| && methods[j].1.Some? && w == (vcs + " " + methods[j].0, LongOptions(methods[j].1.value))
    decreases |methods|
  {
    var init := methods[..|methods| - 1];
    if w in MethodOptionWrites(vcs, init) {
      MethodOptionWritesComeFromMethods(vcs, init, w);
      var j :| 0 <= j < |init| && init[j].1.Some? && w == (vcs + " " + init[j].0, LongOptions(init[j].1.value));
      assert init[j] == methods[j];
    }
  }

  /**
   * The options printed for `vcs method` are the long options of that
   * method's option object, in key order, when no other `vcs`/method pair
   * spells the same name.
   */
  lemma EngineCommandOptions(t: OptionTable, i: nat, j: nat, keys: seq<string>)
    requires i < |t| && j < |t[i].1| && t[i].1[j].1 == Some(keys)
    requires forall i', j' ::
      0 <= i' < |t| && 0 <= j' < |t[i'].1| && t[i'].0 + " " + t[i'].1[j'].0 == t[i].0 + " " + t[i].1[j].0
      ==> i' == i && j' == j
    ensures LastFor(OptionWrites(t), t[i].0 + " " + t[i].1[j].0) == Some(LongOptions(keys))
  {
    var c := t[i].0 + " " + t[i].1[j].0;
    OptionWritesRecordEveryMethod(t, i, j);
    forall w | w in OptionWrites(t) && w.0 == c
      ensures w.1 == LongOptions(keys)
    {
      OptionWritesComeFromMethods(t, w);
    }
    LastForOnlyValue(OptionWrites(t), c, LongOptions(keys));
  }

  /** Such a command, when it is not also an instant command's name, is printed as its name and then those options. */
  lemma EngineCommandPrintsItsOptions(t: OptionTable, i: nat, j: nat, keys: seq<string>)
    requires i < |t| && j < |t[i].1| && t[i].1[j].1 == Some(keys)
    requires forall i', j' ::
      0 <= i' < |t| && 0 <= j' < |t[i'].1| && t[i'].0 + " " + t[i'].1[j'].0 == t[i].0 + " " + t[i].1[j].0
      ==> i' == i && j' == j
    requires t[i].0 + " " + t[i].1[j].0 !in Keys(Listings(InstantCommands))
    ensures Block(t[i].0 + " " + t[i].1[j].0, CommandToOptions(t), SelectedInstantCommands())
      == [t[i].0 + " " + t[i].1[j].0] + Indented(LongOptions(keys))
  {
    EngineCommandOptions(t, i, j, keys);
    EngineCommandBlock(t, t[i].0 + " " + t[i].1[j].0);
  }

  /** The commands listed are those of the merged table together with the named instant commands. */
  lemma ListedCommandsKeys(level: Obj<string>, engine: AllCommands.EngineTable<string>, c: string)
    ensures c in Keys(ListedCommands(level, engine))
      <==> c in Keys(AllCommands.AllCommands(level, engine)) || c in Keys(Listings(InstantCommands))
  {
    AssignIntoEmpty(AllCommands.AllCommands(level, engine));
    SetAllKeys(AllCommands.AllCommands(level, engine), Listings(InstantCommands), c);
  }

  /** Every command of a key list gets a line of its own. */
  lemma {:induction false} BlocksListEveryCommand(commands: seq<string>, commandToOptions: Obj<seq<string>>, selected: Obj<string>)
    ensures forall c :: c in commands ==> c in Blocks(commands, commandToOptions, selected)
    decreases |commands|
  {
    if commands != [] {
      BlocksListEveryCommand(commands[..|commands| - 1], commandToOptions, selected);
      var last := commands[|commands| - 1];
      var b := Block(last, commandToOptions, selected);
      var gap := if Truthy(Get(selected, last)) then [Break] else [];
      assert b[|gap|] == last;
      assert commands == commands[..|commands| - 1] + [last];
    }
  }

  /** `show commands` prints the header, a break, and then every listed command. */
  lemma CatalogueListsEveryCommand(header: string, level: Obj<string>, engine: AllCommands.EngineTable<string>, options: OptionTable, c: string)
    requires c in Keys(AllCommands.AllCommands(level, engine)) || c in Keys(Listings(InstantCommands))
    ensures CatalogueLines(header, level, engine, options)[..2] == [header, Break]
    ensures c in CatalogueLines(header, level, engine, options)
  {
    ListedCommandsKeys(level, engine, c);
    BlocksListEveryCommand(Keys(ListedCommands(level, engine)), CommandToOptions(options), SelectedInstantCommands());
  }

  /** No indented option line equals a line that does not start with the indent. */
  lemma {:induction false} IndentedLines(os: seq<string>, c: string)
    requires !Text.StartsWith(c, Indent)
    ensures multiset(Indented(os))[c] == 0
    decreases |os|
  {
    if os != [] {
      IndentedLines(os[..|os| - 1], c);
      assert (Indent + os[|os| - 1])[..|Indent|] == Indent;
    }
  }

  /** A line that is neither a break nor indented occurs in a command's block only as that command's name. */
  lemma BlockNames(command: string, commandToOptions: Obj<seq<string>>, selected: Obj<string>, c: string)
    requires c != Break && !Text.StartsWith(c, Indent)
    ensures multiset(Block(command, commandToOptions, selected))[c] == if command == c then 1 else 0
  {
    match Get(commandToOptions, command)
    case Some(os) => IndentedLines(os, c);
    case None =>
  }

  /** Such a line occurs in the blocks exactly as often as the command occurs in the key list. */
  lemma {:induction false} BlocksNameEachCommand(commands: seq<string>, commandToOptions: Obj<seq<string>>, selected: Obj<string>, c: string)
    requires c != Break && !Text.StartsWith(c, Indent)
    ensures multiset(Blocks(commands, commandToOptions, selected))[c] == multiset(commands)[c]
    decreases |commands|
  {
    if commands != [] {
      var init, last := commands[..|commands| - 1], commands[|commands| - 1];
      BlocksNameEachCommand(init, commandToOptions, selected, c);
      BlockNames(last, commandToOptions, selected, c);
      LastCount(commands, c);
      assert Blocks(commands, commandToOptions, selected)
        == Blocks(init, commandToOptions, selected) + Block(last, commandToOptions, selected);
    }
  }

  /**
   * Below the header and its break, a line that is neither a break nor an
   * indented option names a listed command, and every listed command is
   * named exactly once.
   */
  lemma CatalogueNamesEachCommandOnce(header: string, level: Obj<string>, engine: AllCommands.EngineTable<string>, options: OptionTable, c: string)
    requires c != Break && !Text.StartsWith(c, Indent)
    ensures multiset(CatalogueLines(header, level, engine, options)[2..])[c]
      == if c in Keys(AllCommands.AllCommands(level, engine)) || c in Keys(Listings(InstantCommands)) then 1 else 0
  {
    var listed := ListedCommands(level, engine);
    assert CatalogueLines(header, level, engine, options)[2..]
      == Blocks(Keys(listed), CommandToOptions(options), SelectedInstantCommands());
    BlocksNameEachCommand(Keys(listed), CommandToOptions(options), SelectedInstantCommands(), c);
    KeysOnce(listed, c);
    ListedCommandsKeys(level, engine, c);
  }

  /** Every listed name is the name of some entry of the table. */
  lemma {:induction false} ListedNamesAreEntryNames(entries: seq<Entry>, k: string)
    requires k in Keys(Listings(entries))
    ensures exists e :: e in entries && e.listing.Some? && e.listing.value.name == k
    decreases |entries|
  {
    var init, last := entries[..|entries| - 1], entries[|entries| - 1];
    assert Keys(Listings(entries)) == Keys(Listings(init)) + Keys(ListingOf(last));
    if k in Keys(Listings(init)) {
      ListedNamesAreEntryNames(init, k);
      var e :| e in init && e.listing.Some? && e.listing.value.name == k;
      assert e in entries;
    } else {
      assert last in entries;
    }
  }

  /** No instant command is named `mobileAlert`. */
  lemma NoInstantMobileAlert()
    ensures AllCommands.MobileAlert !in Keys(Listings(InstantCommands))
  {
    if AllCommands.MobileAlert in Keys(Listings(InstantCommands)) {
      ListedNamesAreEntryNames(InstantCommands, AllCommands.MobileAlert);
    }
  }

  /** The deny-listed `mobileAlert` never appears below the header. */
  lemma CatalogueOmitsMobileAlert(header: string, level: Obj<string>, engine: AllCommands.EngineTable<string>, options: OptionTable)
    ensures AllCommands.MobileAlert !in CatalogueLines(header, level, engine, options)[2..]
  {
    AllCommands.AllCommandsKeys(level, engine, AllCommands.MobileAlert);
    NoInstantMobileAlert();
    CatalogueNamesEachCommandOnce(header, level, engine, options, AllCommands.MobileAlert);
  }

  /**
   * A named instant command is set apart by a break before and after, and
   * its help text is its one option line.
   */
  lemma NamedCommandBlock(ls: seq<(string, string)>, writes: seq<(string, seq<string>)>, c: string)
    requires c in Keys(ls) && LastFor(ls, c).value != ""
    ensures Block(c, SetAll(SetAll([], writes), HelpAsOptions(ls)), SetAll([], ls))
      == [Break, c, Indent + LastFor(ls, c).value, Break]
  {
    var h := LastFor(ls, c).value;
    var selected := SetAll([], ls);
    var toOptions := SetAll(SetAll([], writes), HelpAsOptions(ls));
    SetAllGet([], ls, c);
    assert Get(selected, c) == Some(h);
    HelpAsOptionsLastFor(ls, c);
    assert c in Keys(HelpAsOptions(ls));
    SetAllGet(SetAll([], writes), HelpAsOptions(ls), c);
    assert Get(toOptions, c) == Some([h]);
    assert Indented([h]) == [Indent + h] by {
      assert [h][..0] == [];
    }
    assert Truthy(Get(selected, c));
    assert Block(c, toOptions, selected) == [Break] + [c] + [Indent + h] + [Break];
    FourLines(Break, c, Indent + h, Break);
  }

  lemma FourLines(a: string, b: string, c: string, d: string)
    ensures [a] + [b] + [c] + [d] == [a, b, c, d]
  {
  }

  /** `NamedCommandBlock` for the instant-command table itself. */
  lemma InstantCommandBlock(options: OptionTable, c: string)
    requires c in Keys(Listings(InstantCommands)) && LastFor(Listings(InstantCommands), c).value != ""
    ensures Block(c, CommandToOptions(options), SelectedInstantCommands())
      == [Break, c, Indent + LastFor(Listings(InstantCommands), c).value, Break]
  {
    NamedCommandBlock(Listings(InstantCommands), OptionWrites(options), c);
  }

  /**
   * Any other command is one line, followed by its long options when the
   * engine has an option object for it.
   */
  lemma EngineCommandBlock(options: OptionTable, c: string)
    requires c !in Keys(Listings(InstantCommands))
    ensures Block(c, CommandToOptions(options), SelectedInstantCommands())
      == [c] + match LastFor(OptionWrites(options), c)
        case Some(os) => Indented(os)
        case None => []
    ensures forall os :: LastFor(OptionWrites(options), c) == Some(os) ==> forall o :: o in os ==> |o| > 1
  {
    SetAllGet([], Listings(InstantCommands), c);
    PlainBlock(c, CommandToOptions(options), SelectedInstantCommands());
    SetAllGet(SetAll([], OptionWrites(options)), HelpAsOptions(Listings(InstantCommands)), c);
    HelpAsOptionsLastFor(Listings(InstantCommands), c);
    SetAllGet([], OptionWrites(options), c);
    OptionWritesAreLong(options, c);
  }

  /** A command that is not selected gets no breaks around its lines. */
  lemma PlainBlock(command: string, commandToOptions: Obj<seq<string>>, selected: Obj<string>)
    requires !Truthy(Get(selected, command))
    ensures Block(command, commandToOptions, selected)
      == [command] + match Get(commandToOptions, command)
        case Some(os) => Indented(os)
        case None => []
  {
    var options := match Get(commandToOptions, command)
      case Some(os) => Indented(os)
      case None => [];
    assert [] + [command] + options + [] == [command] + options;
  }
}

/**
 * The sandbox's own name-to-pattern table (`regexMap`) and
 * `getAllCommands`, which merges it with the level table and with one
 * `"<vcs> <method>"` entry per pattern of the version-control engine,
 * then deletes the deny-listed names (src/js/sandbox/commands.js:176-219).
 *
 * A pattern is represented by its source text; no regular expression is
 * run here. The level table and the engine's `getRegexMap()` are inputs.
 * All tables are values, so the inputs cannot be changed by the merge.
 */
module AllCommands {
  import opened Wrappers
  import opened JsObject

  const MobileAlert := "mobileAlert"

  /** `toDelete` */
  const ToDelete: seq<string> := [MobileAlert]

  /** `regexMap`, as the object literal's assignments in source order. */
  function RegexMap(): seq<(string, string)> {[
    ("reset solved", "^reset solved($|\\s)"),
    ("help", "^help( +general)?$|^\\?$"),
    ("reset", "^reset( +--forSolution)?$"),
    ("delay", "^delay (\\d+)$"),
    ("clear", "^clear($|\\s)"),
    ("exit level", "^exit level($|\\s)"),
    ("sandbox", "^sandbox($|\\s)"),
    ("level", "^level\\s?([a-zA-Z0-9]*)"),
    ("levels", "^levels($|\\s)"),
    ("build level", "^build +level\\s?([a-zA-Z0-9]*)( +--skipIntro)?$"),
    ("export tree", "^export +tree$"),
    ("importTreeNow", "^importTreeNow($|\\s)"),
    ("importLevelNow", "^importLevelNow($|\\s)"),
    ("import tree", "^import +tree$"),
    ("import level", "^import +level$"),
    ("undo", "^undo($|\\s)"),
    ("share permalink", "^share( +permalink)?$")
  ]}

  /** A table of the engine, `vcs -> method -> V`. */
  type EngineTable<V> = Obj<Obj<V>>

  /** The assignments `allCommands[vcs + ' ' + method] = map[method]` for one `vcs`, in key order. */
  function MethodWrites<V>(vcs: string, methods: seq<(string, V)>): seq<(string, V)>
    decreases |methods|
  {
    if methods == [] then []
    else MethodWrites(vcs, methods[..|methods| - 1]) + [(vcs + " " + methods[|methods| - 1].0, methods[|methods| - 1].1)]
  }

  /** The same assignments for every `vcs` of the table, in key order. */
  function EngineWrites<V>(t: seq<(string, Obj<V>)>): seq<(string, V)>
    decreases |t|
  {
    if t == [] then []
    else EngineWrites(t[..|t| - 1]) + MethodWrites(t[|t| - 1].0, t[|t| - 1].1)
  }

  function DeleteAll<V>(o: Obj<V>, ks: seq<string>): Obj<V>
    decreases |ks|
  {
    if ks == [] then o else Delete(DeleteAll(o, ks[..|ks| - 1]), ks[|ks| - 1])
  }

  lemma DeleteMobileAlert<V>(o: Obj<V>)
    ensures DeleteAll(o, ToDelete) == Delete(o, MobileAlert)
  {
    assert ToDelete[..0] == [];
  }

  /** `Object.assign({}, level, local)`, then the engine entries, then the deletions. */
  function Merge<V>(level: Obj<V>, local: seq<(string, V)>, engine: EngineTable<V>): Obj<V>
  {
    DeleteAll(SetAll(SetAll(SetAll([], level), local), EngineWrites(engine)), ToDelete)
  }

  /** What `getAllCommands()` returns. */
  function AllCommands(level: Obj<string>, engine: EngineTable<string>): Obj<string>
  {
    Merge(level, RegexMap(), engine)
  }

  /** `getAllCommands`, with the level table and `Commands.commands.getRegexMap()` as inputs. */
  method GetAllCommands(level: Obj<string>, engine: EngineTable<string>) returns (all: Obj<string>)
    ensures all == AllCommands(level, engine)
  {
    all := MergeTables(level, RegexMap(), engine);
  }

  /** The body of `getAllCommands`, for any sandbox table `local`. */
  method MergeTables<V>(level: Obj<V>, local: seq<(string, V)>, engine: EngineTable<V>) returns (all: Obj<V>)
    ensures all == Merge(level, local, engine)
  {
    all := SetAll(SetAll([], level), local);
    ghost var merged := all;
    var i := 0;
    while i < |engine|
      invariant i <= |engine|
      invariant all == SetAll(merged, EngineWrites(engine[..i]))
    {
      all := AddEngineEntries(all, engine[i].0, engine[i].1);
      assert engine[..i + 1][..i] == engine[..i];
      SetAllAppend(merged, EngineWrites(engine[..i]), MethodWrites(engine[i].0, engine[i].1));
      i := i + 1;
    }
    assert engine[..i] == engine;
    all := DeleteEach(all, ToDelete);
  }

  /** `toDelete.forEach(key => delete allCommands[key])` */
  method DeleteEach<V>(o: Obj<V>, ks: seq<string>) returns (r: Obj<V>)
    ensures r == DeleteAll(o, ks)
  {
    r := o;
    var d := 0;
    while d < |ks|
      invariant d <= |ks|
      invariant r == DeleteAll(o, ks[..d])
    {
      assert ks[..d + 1][..d] == ks[..d];
      r := Delete(r, ks[d]);
      d := d + 1;
    }
    assert ks[..d] == ks;
  }

  /** The inner `forEach`: one `vcs method` entry per method of `vcs`, in key order. */
  method AddEngineEntries<V>(all: Obj<V>, vcs: string, methods: Obj<V>) returns (r: Obj<V>)
    ensures r == SetAll(all, MethodWrites(vcs, methods))
  {
    r := all;
    var j := 0;
    while j < |methods|
      invariant j <= |methods|
      invariant r == SetAll(all, MethodWrites(vcs, methods[..j]))
    {
      assert methods[..j + 1][..j] == methods[..j];
      r := Set(r, vcs + " " + methods[j].0, methods[j].1);
      j := j + 1;
    }
    assert methods[..j] == methods;
  }

  /** The engine entries are named `vcs + ' ' + method`, one per method of each `vcs`. */
  lemma {:induction false} EngineWriteKeys<V>(t: seq<(string, Obj<V>)>, k: string)
    ensures k in Keys(EngineWrites(t)) <==>
      exists i, j :: 0 <= i < |t| && 0 <= j < |t[i].1| && k == t[i].0 + " " + t[i].1[j].0
    decreases |t|
  {
    if t != [] {
      var front := t[..|t| - 1];
      EngineWriteKeys(front, k);
      var last := t[|t| - 1];
      MethodWriteKeys(last.0, last.1, k);
      assert Keys(EngineWrites(t)) == Keys(EngineWrites(front)) + Keys(MethodWrites(last.0, last.1));
      if exists i, j :: 0 <= i < |t| && 0 <= j < |t[i].1| && k == t[i].0 + " " + t[i].1[j].0 {
        var i, j :| 0 <= i < |t| && 0 <= j < |t[i].1| && k == t[i].0 + " " + t[i].1[j].0;
        if i < |t| - 1 {
          assert front[i] == t[i];
        }
      }
    }
  }

  lemma {:induction false} MethodWriteKeys<V>(vcs: string, methods: seq<(string, V)>, k: string)
    ensures k in Keys(MethodWrites(vcs, methods)) <==>
      exists j :: 0 <= j < |methods| && k == vcs + " " + methods[j].0
    decreases |methods|
  {
    if methods != [] {
      var front := methods[..|methods| - 1];
      MethodWriteKeys(vcs, front, k);
      assert Keys(MethodWrites(vcs, methods)) == Keys(MethodWrites(vcs, front)) + [vcs + " " + methods[|methods| - 1].0];
      if exists j :: 0 <= j < |methods| && k == vcs + " " + methods[j].0 {
        var j :| 0 <= j < |methods| && k == vcs + " " + methods[j].0;
        if j < |methods| - 1 {
          assert front[j] == methods[j];
        }
      }
    }
  }

  /**
   * The merged table has the level names, the sandbox's own names and the
   * engine's `vcs method` names, and nothing else, minus `mobileAlert`.
   */
  lemma AllCommandsKeys(level: Obj<string>, engine: EngineTable<string>, k: string)
    ensures k in Keys(AllCommands(level, engine)) <==>
      k != MobileAlert && (k in Keys(level) || k in Keys(RegexMap()) || k in Keys(EngineWrites(engine)))
  {
    MergeKeys(level, RegexMap(), engine, k);
  }

  lemma MergeKeys<V>(level: Obj<V>, local: seq<(string, V)>, engine: EngineTable<V>, k: string)
    ensures k in Keys(Merge(level, local, engine)) <==>
      k != MobileAlert && (k in Keys(level) || k in Keys(local) || k in Keys(EngineWrites(engine)))
  {
    MergeValues(level, local, engine, k);
  }

  /**
   * Later sources win: an engine entry overrides the sandbox's own, which
   * overrides the level table's; `mobileAlert` is gone whatever its source.
   */
  lemma AllCommandsValues(level: Obj<string>, engine: EngineTable<string>, k: string)
    ensures Get(AllCommands(level, engine), k) ==
      if k == MobileAlert then None
      else if k in Keys(EngineWrites(engine)) then LastFor(EngineWrites(engine), k)
      else if k in Keys(RegexMap()) then LastFor(RegexMap(), k)
      else Get(level, k)
  {
    MergeValues(level, RegexMap(), engine, k);
  }

  lemma MergeValues<V>(level: Obj<V>, local: seq<(string, V)>, engine: EngineTable<V>, k: string)
    ensures Get(Merge(level, local, engine), k) ==
      if k == MobileAlert then None
      else if k in Keys(EngineWrites(engine)) then LastFor(EngineWrites(engine), k)
      else if k in Keys(local) then LastFor(local, k)
      else Get(level, k)
  {
    var withLocal := SetAll(SetAll([], level), local);
    var merged := SetAll(withLocal, EngineWrites(engine));
    SetAllGet(withLocal, EngineWrites(engine), k);
    SetAllGet(SetAll([], level), local, k);
    AssignIntoEmpty(level);
    DeleteMobileAlert(merged);
  }

  /** The level table's names come first, in their own order. */
  lemma LevelKeysComeFirst(level: Obj<string>, engine: EngineTable<string>)
    requires MobileAlert !in Keys(level)
    ensures Keys(level) <= Keys(AllCommands(level, engine))
  {
    MergeKeepsLevelOrder(level, RegexMap(), engine);
  }

  lemma MergeKeepsLevelOrder<V>(level: Obj<V>, local: seq<(string, V)>, engine: EngineTable<V>)
    requires MobileAlert !in Keys(level)
    ensures Keys(level) <= Keys(Merge(level, local, engine))
  {
    var merged := SetAll(SetAll(SetAll([], level), local), EngineWrites(engine));
    AssignsKeepLevelOrder(level, local, engine);
    DeleteMobileAlert(merged);
    DeleteKeepsPrefix(merged, Keys(level), MobileAlert);
  }

  lemma AssignsKeepLevelOrder<V>(level: Obj<V>, local: seq<(string, V)>, engine: EngineTable<V>)
    ensures Keys(level) <= Keys(SetAll(SetAll(SetAll([], level), local), EngineWrites(engine)))
  {
    AssignIntoEmpty(level);
    SetAllKeepsOrder(level, local);
    SetAllKeepsOrder(SetAll(level, local), EngineWrites(engine));
  }

  /** Deleting a key outside a prefix of the key order keeps that prefix. */
  lemma DeleteKeepsPrefix<V>(o: Obj<V>, p: seq<string>, k: string)
    requires p <= Keys(o) && k !in p
    ensures p <= Keys(Delete(o, k))
  {
    if k in Keys(o) {
      var i :| 0 <= i < |o| && o[i].0 == k;
      assert i >= |p|;
      PrefixSurvivesRemoval(Keys(o), p, i);
    }
  }

  lemma PrefixSurvivesRemoval(a: seq<string>, p: seq<string>, i: nat)
    requires p <= a && |p| <= i < |a|
    ensures p <= a[..i] + a[i + 1..]
  {
    assert (a[..i] + a[i + 1..])[..|p|] == a[..|p|];
  }
}

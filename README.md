# Sandbox instant commands

A Dafny model of `src/js/sandbox/commands.js`, the sandbox command table of a
browser-based git tutorial. It covers three parts of that file:

- the ordered table of *instant commands* (`instantCommands`). Each entry pairs
  an anchored regular expression with a handler. The handlers answer `ls`,
  `cd`, `locale`, `show`, `alias`, `unalias`, `flip`,
  `disableLevelInstructions`, `refresh`, `rollup`, `echo` and `show commands`
  at once, changing the locale, the tree orientation, the level-instructions
  flag, the alias map or firing events;
- `regexMap` and `getAllCommands`, which build the table of every command
  name. The level table, the sandbox's own names and one `"<vcs> <method>"`
  name per engine pattern are merged with `Object.assign` semantics, and then
  `mobileAlert` is deleted;
- the `show commands` handler, which lists every command name. Engine commands
  get their long options indented below them. Named instant commands are set
  apart by breaks and show their help text.

Modules:

- `Wrappers`: `Option`.
- `Text`: character classes, spaces and `Array.prototype.join`.
- `Localization`: `intl.str` and `intl.todo` as uninterpreted functions of an
  `Intl` value.
- `JsObject`: plain objects as association lists in property order, with `o[k]`,
  `o[k] = v`, `delete o[k]` and `Object.assign`.
- `Patterns`: one `Exec` per regular expression of the table, giving `null` or
  the match array.
- `InstantTable`: the table and the first-match scan.
- `AllCommands`: `regexMap` and `getAllCommands`.
- `Catalogue`: the `show commands` output.
- `Sandbox`: the handlers. The stores they update in place are the fields of
  class `SandboxStores`. The event bus is an append-only log. Each event
  carries the `flipTreeY` value its listeners would read.

Every handler in the source ends by throwing a `CommandResult`. Here the
handler returns it. The loop that tries the table lives outside this file. The
model assumes it tries entries in array order and the first matching entry
handles the input (`InstantTable.FirstHit`). Every handler throws, so no later
entry runs.

## Model

| member | source | states |
|---|---|---|
| `Patterns.Exec` | src/js/sandbox/commands.js:21-118 | `p.exec(s)` for each of the thirteen anchored patterns of the table: `None` for no match, otherwise the matched text and each capture group, with `None` for a group that did not take part |
| `InstantTable.FirstHit` | src/js/sandbox/commands.js:18-174 | The first entry, in array order, whose pattern matches the input, with its match array (the scan order is the assumption stated above) |
| `Sandbox.Respond` | src/js/sandbox/commands.js:21-173 | Each handler's message and the new store state: `ls`/`cd`/`show`/`echo`/`show commands` change nothing, `locale` sets the default or the given word, `alias`/`unalias` update the alias map, `flip` negates the flag then fires `refreshTree`, `disableLevelInstructions` sets its flag, `refresh`/`rollup` fire one event |
| `Sandbox.Instant` | src/js/sandbox/commands.js:18-174 | `None` when no pattern matches; otherwise `Respond` for the first matching entry |
| `Sandbox.ShowMessage` | src/js/sandbox/commands.js:44-53 | The five lines of `show` joined by newlines |
| `Sandbox.AliasMessage` | src/js/sandbox/commands.js:61 | `Set alias "n" to "e"` |
| `Sandbox.UnaliasMessage` | src/js/sandbox/commands.js:68 | `Removed alias "n"` |
| `Sandbox.CatalogueMessage` | src/js/sandbox/commands.js:151-172 | The catalogue lines joined by newlines, under the localised `show-all-commands` header |
| `Sandbox.EchoMessageAsWritten` | src/js/sandbox/commands.js:113 | `bits[1] \|\| bits[2]` as written: the quoted capture when it is a non-empty string, otherwise the second group, which may be undefined |
| `Sandbox.EchoMessage` | src/js/sandbox/commands.js:112-117 | The intended echo message: the quoted capture whenever the first alternative matched, even when empty, otherwise the unquoted capture |
| `AllCommands.RegexMap` | src/js/sandbox/commands.js:176-194 | The seventeen names of `regexMap` in source order, each with its pattern's source text |
| `AllCommands.Merge` | src/js/sandbox/commands.js:201-216 | `Object.assign({}, level, local)`, then `vcs + ' ' + method` for every engine pattern in key order, then `delete` of each `toDelete` name |
| `AllCommands.AllCommands` | src/js/sandbox/commands.js:196-219 | What `getAllCommands()` returns: `Merge` with `regexMap` as the sandbox table |
| `Catalogue.OptionWrites` | src/js/sandbox/commands.js:126-134 | The writes `commandToOptions[vcs + ' ' + method] = long options`, in key order, skipping null option objects |
| `Catalogue.Listings` | src/js/sandbox/commands.js:137-142 | `(tuple[2], tuple[3])` of every entry with a non-empty name, in table order |
| `Catalogue.ListedCommands` | src/js/sandbox/commands.js:119-149 | `allCommands` after the copy of `getAllCommands()` and the named instant commands are added |
| `Catalogue.CommandToOptions` | src/js/sandbox/commands.js:123-149 | `commandToOptions` once the engine options and the instant help texts are written |
| `Catalogue.SelectedInstantCommands` | src/js/sandbox/commands.js:136-149 | `selectedInstantCommands`: each named instant command mapped to its help text |
| `Catalogue.Block` | src/js/sandbox/commands.js:156-167 | The lines for one command: a break when its selected value is truthy, the name, its options each after the indent, and a break when selected |
| `Catalogue.Blocks` | src/js/sandbox/commands.js:155-168 | The blocks of the commands, concatenated in key order |
| `Catalogue.CatalogueLines` | src/js/sandbox/commands.js:151-168 | The header, a break, then the blocks of `Object.keys(allCommands)` |
| `InstantTable.FirstHitFrom` | src/js/sandbox/commands.js:18-174 | The chosen entry matches, every entry before it from the starting point fails to match, and `None` means no entry from there matches (the first-match scan is an assumption about the caller) |
| `InstantTable.Scan` | src/js/sandbox/commands.js:18-174 | The loop over the table returns exactly the first matching entry and its match array |
| `InstantTable.FirstHitAt` | src/js/sandbox/commands.js:18-174 | Entry `i` handles `s` when it matches and no earlier entry does |
| `Sandbox.SandboxStores.RunInstant` | src/js/sandbox/commands.js:18-174 | Running an input through the table returns the first matching handler's result and leaves the stores in that handler's new state; with no match, it returns nothing and changes nothing |
| `Sandbox.SandboxStores.Handle` | src/js/sandbox/commands.js:21-117 | Each handler other than `show commands` produces the message and store updates of `Respond` for its entry |
| `Sandbox.SandboxStores.ShowCatalogue` | src/js/sandbox/commands.js:118-173 | The `show commands` handler answers the catalogue lines joined by newlines |
| `Sandbox.SandboxStores.ChangeLocale` | src/js/sandbox/commands.js:32-34 | Only the locale changes, to the given value |
| `Sandbox.SandboxStores.ChangeFlipTreeY` | src/js/sandbox/commands.js:81-83 | Only `flipTreeY` changes, to the given value |
| `Sandbox.SandboxStores.DisableLevelInstructions` | src/js/sandbox/commands.js:90 | Only the level-instructions flag changes, and it becomes set |
| `Sandbox.SandboxStores.AddToAliasMap` | src/js/sandbox/commands.js:59 | Only the alias map changes, by mapping the name to the expansion |
| `Sandbox.SandboxStores.RemoveFromAliasMap` | src/js/sandbox/commands.js:66 | Only the alias map changes, by losing the name |
| `Sandbox.SandboxStores.Trigger` | src/js/sandbox/commands.js:84 | Only the event log changes, by one event that carries the current `flipTreeY` |
| `Sandbox.HandledBy` | src/js/sandbox/commands.js:18-174 | An input is answered by entry `i` when that entry matches and no earlier pattern does |
| `Sandbox.HandledByNone` | src/js/sandbox/commands.js:18-174 | An input that no pattern matches is not an instant command |
| `Sandbox.ListAndChangeDirectory` | src/js/sandbox/commands.js:21-30 | `ls` and `cd`, alone or followed by a space and anything, answer their fixed localised message and change no state |
| `Sandbox.NoWordBoundaryNoCommand` | src/js/sandbox/commands.js:21-30 | `ls` or `cd` glued to more text (`lsx`, `cdfoo`) is not an instant command at all |
| `Sandbox.LocaleReset` | src/js/sandbox/commands.js:31-42 | `locale` and `locale reset` set the default locale and report it, so `locale reset` never makes `reset` the locale |
| `Sandbox.ResetIsALocaleWord` | src/js/sandbox/commands.js:71 | The later `locale <word>` pattern would also match `locale reset`, capturing `reset`, so only the table order keeps it out |
| `Sandbox.LocaleSetsToken` | src/js/sandbox/commands.js:71-79 | `locale t`, for any other word `t`, sets the locale to `t` verbatim and reports it |
| `Sandbox.ShowListsTopics` | src/js/sandbox/commands.js:43-55 | `show` answers its title, a break and the three sub-topics, one per line, and changes no state |
| `Sandbox.ShowIsExact` | src/js/sandbox/commands.js:43 | The `show` pattern matches only the exact word |
| `Sandbox.ShowCommandsReachesCatalogue` | src/js/sandbox/commands.js:118 | `show`, one or more spaces, then `commands` passes every earlier entry, reaches the catalogue handler and changes no state |
| `Sandbox.AliasRecords` | src/js/sandbox/commands.js:56-63 | `alias n="e"` maps exactly `n` to `e` in the alias map, changes nothing else and reports `Set alias "n" to "e"` |
| `Sandbox.UnaliasRemoves` | src/js/sandbox/commands.js:64-70 | `unalias n` removes `n` from the alias map whether or not it was there, and reports it |
| `Sandbox.UnaliasUndoesAlias` | src/js/sandbox/commands.js:56-70 | `unalias n` after `alias n="e"` restores the stores when `n` had no alias before |
| `Sandbox.FlipNegates` | src/js/sandbox/commands.js:80-88 | `flip` stores the negated `flipTreeY`, then fires `refreshTree`, whose listeners already see the new value |
| `Sandbox.FlipTwiceRestores` | src/js/sandbox/commands.js:80-88 | Two flips restore `flipTreeY` and leave exactly two `refreshTree` events in the log |
| `Sandbox.DisableLevelInstructionsSetsFlag` | src/js/sandbox/commands.js:89-94 | `disableLevelInstructions` sets the flag and answers the `intl.todo` message |
| `Sandbox.RefreshTriggers` | src/js/sandbox/commands.js:95-102 | `refresh` fires only `refreshTree` |
| `Sandbox.RollupTriggers` | src/js/sandbox/commands.js:103-111 | `rollup <digits>` fires `rollupCommands` with the digits as text and answers `Commands combined!` |
| `Sandbox.EchoQuoted` | src/js/sandbox/commands.js:112-117 | `echo "t"` answers `t` without the quotes |
| `Sandbox.EchoPlain` | src/js/sandbox/commands.js:112-117 | `echo t`, where `t` is not wrapped in quotes, answers `t` |
| `Sandbox.EchoEmptyQuotesAsWritten` | src/js/sandbox/commands.js:113 | As written, `bits[1] \|\| bits[2]` leaves the message of `echo ""` undefined |
| `Sandbox.EchoAsWrittenAgrees` | src/js/sandbox/commands.js:113 | For every other echo input, the written fallback and the intended message agree |
| `Sandbox.EventsOnlyGrow` | src/js/sandbox/commands.js:18-174 | No instant command removes or rewrites an event; each appends at most one |
| `Sandbox.PureEntriesKeepState` | src/js/sandbox/commands.js:21-173 | The `ls`, `cd`, `show`, `echo` and `show commands` handlers change no state |
| `Patterns.AliasMatches` | src/js/sandbox/commands.js:56 | `alias n="e"`, with `n` a word and `e` a non-empty line, matches and captures `n` and `e` |
| `Patterns.AliasMatchIsSound` | src/js/sandbox/commands.js:56 | Every match of the alias pattern has this shape |
| `Patterns.ShowCommandsMatches` | src/js/sandbox/commands.js:118 | `show`, k ≥ 1 spaces, then `commands` matches `^show +commands$` |
| `Patterns.ShowCommandsMatchIsSound` | src/js/sandbox/commands.js:118 | Every match of `^show +commands$` has that shape |
| `Patterns.EchoQuotedMatches` | src/js/sandbox/commands.js:112 | `echo "t"` takes the first alternative, which captures `t`, and the second group stays undefined |
| `Patterns.EchoPlainMatches` | src/js/sandbox/commands.js:112 | `echo t`, where `t` is not wrapped in quotes, takes the second alternative, which captures `t` |
| `Patterns.MatchStartsWithLead` | src/js/sandbox/commands.js:21-118 | Every pattern is anchored: a match starts with the pattern's literal lead |
| `AllCommands.GetAllCommands` | src/js/sandbox/commands.js:196-219 | The loops compute the merged table `AllCommands`, and the input tables are values that stay unchanged |
| `AllCommands.MergeTables` | src/js/sandbox/commands.js:201-216 | The body of `getAllCommands` does two assigns, adds the engine entries and does the deletions |
| `AllCommands.AddEngineEntries` | src/js/sandbox/commands.js:207-213 | The inner loop assigns `vcs + ' ' + method` for every method of `vcs`, in key order |
| `AllCommands.DeleteEach` | src/js/sandbox/commands.js:214-216 | Each name of `toDelete` is deleted in turn |
| `AllCommands.EngineWriteKeys` | src/js/sandbox/commands.js:207-213 | The engine names are exactly `vcs + ' ' + method` for each method of each `vcs` |
| `AllCommands.AllCommandsKeys` | src/js/sandbox/commands.js:196-219 | The merged names are the union of the level, sandbox and engine names, minus `mobileAlert` |
| `AllCommands.AllCommandsValues` | src/js/sandbox/commands.js:196-219 | Later sources override earlier ones: an engine entry beats the sandbox's own, which beats the level's; `mobileAlert` is absent |
| `AllCommands.LevelKeysComeFirst` | src/js/sandbox/commands.js:201-205 | The level table's names keep their order at the head of the merged table |
| `AllCommands.DeleteKeepsPrefix` | src/js/sandbox/commands.js:214-216 | Deleting a name outside a leading run of names keeps that run |
| `Catalogue.LongOptions` | src/js/sandbox/commands.js:131 | Keeps exactly the option names longer than one character |
| `Catalogue.OptionLists` | src/js/sandbox/commands.js:123-134 | The loops over the option map record the long options of every method with a non-null option object |
| `Catalogue.AddOptionLists` | src/js/sandbox/commands.js:128-133 | The inner loop records each method of one `vcs` in key order |
| `Catalogue.AddOptionList` | src/js/sandbox/commands.js:129-132 | A null option object records nothing; otherwise `vcs method` gets its long options |
| `Catalogue.AddInstantCommands` | src/js/sandbox/commands.js:136-149 | Every named instant command is written into the command list, the option lists (help text as its one option) and the selected set |
| `Catalogue.AddNamedEntries` | src/js/sandbox/commands.js:137-149 | The same for any table of entries; unnamed entries are skipped |
| `Catalogue.AddNamedEntry` | src/js/sandbox/commands.js:139-147 | One entry: named entries go into all three objects, unnamed ones into none |
| `Catalogue.LayOut` | src/js/sandbox/commands.js:151-168 | The output is the header, a break, then one block per command in key order |
| `Catalogue.PushBlock` | src/js/sandbox/commands.js:156-167 | One command's block: a break when selected, the name, its indented options, a break when selected |
| `Catalogue.PushOptions` | src/js/sandbox/commands.js:162 | Each option is pushed with the four-space indent, in order |
| `Catalogue.BuildCatalogue` | src/js/sandbox/commands.js:118-168 | The handler's lines are exactly `CatalogueLines` |
| `Catalogue.ListingsAreNamedEntries` | src/js/sandbox/commands.js:139-142 | A (name, help) pair is listed exactly when its name is non-empty and some entry carries that name and help; entries without a name, or with an empty one, never appear |
| `Catalogue.HelpAsOptionsLastFor` | src/js/sandbox/commands.js:143 | A named command's option list is its last help text, as a single line |
| `Catalogue.OptionWritesAreLong` | src/js/sandbox/commands.js:131 | Every option listed for an engine command is longer than one character |
| `Catalogue.OptionWritesRecordEveryMethod` | src/js/sandbox/commands.js:126-134 | Every method of every `vcs` whose option object is not null gets its long options recorded |
| `Catalogue.LongOptionsAppend` | src/js/sandbox/commands.js:131 | The filter keeps the keys' order: filtering a concatenation is the concatenation of the filtered parts |
| `Catalogue.OptionWritesComeFromMethods` | src/js/sandbox/commands.js:126-134 | Every recorded write is `vcs method` with the long options of a method whose option object is not null |
| `Catalogue.EngineCommandOptions` | src/js/sandbox/commands.js:126-134 | When no other pair spells the same `vcs method` name, the options recorded for it are exactly the long options of its option keys, in order |
| `Catalogue.EngineCommandPrintsItsOptions` | src/js/sandbox/commands.js:126-168 | Such a command, when it is not also an instant command's name, is printed as its name followed by those options, each after the indent, with no breaks |
| `JsObject.LastForOnlyValue` | src/js/sandbox/commands.js:131 | When every assignment to a key carries the same value, the key ends up with that value |
| `Catalogue.ListedCommandsKeys` | src/js/sandbox/commands.js:119-149 | The listed commands are those of `getAllCommands()` plus the named instant commands |
| `Catalogue.BlocksListEveryCommand` | src/js/sandbox/commands.js:155-168 | Every command of the key list gets a line of its own |
| `Catalogue.CatalogueListsEveryCommand` | src/js/sandbox/commands.js:151-168 | The catalogue starts with the header and a break, and names every merged command and every named instant command |
| `Catalogue.IndentedLines` | src/js/sandbox/commands.js:162 | Every option line starts with the indent, so it never equals a line that does not |
| `Catalogue.BlockNames` | src/js/sandbox/commands.js:156-167 | Apart from breaks and indented options, a command's block holds only that command's name, once |
| `Catalogue.BlocksNameEachCommand` | src/js/sandbox/commands.js:155-168 | A line that is neither a break nor indented occurs in the output exactly as often as it occurs among the keys |
| `Catalogue.CatalogueNamesEachCommandOnce` | src/js/sandbox/commands.js:119-168 | Below the header and its break, every line that is neither a break nor an option names a merged command or a named instant command, and each such command is named exactly once |
| `Catalogue.ListedNamesAreEntryNames` | src/js/sandbox/commands.js:137-145 | Every name the `map` adds is the name of some table entry |
| `Catalogue.NoInstantMobileAlert` | src/js/sandbox/commands.js:18-174 | No instant command is named `mobileAlert` |
| `Catalogue.CatalogueOmitsMobileAlert` | src/js/sandbox/commands.js:197-199 | The deny-listed `mobileAlert` never appears in the catalogue below its header |
| `JsObject.KeysOnce` | src/js/sandbox/commands.js:155 | `Object.keys` lists each key of an object exactly once |
| `Catalogue.NamedCommandBlock` | src/js/sandbox/commands.js:143-167 | A named command with non-empty help is printed as break, name, indented help, break |
| `Catalogue.InstantCommandBlock` | src/js/sandbox/commands.js:136-168 | The same for the instant-command table itself |
| `Catalogue.EngineCommandBlock` | src/js/sandbox/commands.js:126-168 | Any other command is its name followed by its long options, with no breaks |
| `Catalogue.PlainBlock` | src/js/sandbox/commands.js:157-167 | A command that is not selected gets no breaks around its lines |
| `JsObject.Get` | src/js/sandbox/commands.js:157 | A lookup is undefined exactly for a missing key, and otherwise gives the stored value |
| `JsObject.Set` | src/js/sandbox/commands.js:211 | An assignment stores the value, keeps the key order (a new key goes last) and changes no other key |
| `JsObject.Delete` | src/js/sandbox/commands.js:215 | `delete` removes the key, keeps the order of the others and changes no other key |
| `JsObject.SetAllGet` | src/js/sandbox/commands.js:201-205 | After `Object.assign`, a key holds its last assigned value, or its old value when it was not assigned |
| `JsObject.SetAllKeys` | src/js/sandbox/commands.js:201-205 | The keys after `Object.assign` are the old keys and the assigned ones |
| `JsObject.SetAllKeepsOrder` | src/js/sandbox/commands.js:201-205 | Assignments never move an existing key |
| `JsObject.AssignIntoEmpty` | src/js/sandbox/commands.js:119-122 | `Object.assign({}, o)` is a copy of `o` in the same key order |
| `JsObject.SetAllAppend` | src/js/sandbox/commands.js:201-213 | Assigning `a` then `b` is assigning `a + b` |

## Left out

- The loop that runs the instant-command table is not part of this model. The first-match, array-order scan in `InstantTable.FirstHit` is an assumption about it.
- Thrown `CommandResult`s become returned values. The `CommandProcessError`, `GitError` and `Warning` imports are unused by the modelled code.
- `intl.str` and `intl.todo` are uninterpreted functions of the `Intl` value. The translation tables are not part of this model.
- The stores (`LocaleStore`, `GlobalStateStore`, `LevelStore`) appear only as the fields they read and write. Their change listeners are not modelled.
- The event bus is an append-only log. The listeners of `refreshTree` and `rollupCommands` are not modelled.
- `require('../level').regexMap` and the engine's `getRegexMap()` / `getOptionMap()` are inputs. The modules behind them are not part of this model.
- The regular-expression engine is not modelled. Each pattern of the instant table is written out by hand as `Patterns.Exec`. The patterns of `regexMap` are kept only as their source text, since nothing in this file runs them.
- Catalogue.LongOptions: counts the length of an option name in characters (Unicode scalar values), whereas `option.length` counts UTF-16 code units. An option key made of one character outside the Basic Multilingual Plane is kept by the source but dropped by the model.
- `\w` is the ASCII word class and `.` excludes the four JavaScript line terminators. Other Unicode behaviour of the engine is not modelled.
- `Object.keys` puts integer-like keys first in ascending order. The inputs (the level table, the engine tables) arrive as key sequences already in `Object.keys` order. Every key this file adds is not integer-like: each `vcs method` name contains a space, and the `regexMap` and instant-command names are fixed words. So plain insertion order is the order the source sees.
- Keys inherited from `Object.prototype` (for example `selectedInstantCommands["constructor"]`) are not modelled. Lookups see only own properties.
- `exports.parse` (`util.genParseCommand`) and the optimistic parsers below line 223 belong to other modules and are left out.
- Alias expansion happens where the alias map is read, outside this file, and is not modelled.
- `Sandbox.Respond` and `Sandbox.Instant` take the `show commands` text as a parameter. `Sandbox.SandboxStores.RunInstant` supplies `CatalogueMessage(env)`.
- The echo message follows the corrected definition throughout the model, so `echo ""` answers the empty string; see Findings.

## Findings

| source | as written | input that shows it | evidently intended | confidence | as-written member | corrected member |
|---|---|---|---|---|---|---|
| src/js/sandbox/commands.js:113 | `var msg = bits[1] \|\| bits[2];` treats an empty quoted capture as missing and falls back to the second group, which did not take part in the match | `echo ""`: `bits[1]` is `""`, `bits[2]` is undefined, so the message is undefined | `echo ""` answers the empty string, the quoted text | not executed | `Sandbox.EchoEmptyQuotesAsWritten` | `Sandbox.EchoQuoted` |

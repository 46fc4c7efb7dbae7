# Narrative game engine and product patterns, modelled in Dafny

This project models two classroom exercises.

**Lab3 is a choice-driven text adventure.**
- A *player* has numeric vitals (hp, hunger, thirst, money, stamina) and an ordered inventory.
- A *story* maps chapter names to chapters. Each chapter has numbered choices.
- Each choice has a *result*:
  - a description;
  - an ordered list of *updates*: `item`/`items` keys add to the inventory, and a stat name adds to that stat;
  - an optional *command* description: search, trade, combat, rest or hide;
  - an optional `next_chapter`.
- The *game manager* walks the chapter graph:
  - it reads raw choices until one is in range;
  - it applies the result and runs its command;
  - it autosaves the player;
  - it goes on to the next chapter, if the result names one.
- The chapter name `"ENDING"` ends the game.
- A small helper puts `Lab3/` in front of save-file paths.

**Lab2 is a shop with four structural pieces:**
- the `Product` record;
- a `ProductBuilder` that checks the required fields;
- an adapter from an external record with other field names;
- an access-counting `ProductProxy` that can hide the price.

Files and modules:

| file | module | models |
|---|---|---|
| `wrappers.dfy` | `Wrappers` | `Option`, `Result` (used for Python's exceptions) |
| `json.dfy` | `Json` | JSON values and Python truthiness, `dict.get` |
| `player.dfy` | `Players` | `Player` class, clamped `update_stat`, `add_item`, save snapshot, `load` with the stamina default |
| `game_manager.dfy` | `Game` | story data, command decoding, the updates loop, `execute_choice`, choice validation, the chapter walk, the `GameManager` class |
| `utils.dfy` | `Utils` | the `Lab3/` path rule of `save_game`/`load_game` over a file map |
| `product.dfy` | `Products` | `Product`, its defaults, getters and string form |
| `product_builder.dfy` | `ProductBuilders` | `ProductBuilder` |
| `product_adapter.dfy` | `ProductAdapters` | `ExternalProductAdapter` |
| `product_proxy.dfy` | `ProductProxies` | `ProductProxy` |

### How the model is built

The code that changes state in place is modelled as classes:
- `Player`, `GameManager`, `ProductBuilder` and `ProductProxy` are classes with `modifies` clauses.
- `Player.State()` gives the player's current value as a `Vitals` datatype.
- `GameManager.PlayChapter` recurses on the next chapter as `play_chapter` does. Its work on one chapter, with the source's re-prompt `while` loop, is the method `PlayStep`.
- `GameManager.ExecuteChoice` calls `ApplyChoiceUpdates`, which has the updates loop. `ApplyChoiceUpdate` handles one entry, with the inner loop over a list of items.

Each of these methods is proved equal to a pure specification function:
- `PlayChapter` to `Walk`;
- `PlayStep` to `ChapterStep`, one chapter of `Walk`;
- `ExecuteChoice` to `ChoiceStep`;
- `ApplyChoiceUpdates` to `ApplyUpdates`;
- `UpdateStat` to `UpdatedStat`.

The lemmas are stated about those functions.

### Modelling choices

- **Commands.** The bodies of the five commands and of the combat strategies are in files this model does not contain. A command's effect is the parameter `exec: (Command, Vitals) -> Vitals`, which the `GameManager` holds. Decoding the command description is modelled exactly: the tags, the required keys, the defaults, and the unknown-tag path.
- **Console input** is a sequence of `RawInput` values: a number, or text that `int()` rejects. Running out of input is the uncaught `EOFError` of `input()`, so the walk fails with `EndOfInput`. This also gives the recursion on chapters a decreasing measure.
- **Exceptions** while a choice is applied become `Failed(...)` outcomes: a `KeyError`, a `TypeError` from adding a non-number to a stat, or a missing chapter. Updates applied before the error stay applied, and there is no autosave for that choice.
- **File I/O** is left abstract:
  - the save file's contents are a `Snapshot` map;
  - the written autosaves are the `GameManager.autosaves` log;
  - the story file is the `Story` passed to `LoadStory`;
  - `save_game`/`load_game` act on a map from paths to contents.

### Behaviour of the code worth noting

- **Stat updates from the story are not clamped.** The updates loop in `execute_choice` adds to a stat with `setattr` and no clamp (Lab3/domain/game_manager.py:61-62). Only `Player.update_stat` clamps at zero (Lab3/client/player.py:14). `Game.StoryUpdateIsNotClamped` shows hp reaching -50.
- **An unknown command or combat type ends the walk.** `execute_choice` returns `{}` for it (Lab3/domain/game_manager.py:81, 94). The updates stay applied, and since `{}` has no `next_chapter`, the walk stops after the autosave.
- **An exception while a choice is applied skips the autosave.** The autosave comes after `execute_choice` returns (Lab3/domain/game_manager.py:46-48).

## Model

| member | source | states |
|---|---|---|
| Players.UpdatedStat | Lab3/client/player.py:12-14 | a known stat becomes max(0, old + value), so it is never negative; it equals old + value when that is not negative; the other stats and the inventory are unchanged; an unknown stat name changes nothing |
| Players.Player.UpdateStat | Lab3/client/player.py:12-14 | the player's new state is `UpdatedStat` of its old state |
| Players.Player.AddItem | Lab3/client/player.py:16-17 | the inventory becomes old inventory ++ [item]; duplicates are allowed; nothing else changes |
| Players.Player.constructor | Lab3/client/player.py:4-10 | the defaults are hp 100, hunger 50, thirst 50, money 20, stamina 100; an absent or empty inventory starts empty |
| Players.Player.SetStat | Lab3/domain/game_manager.py:61-62 | `setattr` of one stat: that stat takes the new value and nothing else changes |
| Players.SnapshotOf | Lab3/client/player.py:19-23 | the saved dictionary has exactly the six attribute names, each stat under its own name, and the inventory as a list |
| Players.Player.Become | Lab3/domain/game_manager.py:96 | `command.execute(self.player)` updates the game's player in place: afterwards its state is exactly the one the command produced |
| Players.Player.Save | Lab3/client/player.py:19-23 | the snapshot has the six attribute keys, and loading it restores exactly this player |
| Players.InventoryArgument | Lab3/client/player.py:9 | a missing or falsy inventory becomes the empty list; a truthy list is kept as it is; a truthy value that is not a list is rejected |
| Players.WithStaminaDefault | Lab3/client/player.py:31-32 | a snapshot without stamina gets stamina 100 and keeps every other key; one with stamina is unchanged |
| Players.FromSnapshot | Lab3/client/player.py:25-33 | loading succeeds iff every key is a constructor parameter and the values fit; a missing stamina becomes 100 |
| Players.LoadedAttributes | Lab3/client/player.py:25-33 | a loaded player keeps every stored stat; a stat that is not stored takes the constructor default; a stored list inventory is kept; a falsy or missing inventory becomes empty |
| Players.Player.Load | Lab3/client/player.py:25-33 | returns a fresh player whose state is `FromSnapshot(data)`, or the same rejection |
| Players.SaveLoadRoundTrip | Lab3/client/player.py:19-33 | loading what `save` wrote gives back the same player |
| Players.LegacySnapshotGetsStamina | Lab3/client/player.py:30-33 | a snapshot without stamina loads with stamina 100 and every other attribute as saved |
| Game.DecodeCommand | Lab3/domain/game_manager.py:64-94 | tag to command kind; a known command is decoded iff the type is one of the five tags and that command's required keys are present (items_found for search, item for trade, a recognised combat_type and enemy for combat); a missing key raises and names exactly that key, type first, then combat_type before enemy; the defaults are price 0, enemy_hp 50, enemy_attack 10, stamina_gain 10, stamina_loss 5, item_found None; the result is Unknown iff the type is not one of the five tags, or the type is combat with an unrecognised combat_type |
| Game.ApplyUpdate | Lab3/domain/game_manager.py:57-63 | an item/items value is appended (each element of a list, or the value itself); a stat name adds the number with no clamp and changes only that stat; a non-number value raises; any other key changes nothing |
| Game.ApplyUpdates | Lab3/domain/game_manager.py:55-63 | the only error the updates loop raises is a non-number added to a stat, named by its stat key |
| Game.UpdatesAppendItems | Lab3/domain/game_manager.py:55-63 | the updates keep the earlier inventory as a prefix; without an error, the inventory is the old one followed by all added items in update order |
| Game.IgnoredKeysChangeNothing | Lab3/domain/game_manager.py:61-63 | updates whose keys are neither item keys nor stat names leave the player unchanged |
| Game.UnnamedStatUnchanged | Lab3/domain/game_manager.py:56-63 | a stat that no update key names keeps its value |
| Game.ApplyUpdatesAppend | Lab3/domain/game_manager.py:56-63 | applying two batches of updates one after the other equals applying them together |
| Game.ErrorStopsUpdates | Lab3/domain/game_manager.py:56-62 | once an update raises, no later update is applied |
| Game.StoryUpdateIsNotClamped | Lab3/domain/game_manager.py:61-62 | a story update of hp by -150 from a fresh player gives -50, where `update_stat` gives 0 |
| Game.ChoiceStep | Lab3/domain/game_manager.py:52-97 | a returned result is always the choice's own result |
| Game.NoCommandAddsItems | Lab3/domain/game_manager.py:55-97 | a choice without a command whose updates do not fail returns its own result, and the inventory becomes the old inventory followed by the added items in update order |
| Game.NextChapter | Lab3/domain/game_manager.py:49-50 | the walk continues iff the returned result has a truthy `next_chapter`, and it continues to that value |
| Game.UnknownCommandEndsWalk | Lab3/domain/game_manager.py:64-94 | an unknown command or combat type yields the empty result, with the updates applied, no command executed and no next chapter |
| Game.ChoiceIndex | Lab3/domain/game_manager.py:39-40 | a raw choice n is accepted iff it is a number with 1 <= n <= number of choices, and it selects index n-1 |
| Game.FirstAccepted | Lab3/domain/game_manager.py:37-45 | the position of the first accepted input; every input before it is rejected; with no such position, every input is rejected |
| Game.NoneAccepted | Lab3/domain/game_manager.py:37-45 | when every input is rejected, no choice is made |
| Game.FirstAcceptedAt | Lab3/domain/game_manager.py:37-45 | an accepted input after only rejected ones is the one chosen |
| Game.ChapterStep | Lab3/domain/game_manager.py:30-50 | the chapter becomes the current one; one chapter never ends the game by itself; an error leaves the autosaves unchanged; otherwise exactly one snapshot of the new player is appended, which needs at least one input; going on leaves less input |
| Game.Walk | Lab3/domain/game_manager.py:24-50 | "ENDING" returns at once with nothing changed; a name not in the story fails with nothing changed; autosaves only grow, at most one per input read |
| Game.RejectedInputStep | Lab3/domain/game_manager.py:37-45 | within one chapter, a rejected input is re-prompted: the chapter step is the same without it |
| Game.RejectedInputIsSkipped | Lab3/domain/game_manager.py:37-45 | an out-of-range or non-numeric input is re-prompted and changes neither the final state nor the outcome |
| Game.KnownCommandIsAutosaved | Lab3/domain/game_manager.py:46-97 | when the chosen option's updates succeed and its command is recognised, the command runs once on the updated player; that player becomes the session's player and is the one autosave appended; the walk goes on iff `next_chapter` is truthy, to that chapter, with the inputs after the chosen one |
| Game.ContinuesIffNextChapter | Lab3/domain/game_manager.py:46-50 | after an accepted choice returns, the walk autosaves and then goes on to a truthy `next_chapter`, and otherwise stops |
| Game.EndingTerminatesImmediately | Lab3/domain/game_manager.py:26-29 | playing "ENDING" reads no input and changes no player, chapter or save state |
| Game.LastSaveIsFinalPlayer | Lab3/domain/game_manager.py:46-50 | when a walk ends without error, the last autosave is a snapshot of the final player |
| Game.OnlyOptionToEnding | Lab3/domain/game_manager.py:37-50 | choosing 1 in a chapter whose only option has no updates, no command and `next_chapter` "ENDING" autosaves the unchanged player once and goes to "ENDING" |
| Game.OneChoiceToEnding | Lab3/domain/game_manager.py:24-50 | with "Chapter 1" whose only option leads to "ENDING", inputs "abc", 2 and 1 end the game after one choice and one autosave |
| Game.InitialVitals | Lab3/domain/game_manager.py:7-11 | the saved player if its snapshot loads, and a default player otherwise |
| Game.GameManager.constructor | Lab3/domain/game_manager.py:7-13 | the player is loaded, or it falls back to a default `Player`; there is no story yet and no current chapter |
| Game.GameManager.LoadStory | Lab3/domain/game_manager.py:15-17 | the story data becomes the file's contents |
| Game.GameManager.StartGame | Lab3/domain/game_manager.py:19-22 | loads the story, then walks from "Chapter 1" as `Walk` describes |
| Game.GameManager.PlayChapter | Lab3/domain/game_manager.py:24-50 | the new player, current chapter, autosaves and status are exactly those of `Walk` from the old state |
| Game.GameManager.PlayStep | Lab3/domain/game_manager.py:30-50 | the new player, current chapter and autosaves, and where the walk goes next, are exactly those of `ChapterStep` from the old state |
| Game.GameManager.ExecuteChoice | Lab3/domain/game_manager.py:52-97 | the new player and the returned outcome are exactly those of `ChoiceStep` from the old player |
| Game.GameManager.ApplyChoiceUpdate | Lab3/domain/game_manager.py:57-63 | the new player and the error, if any, are exactly those of `ApplyUpdate` for one entry |
| Game.GameManager.ApplyChoiceUpdates | Lab3/domain/game_manager.py:55-63 | the new player and the error that stopped the loop, if any, are exactly those of `ApplyUpdates` from the old player |
| Utils.NormalizePath | Lab3/utils/utils.py:5-6 | the result starts with "Lab3/"; a path already starting with it is unchanged; every other path, including one starting with "data/", gets "Lab3/" in front; the original path is its suffix |
| Utils.NormalizeIdempotent | Lab3/utils/utils.py:5-6 | normalising twice equals normalising once |
| Utils.DataPathResolvesUnderLab3 | Lab3/utils/utils.py:11-12 | "data/x" and "Lab3/data/x" resolve to the same file, "Lab3/data/x" |
| Utils.SaveGame | Lab3/utils/utils.py:3-8 | the file at the normalised path holds the data; no other file changes |
| Utils.LoadGame | Lab3/utils/utils.py:10-14 | the contents of the file at the normalised path, or none if that file does not exist |
| Utils.SaveThenLoad | Lab3/utils/utils.py:3-14 | a load from any path that normalises like the saved path returns what was saved |
| Utils.SaveLeavesOtherFiles | Lab3/utils/utils.py:3-8 | a save does not change what loads from a different file |
| Products.NewProduct | Lab2/domain/models/product.py:4-8 | the getters return the constructor's arguments; description and date default to None |
| Products.DescriptionSegment | Lab2/domain/models/product.py:11 | " - description" when the description is truthy, else empty |
| Products.DateSegment | Lab2/domain/models/product.py:12 | " (Date: date)" when the date is truthy, else empty |
| Products.ToText | Lab2/domain/models/product.py:10-13 | the whole text in each of the four cases: "name: $price", then " - description" when the description is truthy, then " (Date: date)" when the date is truthy |
| ProductBuilders.ProductBuilder.constructor | Lab2/domain/builder/product_builder.py:7-11 | a new builder has all four fields None |
| ProductBuilders.ProductBuilder.SetName | Lab2/domain/builder/product_builder.py:13-16 | sets only the name and returns the same builder |
| ProductBuilders.ProductBuilder.SetPrice | Lab2/domain/builder/product_builder.py:18-21 | sets only the price and returns the same builder |
| ProductBuilders.ProductBuilder.SetDescription | Lab2/domain/builder/product_builder.py:23-26 | sets only the description and returns the same builder |
| ProductBuilders.ProductBuilder.SetDate | Lab2/domain/builder/product_builder.py:28-31 | sets only the date and returns the same builder |
| ProductBuilders.ProductBuilder.Build | Lab2/domain/builder/product_builder.py:33-43 | fails iff the name or the price is None; on success the product's four fields equal the builder's; the builder itself is unchanged |
| ProductBuilders.BuildWithZeroPrice | Lab2/domain/builder/product_builder.py:35-43 | a name plus a price of 0 builds, because the check is `is None`, with description and date None |
| ProductAdapters.ExternalProductAdapter.ToProduct | Lab2/patterns/adapter/external_product_adapter.py:7-13 | fails on a missing title, checked first, or a missing cost; otherwise name = title, price = cost, date = date or None, description = info or "No description" |
| ProductAdapters.AdaptsFullRecord | Lab2/patterns/adapter/external_product_adapter.py:7-13 | a record with all four external keys converts field for field |
| ProductAdapters.AdaptsMinimalRecord | Lab2/patterns/adapter/external_product_adapter.py:11-12 | without info and date, the product gets "No description" and no date |
| ProductProxies.VisiblePrice | Lab2/patterns/proxy/product_proxy.py:26-29 | None at access level "restricted", and the product's price otherwise |
| ProductProxies.ProductProxy.constructor | Lab2/patterns/proxy/product_proxy.py:11-14 | wraps the product; the access level defaults to "public"; the count starts at 0 |
| ProductProxies.ProductProxy.Name | Lab2/patterns/proxy/product_proxy.py:16-20 | returns the product's name and adds exactly 1 to the count |
| ProductProxies.ProductProxy.Price | Lab2/patterns/proxy/product_proxy.py:22-29 | returns the visible price (None when restricted) and adds exactly 1 either way |
| ProductProxies.ProductProxy.Description | Lab2/patterns/proxy/product_proxy.py:31-35 | returns the product's description and adds exactly 1 |
| ProductProxies.ProductProxy.Date | Lab2/patterns/proxy/product_proxy.py:37-41 | returns the product's date and adds exactly 1 |
| ProductProxies.ProductProxy.GetPrice | Lab2/patterns/proxy/product_proxy.py:43-45 | the same value and count increment as a read of `price` |
| ProductProxies.ProductProxy.GetName | Lab2/patterns/proxy/product_proxy.py:47-49 | the same value and count increment as a read of `name` |
| ProductProxies.ProductProxy.GetDescription | Lab2/patterns/proxy/product_proxy.py:51-53 | the same value and count increment as a read of `description` |
| ProductProxies.ProductProxy.GetDate | Lab2/patterns/proxy/product_proxy.py:55-57 | the same value and count increment as a read of `date` |
| ProductProxies.ProductProxy.GetAccessCount | Lab2/patterns/proxy/product_proxy.py:59-61 | returns the count and does not change it |
| ProductProxies.ProductProxy.ToText | Lab2/patterns/proxy/product_proxy.py:63-65 | "[PROXY] " followed by the product's text; this is not a counted read |
| ProductProxies.ReadThreeFields | Lab2/main.py:69-79 | reading name, price and description through a public proxy returns the product's values and gives a count of 3 |

## Left out

- File I/O is not modelled. This covers `json.load`/`json.dump` and the opening of the player, story and save-game files. Snapshots, the story and the file system are plain values instead.
- File paths are not modelled. This covers the default paths in the `GameManager` constructor and in `Player.save`/`load`, the fixed autosave path `Lab3/data/player.json`, and `story_file`. The autosave log records what was written, not where.
- Console output (every `print`) is not modelled. The text that `int()` parses is only classified as a number or as not a number.
- The bodies of `SearchCommand`, `TradeCommand`, `FightCommand`, `RestCommand` and `HideCommand`, and the three combat strategies, are not part of this model. Their effect is the `exec` parameter, so damage and trade rules are not stated. `exec` is a deterministic, total function of the command and the vitals. So the model does not capture a command that uses `random_chance` (Lab3/utils/utils.py:16-18), nor an exception raised inside a command.
- `random_chance` (Lab3/utils/utils.py:16-18) is left out because it depends on randomness.
- `load_story` is called before any chapter is played. Before that call, the model treats the story as empty, so a chapter lookup fails with `MissingChapter`. Python would raise `AttributeError` instead.
- Python's recursion limit on very long chapter walks is not modelled.
- `hasattr` matches more names than the stats. In the model, `update_stat` and the updates loop know only hp, hunger, thirst, money and stamina. A key such as `inventory` or a method name counts as unknown: `update_stat` ignores it, and the updates loop skips it.
- JSON floats, booleans and nested objects are not modelled. Story and snapshot values are null, integers, strings and lists.
- The story file is taken to be well formed: every chapter has a title, a description and choices, and every choice has a text and a result. Every result has a `description`, which `execute_choice` reads with `[]` (Lab3/domain/game_manager.py:53) and would raise `KeyError` without. `updates` is taken to be a dictionary, and a `command` entry too.
- Players.FromSnapshot: it rejects a stat value that is not an integer, and a truthy inventory that is not a list (`BadField`). Python would store such values unchecked. The model's player attributes are typed. For such a snapshot the `GameManager` constructor starts a default player, where Python would load the values as stored.
- Game.ApplyUpdate: a stat update whose value is not an integer raises `BadOperand`. Python would also accept floats and booleans there.
- Players.Player.constructor: an inventory list passed in is copied, so aliasing with the caller's list is not modelled.
- Products.ToText: `money` is total, but `:.2f` (Lab2/domain/models/product.py:13) raises for a price of None or a string. Such prices can reach a product through the adapter and the proxy.
- `Product.__repr__`, `ProductProxy.__repr__` and the two-decimal formatting of prices are left out because they are string formatting only. Python's `str` of a value and the price formatting are the parameters `show` and `money`.
- `ProductProxy.__getattr__`, which forwards any other attribute to the product, is left out because it is dynamic attribute lookup.
- Product getters such as `get_name` are plain field reads of an immutable value, so they carry no contract of their own. Their contract is stated through `NewProduct`.
- Lab2/patterns/decorator/product_decorator.py and Lab2/domain/models/order.py are left out because their only logic is float arithmetic and formatting.
- Lab2/client/shopping_cart_client.py, Lab2/patterns/facade/shopping_facade.py, Lab2/main.py (except the proxy demo) and Lab0/main.py are left out. They are delegation and printing.

# A Dafny model of the writing assistant's data logic

The application is a desktop writing assistant built on Qt widgets. A
project holds chapters; a chapter holds scenes, each with text, a version
history, annotations and footnotes. Around the editor sit a Kanban board
of cards, a timeline storyboard, an export dialog, a dashboard of projects
and small stores of characters, locations and events. This Dafny project
models the data logic under those widgets and proves what that logic
promises:

- **Kanban board** (`kanban_board.dfy`, class `KanbanBoard.Board`): ordered
  columns kept in step with a name-to-column map, card moves inside and
  across columns, undo and redo stacks of snapshots capped at 50, the
  save/load state codec, column add/rename/delete, and the keyboard moves
  and Tab wrap-around.
- **Card metadata** (`kanban_models.dfy`): defaults merged into a card's
  metadata, the single-field setters, and the card dialog's link and tag
  handling.
- **Board persistence** (`kanban_store.dfy`): normalisation of a loaded
  board, the timestamped history file names and the newest-first version
  list.
- **Kanban to timeline** (`kanban_board2.dfy`): finding the timeline, the
  one-card conversion and the tallies of the bulk syncs.
- **Timelines** (`timeline_board.dfy`, `timeline_tab.dfy`,
  `ui_timeline.dfy`, `scenes.dfy`): the card row with append, remove-first
  and drag reorder, and the scene order rebuilt from titles by first match.
- **Project editor** (`project_editor_window.dfy`, `annotations.dfy`,
  `utils_ui.dfy`): chapter and scene lists, text edits with versions and
  restore, navigation, link ids, and the annotation and footnote lists.
- **Export** (`export_dialog.dfy`): the Markdown, plain-text and Fountain
  renderings, the worker's dispatch and messages, extension and filter
  tables, and the stripping of notes before export.
- **Stores and dashboard** (`id_list.dfy`, `character_store.dfy`,
  `location_store.dfy`, `event_store.dfy`, `dashboard.dfy`): the
  `to_dict`/`from_dict` round trips, add/update/delete/get over an id-keyed
  list, and the project list.

Python values read from JSON are `Json.Value`. A Qt list widget is a
sequence of item texts with a current row. A dialog's answer is a method
parameter. An exception raised before anything changes is modelled as "no
change", as a `None` result or, in the card dialog, as `Raises`; one raised part-way (a board load that
meets an entry it cannot rebuild) is a `raised` result beside the state
reached by then.

## Model

| member | source | states |
|---|---|---|
| Lists.RemoveAt | GUI/windows/dashboard.py:82 | `pop(i)` keeps the items before `i`, shifts the ones after it down by one, and loses exactly the item at `i` |
| Text.Truncate | GUI/windows/utils_ui.py:29 | `s[:40]` is a prefix of `s` no longer than 40, and all of `s` when it is shorter |
| Text.Repeat | GUI/windows/export_dialog.py:94 | `"=" * 50` is 50 copies of the character |
| Text.Decimal | GUI/windows/project_editor_window.py:251 | an index is written as a non-empty run of decimal digits |
| Text.DecimalInjective | GUI/windows/project_editor_window.py:251-256 | different indices are written differently |
| Text.Strip | GUI/windows/kanban_models.py:185 | `strip()` takes off exactly a run of Python's `isspace` characters (U+0009 to U+000D, U+001C to U+001F, the space, U+0085, U+00A0, U+1680, U+2000 to U+200A, U+2028, U+2029, U+202F, U+205F, U+3000) at each end: the result is a contiguous piece of the string, everything outside it is whitespace, and it neither starts nor ends with such a character |
| Text.LStrip | GUI/windows/kanban_models.py:185 | the leading half of `strip()`: a suffix of the string, everything before it whitespace, not starting with whitespace |
| Text.RStrip | GUI/windows/kanban_models.py:185 | the trailing half of `strip()`: a prefix of the string, everything after it whitespace, not ending with whitespace |
| Text.StripBetween | GUI/windows/kanban_models.py:185 | what `rstrip()` keeps of what `lstrip()` keeps is a piece of the string with only whitespace before and after it |
| Text.StripStripped | GUI/windows/kanban_models.py:185 | a string with no `isspace` character at either end is left as it is |
| Text.Split | GUI/windows/kanban_models.py:185 | `split(",")` yields at least one piece and no piece holds a comma |
| Text.SplitConcat | GUI/windows/kanban_models.py:185 | splitting two texts joined by a comma gives the pieces of the first followed by the pieces of the second |
| Text.LessTransitive | GUI/storage/kanban_store.py:45 | the string order `sort` uses is transitive |
| Text.LessTotal | GUI/storage/kanban_store.py:45 | any two different strings are ordered one way or the other |
| Json.Get | GUI/storage/kanban_store.py:21-22 | `d.get(key, default)` is the stored value when the key is present and the default otherwise |
| CharacterStore.NewCharacter | GUI/storage/character_store.py:16-22 | keeps id, name and description; a truthy `traits` is kept and a falsy one becomes `{}` |
| CharacterStore.ToDict | GUI/storage/character_store.py:24-30 | exactly the four keys `id`, `name`, `description`, `traits`, each holding the character's field |
| CharacterStore.FromDict | GUI/storage/character_store.py:32-39 | succeeds exactly when the input is a dictionary with `id` and `name`; description defaults to `""` and missing or falsy traits to `{}` |
| CharacterStore.FromDictToDict | GUI/storage/character_store.py:24-39 | `from_dict(to_dict(c))` gives back `c` |
| CharacterStore.ToDictFromDict | GUI/storage/character_store.py:24-39 | a dictionary with the four keys and normal traits survives `from_dict` then `to_dict` |
| CharacterStore.FromDicts | GUI/storage/character_store.py:48-54 | `load` reads every entry with `from_dict`; it succeeds exactly when every entry does, position by position |
| CharacterStore.SaveLoad | GUI/storage/character_store.py:48-60 | the list `save` writes is the list `load` reads back |
| CharacterStore.OpenCharacterStore | GUI/storage/character_store.py:43-54 | a missing file gives an empty store; otherwise the store holds the loaded characters in file order, keyed by id |
| LocationStore.NewLocation | GUI/storage/location_store.py:16-22 | keeps id, name and description; a truthy `details` is kept and a falsy one becomes `{}` |
| LocationStore.ToDict | GUI/storage/location_store.py:24-30 | exactly the four keys `id`, `name`, `description`, `details`, each holding the location's field |
| LocationStore.FromDict | GUI/storage/location_store.py:32-39 | succeeds exactly when the input is a dictionary with `id` and `name`; description defaults to `""` and missing or falsy details to `{}` |
| LocationStore.FromDictToDict | GUI/storage/location_store.py:24-39 | `from_dict(to_dict(l))` gives back `l` |
| LocationStore.ToDictFromDict | GUI/storage/location_store.py:24-39 | a dictionary with the four keys and normal details survives `from_dict` then `to_dict` |
| LocationStore.FromDicts | GUI/storage/location_store.py:48-54 | `load` succeeds exactly when every entry is readable, position by position |
| LocationStore.SaveLoad | GUI/storage/location_store.py:48-60 | the list `save` writes is the list `load` reads back |
| LocationStore.OpenLocationStore | GUI/storage/location_store.py:43-54 | a missing file gives an empty store; otherwise the loaded locations in file order, keyed by id |
| EventStore.NewEvent | GUI/storage/event_store.py:16-26 | keeps id, title and description; a truthy `metadata` is kept and a falsy one becomes `{}` |
| EventStore.ToDict | GUI/storage/event_store.py:28-34 | exactly the four keys `id`, `title`, `description`, `metadata`, each holding the event's field |
| EventStore.FromDict | GUI/storage/event_store.py:36-43 | succeeds exactly when the input is a dictionary with `id` and `title`; description defaults to `""` and missing or falsy metadata to `{}` |
| EventStore.FromDictToDict | GUI/storage/event_store.py:28-43 | `from_dict(to_dict(e))` gives back `e` |
| EventStore.ToDictFromDict | GUI/storage/event_store.py:28-43 | a dictionary with the four keys and normal metadata survives `from_dict` then `to_dict` |
| EventStore.FromDicts | GUI/storage/event_store.py:52-58 | `load` succeeds exactly when every entry is readable, position by position |
| EventStore.SaveLoad | GUI/storage/event_store.py:52-64 | the list `save` writes is the list `load` reads back |
| EventStore.OpenEventStore | GUI/storage/event_store.py:47-58 | a missing file gives an empty store; otherwise the loaded events in file order, keyed by id |
| IdList.FirstIndex | GUI/storage/character_store.py:67-68 | the position the `update` loop stops at: the first record with the id, and none exactly when no record has it |
| IdList.Lookup | GUI/storage/character_store.py:78-82 | some record is found exactly when a record has the id; the one found is in the list and has that id |
| IdList.WithoutId | GUI/storage/character_store.py:75 | the comprehension keeps exactly the records whose id differs |
| IdList.WithoutIdConcat | GUI/storage/character_store.py:75 | filtering keeps the order: it distributes over concatenation |
| IdList.WithoutAbsentId | GUI/storage/character_store.py:74-76 | deleting an id no record has leaves the list as it was |
| IdList.WithoutIdIdempotent | GUI/storage/character_store.py:74-76 | deleting twice is deleting once |
| IdList.LookupWithoutId | GUI/storage/character_store.py:74-82 | after `delete(id)`, `get(id)` is `None` and `get` of every other id is unchanged |
| IdList.LookupWithoutOther | GUI/storage/character_store.py:74-82 | deleting one id does not change which record `get` finds for another id |
| IdList.FirstIndexWithout | GUI/storage/character_store.py:74-82 | filtering out one id keeps the first record of every other id, at its new position |
| IdList.LookupAfterUpdate | GUI/storage/character_store.py:66-82 | after an `update` that found its id, `get` of that id returns the new record |
| IdList.LookupAfterAdd | GUI/storage/character_store.py:62-64 | after `add` of a record whose id was absent, `get` finds it |
| IdList.Store.constructor | GUI/storage/character_store.py:43-46 | the store starts with the loaded records, all saved |
| IdList.Store.Add | GUI/storage/character_store.py:62-64 | the record is appended at the end and the whole list saved |
| IdList.Store.Update | GUI/storage/character_store.py:66-72 | returns true exactly when some record has the id; then the first such record is replaced and the list saved, otherwise nothing changes |
| IdList.Store.Delete | GUI/storage/character_store.py:74-76 | every record with the id goes, the rest keep their order, and the list is saved |
| IdList.Store.Get | GUI/storage/character_store.py:78-82 | the first record with the id, or none exactly when no record has it |
| KanbanStore.CoercedMetadata | GUI/storage/kanban_store.py:17-24 | the metadata is a dictionary whose `links` is a list; an existing metadata dictionary keeps every other key, and a list of links is kept as it is |
| KanbanStore.NormalisedCard | GUI/storage/kanban_store.py:16-24 | a non-dictionary entry passes through unchanged; a dictionary card keeps its keys, gains `metadata`, and holds the coerced metadata |
| KanbanStore.NormalisedCardIdempotent | GUI/storage/kanban_store.py:14-24 | normalising an already normalised card changes nothing |
| KanbanStore.NormalisedCards | GUI/storage/kanban_store.py:15-24 | same length and order; each card normalised in place |
| KanbanStore.NormalisedBoard | GUI/storage/kanban_store.py:14-24 | same column keys, so empty exactly when the loaded board is; every column's cards normalised |
| KanbanStore.NormalisedBoardIdempotent | GUI/storage/kanban_store.py:14-24 | the load normalisation is idempotent on a whole board |
| KanbanStore.NormaliseCards | GUI/storage/kanban_store.py:15-24 | the inner loop yields the normalised column |
| KanbanStore.NormaliseBoard | GUI/storage/kanban_store.py:14-24 | the outer loop yields the normalised board |
| KanbanStore.LoadKanbanBoard | GUI/storage/kanban_store.py:9-26 | no board file gives `{}`; otherwise the file's board, normalised |
| KanbanStore.Padded | GUI/storage/kanban_store.py:35 | a zero-padded field of exactly the given width, all digits |
| KanbanStore.PaddedOrder | GUI/storage/kanban_store.py:35 | two zero-padded fields of one width are equal or string-ordered exactly as the numbers are |
| KanbanStore.Stamp | GUI/storage/kanban_store.py:35 | the `%Y%m%d_%H%M%S` stamp is 15 characters long |
| KanbanStore.HistoryFileName | GUI/storage/kanban_store.py:35-36 | the history name starts with `kanban_`, ends with `.json` and has a fixed length of 27 |
| KanbanStore.StampChronological | GUI/storage/kanban_store.py:35 | one stamp is string-less than another exactly when its time is earlier, and equal stamps mean equal times |
| KanbanStore.HistoryNamesChronological | GUI/storage/kanban_store.py:35-36 | history names order exactly as their save times do |
| KanbanStore.SaveKanbanBoard | GUI/storage/kanban_store.py:29-38 | the board file holds the state, the history directory exists, and the history copy named after the save time holds the same state |
| KanbanStore.LoadKanbanVersion | GUI/storage/kanban_store.py:49-54 | the named history copy, or `{}` when there is no such file |
| KanbanStore.SavedVersionLoads | GUI/storage/kanban_store.py:29-54 | loading the history copy just saved gives back the saved state |
| KanbanStore.SavedBoardLoads | GUI/storage/kanban_store.py:9-38 | loading the board file just saved gives back a normalised state unchanged |
| KanbanStore.InsertDescending | GUI/storage/kanban_store.py:45 | inserting into a descending list keeps it descending and adds exactly the new name |
| KanbanStore.SortDescending | GUI/storage/kanban_store.py:45 | `sort(reverse=True)` is a permutation sorted greatest first |
| KanbanStore.JsonFiles | GUI/storage/kanban_store.py:44 | exactly the listed names ending in `.json`, each at most as often as listed |
| KanbanStore.ListKanbanVersions | GUI/storage/kanban_store.py:41-46 | `[]` without a history directory; otherwise exactly the `.json` names, as a permutation sorted greatest first |
| KanbanStore.VersionsNewestFirst | GUI/storage/kanban_store.py:29-46 | of two history copies in the version listing, the one listed first was not saved earlier |
| KanbanModels.DefaultMetadata | GUI/windows/kanban_models.py:51-58 | exactly the six default keys, with the fresh id and the given title (a string or `None`) as `title`; its `color` is `None`, which the constructor never refuses |
| KanbanModels.MergedMetadata | GUI/windows/kanban_models.py:59-66 | every default key is present; every key the caller supplied keeps the caller's value (extra keys and `None` values included); no other keys appear; missing default keys get their defaults; the merged `color` is one `QColor` refuses exactly when the caller supplied it |
| KanbanModels.FillDefaults | GUI/windows/kanban_models.py:60-63 | the copy-and-fill loop gives the caller's metadata with every missing default key added at its default |
| KanbanModels.MergedIgnoresFreshId | GUI/windows/kanban_models.py:51-64 | caller metadata that carries an `id` keeps it, whatever id was drawn |
| KanbanModels.NewKanbanCard | GUI/windows/kanban_models.py:49-77 | a title `QStandardItem` refuses (neither a string nor `None`) raises before any id is drawn; otherwise exactly one fresh id is drawn, and the card has the title as its text (`""` for `None`) and the merge of the caller's metadata with the defaults, unless the merged `color` is a non-empty list or dictionary, which `QColor` refuses, and then it raises; the caller's dictionary is a value and is not changed |
| KanbanModels.UuidSource.Next | GUI/windows/kanban_models.py:52 | an id never issued before, recorded as issued |
| KanbanModels.FreshId | GUI/windows/kanban_models.py:52 | an id outside the given list |
| KanbanModels.KanbanCard.With | GUI/windows/kanban_models.py:79-90 | the one key is set to the value; every other key and the text are unchanged |
| KanbanModels.KanbanCard.SetColor | GUI/windows/kanban_models.py:79-81 | overwrites only `color`, with the colour's name |
| KanbanModels.KanbanCard.SetNotes | GUI/windows/kanban_models.py:83-84 | overwrites only `notes` |
| KanbanModels.KanbanCard.SetTags | GUI/windows/kanban_models.py:86-87 | overwrites only `tags` |
| KanbanModels.KanbanCard.SetLinks | GUI/windows/kanban_models.py:89-90 | overwrites only `links` |
| KanbanModels.SettersKeepWellFormed | GUI/windows/kanban_models.py:79-90 | a card with every default key and a list of links keeps both after any setter |
| KanbanModels.CleanPieces | GUI/windows/kanban_models.py:185 | every tag kept is non-empty, comma-free and stripped, and there are no more tags than pieces |
| KanbanModels.ParseTags | GUI/windows/kanban_models.py:185 | every parsed tag is non-empty, comma-free and stripped |
| KanbanModels.SplitJoined | GUI/windows/kanban_models.py:109 | splitting a `", "`-joined list on commas gives the first tag and every later tag behind one space |
| KanbanModels.CleanSpaced | GUI/windows/kanban_models.py:185 | stripping the space-led pieces gives back the clean tags |
| KanbanModels.ParseJoinTags | GUI/windows/kanban_models.py:109-185 | opening the dialog and accepting the tags field unchanged gives back the card's tags (`"a, b, c"` gives `["a","b","c"]`) |
| KanbanModels.ParseTagsIdempotent | GUI/windows/kanban_models.py:185 | tags read from the field read back as themselves |
| KanbanModels.AppendNew | GUI/windows/kanban_models.py:179-181 | keeps the ids already collected as a prefix, stays duplicate-free, and adds exactly the non-empty ids not yet present |
| KanbanModels.CollectedLinks | GUI/windows/kanban_models.py:170-181 | the quick-navigation id comes first when given; the result holds exactly the non-empty quick-navigation and selected ids, without duplicates |
| KanbanModels.CollectLinks | GUI/windows/kanban_models.py:176-181 | the appending loop yields the collected links |
| KanbanModels.QuickNavPreselection | GUI/windows/kanban_models.py:141-147 | raises exactly when the card's links are a list whose first entry is a non-empty list or dictionary (an unhashable key for the `in` test); otherwise preselects exactly when that first entry is a non-empty id that is offered, and then that id |
| KanbanModels.SelectLinks | GUI/windows/kanban_models.py:149-151 | the loop over a list of links raises exactly when some entry is a list or dictionary; otherwise it selects exactly the offered ids among the string entries |
| KanbanModels.PreselectedLinks | GUI/windows/kanban_models.py:148-151 | raises exactly when the card's links are a list holding a list or dictionary; otherwise exactly the offered ids that the card links |
| KanbanModels.UnchangedDialogKeepsLinks | GUI/windows/kanban_models.py:141-181 | on links that are offered ids, opening the dialog raises nothing, and accepting it without touching the link lists keeps the card's first link first and the same set of links |
| KanbanModels.GetDetails | GUI/windows/kanban_models.py:170-188 | returns the title, notes and colour as given, the parsed tags and the collected links |
| KanbanBoard.Insert | GUI/windows/kanban_board.py:62 | `insertItem(i, x)` puts `x` at position `i`, and removing that position gives back the list |
| KanbanBoard.MoveItem | GUI/windows/kanban_board.py:60-62 | the card taken from `from` is at `to`; the list is a permutation of the old one, and both lists without the moved card agree |
| KanbanBoard.MoveItemInverse | GUI/windows/kanban_board.py:60-62 | moving the card back from `to` to `from` restores the column |
| KanbanBoard.FlattenUpdate | GUI/windows/kanban_board.py:60-83 | replacing one column's cards swaps exactly those cards in the multiset of all cards |
| KanbanBoard.MoveWithin | GUI/windows/kanban_board.py:60-62 | only the named column changes, keeps its length, and has the moved card at `to` |
| KanbanBoard.MoveWithinKeepsCards | GUI/windows/kanban_board.py:52-65 | a move within a column neither loses nor duplicates a card on the board |
| KanbanBoard.MoveAcross | GUI/windows/kanban_board.py:77-79 | the card ends last in the target column; between distinct columns the source loses one card and the target gains one; other columns are unchanged |
| KanbanBoard.MoveAcrossKeepsCards | GUI/windows/kanban_board.py:67-83 | a move between columns neither loses nor duplicates a card, so the total is unchanged |
| KanbanBoard.EncodeCards | GUI/windows/kanban_board.py:361-373 | one entry per card, in order: a `{title, metadata}` dictionary when full, the text otherwise |
| KanbanBoard.NormalisedLoadable | GUI/storage/kanban_store.py:14-24 | the load normalisation keeps a board loadable by the widget |
| KanbanBoard.DecodeEntryDecodes | GUI/windows/kanban_board.py:384-398 | the card built from an entry is what that entry decodes to, whichever id was drawn |
| KanbanBoard.EntriesFor | GUI/windows/kanban_board.py:384 | `state.get(name, [])` |
| KanbanBoard.DecodeKeepsTitle | GUI/windows/kanban_board.py:355-398 | a saved card reloads with the same text, with or without its metadata |
| KanbanBoard.DecodeEncodedCard | GUI/windows/kanban_board.py:355-398 | a card with every default key and a list of links, saved with its metadata, reloads as the very same card |
| KanbanBoard.ColumnRoundTrip | GUI/windows/kanban_board.py:355-401 | saving and reloading a column keeps its length and each card's text in order; saved in full, well-formed cards come back unchanged |
| KanbanBoard.DecodeEntries | GUI/windows/kanban_board.py:384-401 | the inner loop of `load_state` rebuilds one decoded card per entry, in order; it raises exactly when some entry cannot be rebuilt, and then holds the cards rebuilt before the first such entry |
| KanbanBoard.DecodedColumnSnoc | GUI/windows/kanban_board.py:384-401 | decoding one more entry extends the decoded column by its card |
| KanbanBoard.DecodeOne | GUI/windows/kanban_board.py:385-398 | a dictionary entry becomes a card with its title and coerced metadata (`{}` for non-dictionary metadata, `[]` for missing or non-list links); a string or `None` entry, or a `None` title, becomes a card whose text is the title (`""` for `None`); an entry whose card constructor raises (a title neither a string nor `None`, or a merged colour that is a non-empty list or dictionary) gives none |
| KanbanBoard.ColumnEntries | GUI/windows/kanban_board.py:383-384 | one entry list per column name, in column order, each `state.get(name, [])` |
| KanbanBoard.FirstUnloadable | GUI/windows/kanban_board.py:383-401 | the first column, in loading order, whose entries cannot all be rebuilt; every column before it can be; the number of columns when there is none |
| KanbanBoard.LoadableStateLoads | GUI/windows/kanban_board.py:383-401 | on a state whose every entry can be rebuilt no column is unloadable, whatever the column names |
| KanbanBoard.LoadedWithoutRaise | GUI/windows/kanban_board.py:383-401 | when `load_state` does not raise, every column is rebuilt from its entries, so every card has a colour the card constructor accepts |
| KanbanBoard.LoadedLoadableStore | GUI/windows/kanban_board.py:261-266 | `load_board` on a stored board whose every entry can be rebuilt does not raise: every column is rebuilt from the normalised board, or, with no board or an empty one, keeps its cards |
| KanbanBoard.DecodedColumnColourable | GUI/windows/kanban_board.py:384-398 | every card rebuilt from saved entries has a colour the card constructor accepts |
| KanbanBoard.LoadedColourable | GUI/windows/kanban_board.py:383-401 | `load_state`, whether it raises or not, leaves only accepted colours on columns that held only such cards |
| KanbanBoard.LoadedFromStoreColourable | GUI/windows/kanban_board.py:261-266 | the same for `load_board` |
| KanbanBoard.PermutedColourable | GUI/windows/kanban_board.py:52-65 | reordering a column keeps it free of refused colours |
| KanbanBoard.MoveAcrossColourable | GUI/windows/kanban_board.py:67-83 | moving a card between columns keeps every column free of refused colours |
| KanbanBoard.WithoutColourable | GUI/windows/kanban_board.py:304-330 | deleting a column leaves only columns whose cards have accepted colours |
| KanbanBoard.EncodedLoadable | GUI/windows/kanban_board.py:355-398 | a card saved with its metadata can be rebuilt whenever its colour is one the card constructor accepts |
| KanbanBoard.CardList.Load | GUI/windows/kanban_board.py:384-401 | one list is cleared and refilled: raised exactly when an entry cannot be rebuilt; all entries rebuilt otherwise, the cards before the bad entry when it raises |
| KanbanBoard.LoadLists | GUI/windows/kanban_board.py:383-401 | the column loop of `load_state`: columns before the first unloadable one rebuilt, that one partly rebuilt, later ones unchanged, raised exactly when such a column exists |
| KanbanBoard.CardList.constructor | GUI/windows/kanban_board.py:433-440 | a new list widget holds no cards |
| KanbanBoard.Column.constructor | GUI/windows/kanban_board.py:433-440 | a new column has the title and its own empty list |
| KanbanBoard.NamesOf | GUI/windows/kanban_board.py:361-362 | the column names in order |
| KanbanBoard.CardsOf | GUI/windows/kanban_board.py:361-364 | each column's cards in column order |
| KanbanBoard.SnapshotOfColumns | GUI/windows/kanban_board.py:355-374 | with distinct names the snapshot has exactly the columns' names as keys, each holding that column's encoded cards |
| KanbanBoard.SnapshotOfLoadable | GUI/windows/kanban_board.py:355-401 | a full snapshot of columns whose cards all have colours the card constructor accepts (every card on the board, by the board invariant) can always be loaded back |
| KanbanBoard.EditState.constructor | GUI/windows/kanban_board.py:175-199 | both stacks empty, not loading, no autosave pending |
| KanbanBoard.EditState.Record | GUI/windows/kanban_board.py:239-243 | the snapshot is appended, the oldest dropped past 50, the redo stack cleared, and the two stacks stay within 50 |
| KanbanBoard.EditState.Swap | GUI/windows/kanban_board.py:245-259 | the current snapshot goes onto one stack and the last snapshot comes off the other; the stacks stay within 50 |
| KanbanBoard.Board.ValidDistinctNames | GUI/windows/kanban_board.py:268-302 | while the map and the list agree, no two columns share a name |
| KanbanBoard.Board.Names | GUI/windows/kanban_board.py:190 | the board's column names in order |
| KanbanBoard.Board.Cards | GUI/windows/kanban_board.py:190 | each column's cards in column order |
| KanbanBoard.Board.SnapshotColumns | GUI/windows/kanban_board.py:355-374 | the snapshot's keys are exactly the map's keys, each holding that column's encoded cards |
| KanbanBoard.Board.constructor | GUI/windows/kanban_board.py:174-201 | the three default columns, empty stacks, no autosave pending; an absent or empty stored board leaves them empty and `_loading` clear; otherwise the columns are loaded from the normalised board as `load_state` loads them, and `_loading` ends set exactly when that load raised (where `__init__` itself raises) |
| KanbanBoard.Board.LoadInitialBoard | GUI/windows/kanban_board.py:201 | the `load_board` that ends `__init__`, on the empty default columns: an absent or empty stored board leaves them empty; otherwise they are loaded from the normalised board as `load_state` loads them, `_loading` marking a raise |
| KanbanBoard.Board.InitColumns | GUI/windows/kanban_board.py:410-416 | "To Do", "In Progress" and "Done", each empty, in the list and the map |
| KanbanBoard.Board.TriggerAutosave | GUI/windows/kanban_board.py:223-229 | the timer starts unless the board is loading; the stacks are untouched |
| KanbanBoard.Board.SaveState | GUI/windows/kanban_board.py:355-374 | the state is the board's snapshot |
| KanbanBoard.Board.LoadState | GUI/windows/kanban_board.py:376-401 | column by column each list is emptied and refilled from `state.get(name, [])`; it raises exactly when some entry cannot be rebuilt, and then the columns before the first such column are rebuilt, that column holds the cards rebuilt before the bad entry, and the later columns keep their cards; state keys without a column are ignored |
| KanbanBoard.Board.LoadSnapshot | GUI/windows/kanban_board.py:245-259 | `load_state` on a state whose every entry can be rebuilt (a snapshot from the stacks) rebuilds every column from its entry, so every card has an accepted colour |
| KanbanBoard.Board.LoadBoard | GUI/windows/kanban_board.py:261-266 | an absent or empty board changes no card and does not raise; otherwise the columns are loaded from the normalised board as `load_state` loads them; `_loading` ends set exactly when `load_state` raised; the stacks and the autosave flag are untouched |
| KanbanBoard.Board.LoadStored | GUI/windows/kanban_board.py:263-265 | an empty stored board loads nothing; otherwise `load_state` runs on it; raising or not, the cards keep colours the card constructor accepts |
| KanbanBoard.Board.LoadedStoreColourable | GUI/windows/kanban_board.py:261-266 | after `load_board`, whether it raised or not, every card on the board has an accepted colour |
| KanbanBoard.Board.SetLoading | GUI/windows/kanban_board.py:261-266 | the `_loading` guard takes the given value; the stacks and the autosave flag are untouched |
| KanbanBoard.Board.PushUndo | GUI/windows/kanban_board.py:231-243 | a no-op while loading; otherwise the snapshot of the board is pushed (capped at 50) and the redo stack cleared |
| KanbanBoard.Board.SwapSnapshot | GUI/windows/kanban_board.py:245-259 | the board's current snapshot goes onto one stack and the last snapshot comes off the other |
| KanbanBoard.Board.Undo | GUI/windows/kanban_board.py:245-251 | a no-op on an empty undo stack; otherwise the current board goes onto the redo stack and each column is reloaded from the popped snapshot, and the stacks stay within 50 |
| KanbanBoard.Board.Redo | GUI/windows/kanban_board.py:253-259 | a no-op on an empty redo stack; otherwise the current board goes onto the undo stack and each column is reloaded from the popped snapshot |
| KanbanBoard.Board.IndexOf | GUI/windows/kanban_board.py:54 | the position of the column the map holds under the name |
| KanbanBoard.Board.RecordedEdit | GUI/windows/kanban_board.py:60-64 | one column's cards replaced, with the undo push and the autosave around it |
| KanbanBoard.Board.MoveWithinColumn | GUI/windows/kanban_board.py:52-65 | true exactly when the column exists and both rows are in range; false changes nothing and pushes no undo; true moves the card and records the edit |
| KanbanBoard.Board.RecordedTransfer | GUI/windows/kanban_board.py:77-82 | the card moved across, with the undo push and the autosave around it |
| KanbanBoard.Board.TransferSaved | GUI/windows/kanban_board.py:78-82 | the card moved across, then the autosave armed unless loading; the stacks are untouched |
| KanbanBoard.Board.Transfer | GUI/windows/kanban_board.py:78-79 | the source list loses the card and the target list gains it at its end; every other list keeps its cards |
| KanbanBoard.Board.MoveBetweenColumns | GUI/windows/kanban_board.py:67-83 | true exactly when both columns exist and the row is in range; false changes nothing; true moves the card to the end of the target and records the edit |
| KanbanBoard.Board.AddColumn | GUI/windows/kanban_board.py:268-277 | a no-op for an existing name; otherwise one new empty column at the end, in both the list and the map |
| KanbanBoard.Board.RenameColumn | GUI/windows/kanban_board.py:279-302 | a no-op when the old name is absent or the new one taken; otherwise the map loses the old key and gains the new one for the same column, whose cards are kept |
| KanbanBoard.Board.Rename | GUI/windows/kanban_board.py:285-302 | the column's name and its map key change together; the column order is kept |
| KanbanBoard.Board.DeleteColumn | GUI/windows/kanban_board.py:304-330 | only for an existing name and a confirmed dialog, the column leaves both the list and the map |
| KanbanBoard.Board.KeyMoveVertical | GUI/windows/kanban_board.py:134-144 | with a current card and an in-range target row, the card moves one row up or down and the edit is recorded; otherwise nothing changes |
| KanbanBoard.Board.KeyMoveHorizontal | GUI/windows/kanban_board.py:146-159 | with a current card and a neighbouring column, the card goes to the end of that column and the edit is recorded; otherwise nothing changes |
| KanbanBoard.Capped | GUI/windows/kanban_board.py:241-242 | the stack unchanged, or without its oldest snapshot once it holds more than 50 |
| KanbanBoard.Without | GUI/windows/kanban_board.py:329 | exactly the other columns, still distinct |
| KanbanBoard.TabTarget | GUI/windows/kanban_board.py:161-170 | Tab goes to the next column and wraps to the first; Backtab goes to the previous one and wraps to the last |
| KanbanBoard.WrapAround | GUI/windows/kanban_board.py:163-168 | Python's `%` on one step past either end wraps around |
| KanbanBoard.TabBacktabInverse | GUI/windows/kanban_board.py:161-170 | Tab then Backtab, or the other way round, returns to the same column |
| KanbanToTimeline.Reached | GUI/windows/kanban_board2.py:62-70 | the timeline board of one of the first five ancestors, and none exactly when none of them has one |
| KanbanToTimeline.ReachedWithin | GUI/windows/kanban_board2.py:64-70 | the first ancestor within the step budget that has a timeline board, none exactly when none has |
| KanbanToTimeline.FindTimelineTab | GUI/windows/kanban_board2.py:62-70 | the ancestor walk stops at the first of at most five ancestors that owns a timeline board |
| KanbanToTimeline.ConvertAsWrittenNeverAdds | GUI/windows/kanban_board2.py:71-84 | as written, no conversion adds a card: it reports "already" exactly for a card whose id is `None` on a timeline that has cards, and fails otherwise (see Findings) |
| KanbanToTimeline.ConvertAsWrittenFails | GUI/windows/kanban_board2.py:73-84 | as written, a card with an id converted onto an empty timeline fails and adds nothing, where the corrected conversion puts it on the timeline (see Findings) |
| KanbanToTimeline.ConvertAsWritten | GUI/windows/kanban_board2.py:71-84 | as written: the timeline keeps its cards and gains at most one, at its end, exactly on "ok"; "already" needs a card whose id is `None` on a timeline that has cards (see Findings) |
| KanbanToTimeline.Convert | GUI/windows/kanban_board2.py:71-84 | corrected: "failed" exactly when the card has no id; "already" exactly when its id is on the timeline; "ok" appends exactly one card titled with the card's text and carrying its metadata; otherwise nothing changes; afterwards the id is on the timeline |
| KanbanToTimeline.ConvertTwice | GUI/windows/kanban_board2.py:73-80 | corrected: converting the same card a second time reports "already" and adds nothing |
| KanbanToTimeline.ConvertKeepsIdsDistinct | GUI/windows/kanban_board2.py:73-80 | corrected: conversions never give two timeline cards the same id |
| KanbanToTimeline.IdsGrow | GUI/windows/kanban_board2.py:79 | corrected: appending timeline cards never loses an id |
| KanbanToTimeline.ConvertBulk | GUI/windows/kanban_board2.py:57-84 | "failed" when no timeline is found; otherwise the outcome of one conversion as written; the timeline's row and emitted orders do not change |
| KanbanToTimeline.ConvertKanbanToTimeline | GUI/windows/kanban_board2.py:98-141 | the same conversion as written, reported as "already exists", "converted", "timeline not found", or an exception only logged; the timeline's row does not change |
| KanbanToTimeline.Tally.Count | GUI/windows/kanban_board2.py:16-23 | each outcome raises exactly one counter by one |
| KanbanToTimeline.SyncAsWritten | GUI/windows/kanban_board2.py:7-23 | as written, the tally counts every queued card exactly once, and without a timeline every card fails |
| KanbanToTimeline.SyncAsWrittenTally | GUI/windows/kanban_board2.py:7-23 | as written, on a timeline that has cards nothing is synced: the cards whose id is `None` count as already there and all others fail |
| KanbanToTimeline.SyncAsWrittenEmpty | GUI/windows/kanban_board2.py:7-23 | as written, on an empty timeline every card fails |
| KanbanToTimeline.SyncAsWrittenSnoc | GUI/windows/kanban_board2.py:12-23 | as written, a queue grown by one card is counted by one more conversion |
| KanbanToTimeline.Sync | GUI/windows/kanban_board2.py:7-23 | corrected: converting a queue counts every card exactly once (synced + already + failed = cards), only appends to the timeline (one card per "ok"), and without a timeline fails every card and adds nothing |
| KanbanToTimeline.SyncCovers | GUI/windows/kanban_board2.py:7-23 | corrected: after a sync every queued card that has an id is on the timeline |
| KanbanToTimeline.SyncKeepsIdsDistinct | GUI/windows/kanban_board2.py:7-23 | corrected: a sync never gives two timeline cards the same id |
| KanbanToTimeline.SyncCoveredAddsNothing | GUI/windows/kanban_board2.py:7-23 | corrected: on a timeline that already holds every queued id, a sync adds nothing |
| KanbanToTimeline.SyncTwice | GUI/windows/kanban_board2.py:7-23 | corrected: syncing the same cards a second time adds nothing |
| KanbanToTimeline.FlattenAppend | GUI/windows/kanban_board2.py:10-12 | visiting columns in order distributes over concatenating them |
| KanbanToTimeline.QueueColumnDone | GUI/windows/kanban_board2.py:10-12 | once a column is done, the cards visited before it followed by its cards are all the cards of the columns so far |
| KanbanToTimeline.SyncColumns | GUI/windows/kanban_board2.py:7-23 | the nested loops visit column by column, row by row; the tally totals the cards and is the as-written sync of the flattened board; the timeline's row and emitted orders do not change; without a timeline every card fails |
| KanbanToTimeline.SyncColumnCards | GUI/windows/kanban_board2.py:12-23 | the inner loop continues the as-written tally over one column's cards and leaves the timeline's row unchanged |
| KanbanToTimeline.SyncCard | GUI/windows/kanban_board2.py:13-23 | one conversion counted onto the tally: the as-written tally of the queue grown by that card |
| KanbanToTimeline.SyncAllKanbanToTimeline | GUI/windows/kanban_board2.py:1-27 | the tally's total is the number of cards on the board; without a timeline every card fails; with one, the tally is the as-written sync of the board's cards and the timeline's row does not change |
| KanbanToTimeline.SyncColumnKanbanToTimeline | GUI/windows/kanban_board2.py:30-54 | the same over one column's list |
| TimelineBoard.Titles | GUI/windows/timeline_board.py:61 | the card titles in row order, as `orderChanged` emits them |
| TimelineBoard.FirstWithTitle | GUI/windows/timeline_board.py:68 | the first card with the title, and none exactly when no card has it |
| TimelineBoard.RemoveFirstTakesOne | GUI/windows/timeline_board.py:54-61 | `remove_card` takes away exactly one card of that title when there is one, later duplicates and the order of the rest stay; an unknown title leaves the row unchanged |
| TimelineBoard.RemoveAtIndex | GUI/windows/timeline_board.py:59 | removing one position takes exactly that card out of the row's multiset |
| TimelineBoard.PopInsert | GUI/windows/timeline_board.py:78-79 | `pop` then `insert` keeps the row's length and is a permutation; the popped card ends at the insert index, or last when the index is past the end |
| TimelineBoard.DropAsWritten | GUI/windows/timeline_board.py:66-79 | as written: the row stays a permutation of the same length; an unknown title changes nothing; otherwise the card lands at the slot index counted before the pop, or last when that is past the end (see Findings) |
| TimelineBoard.DropAsWrittenOvershoots | GUI/windows/timeline_board.py:66-79 | as written, dropping the first of three cards on the gap before the third puts it after the third (see Findings) |
| TimelineBoard.PopInsertLandsInSlot | GUI/windows/timeline_board.py:70-79 | popping and inserting at the corrected index puts the card in the gap it was dropped on |
| TimelineBoard.MovedToOwnSlot | GUI/windows/timeline_board.py:77 | a drop on either gap next to the card leaves the row as it was |
| TimelineBoard.TimelineBoardWidget.constructor | GUI/windows/timeline_board.py:40-46 | the board starts with no cards |
| TimelineBoard.TimelineBoardWidget.AddCard | GUI/windows/timeline_board.py:48-52 | a title `QLabel` accepts (a string or `None`) is appended as one card at the end; any other value raises and leaves the row as it was; nothing is emitted |
| TimelineBoard.TimelineBoardWidget.RemoveCard | GUI/windows/timeline_board.py:54-61 | the first card with the title goes, if any; the new titles are emitted either way |
| TimelineBoard.TimelineBoardWidget.Drop | GUI/windows/timeline_board.py:66-85 | corrected: the row stays a permutation; the first card with the dragged title moves into the gap it was dropped on and the new titles are emitted; an unknown title or a drop next to the card changes and emits nothing |
| Scenes.NewScene | GUI/windows/project_editor_window.py:605-608 | a scene dictionary with the title and empty content, and no other keys |
| Scenes.AsValue | GUI/windows/project_editor/timeline_tab.py:40-42 | a string scene is its text; a dictionary scene is a dictionary |
| Scenes.MatchesString | GUI/windows/project_editor/timeline_tab.py:40-42 | for a string title, a scene matches exactly when its shown title is that string |
| Scenes.FirstMatch | GUI/windows/project_editor/timeline_tab.py:39-44 | the first matching scene, or no match at all, or a dictionary without `title` reached first (the lookup raises) |
| Scenes.Reorder | GUI/windows/project_editor/timeline_tab.py:35-45 | for each title in order, the first matching scene; unmatched titles add nothing, so the result is no longer than the titles; it is defined whenever every scene has a title |
| Scenes.ReorderFromScenes | GUI/windows/project_editor/timeline_tab.py:37-44 | every scene of a rebuilt list is one of the original scenes |
| Scenes.FirstMatchDistinct | GUI/windows/project_editor/timeline_tab.py:39-44 | with distinct titles, the title of scene `k` finds scene `k` |
| Scenes.PickedTitles | GUI/windows/project_editor/timeline_tab.py:31-35 | one title per picked position |
| Scenes.Picked | GUI/windows/project_editor/timeline_tab.py:37-44 | one scene per picked position |
| Scenes.ReorderPicked | GUI/windows/project_editor/timeline_tab.py:34-45 | with distinct titles, rebuilding from any arrangement of the scenes' titles (reordered, repeated or partial) gives the scenes in that arrangement |
| Scenes.PickedPrefix | GUI/windows/project_editor/timeline_tab.py:38-44 | the picks of a prefix are a prefix, and the last pick comes last |
| Scenes.Identity | GUI/windows/project_editor/timeline_tab.py:30-32 | the arrangement that keeps every position |
| Scenes.ReorderOwnTitles | GUI/windows/project_editor/timeline_tab.py:23-45 | with distinct titles, rebuilding from the scenes' own titles gives the scenes back |
| Scenes.Swapped | tests/gui/test_timeline_tab.py:78-87 | the arrangement that exchanges two positions |
| Scenes.PickedSwapped | tests/gui/test_timeline_tab.py:78-87 | picking by the exchanging arrangement exchanges two scenes |
| Scenes.ReorderSwapped | GUI/windows/project_editor/timeline_tab.py:34-45 | with distinct titles, exchanging two titles exchanges the two scenes |
| Scenes.ReorderRaisedStays | GUI/windows/project_editor/timeline_tab.py:38-45 | once a lookup raised, the whole rebuild has |
| Scenes.FindScene | GUI/windows/project_editor/timeline_tab.py:39-44 | the inner loop finds the first match, or reports no match, or the raising lookup |
| Scenes.FirstMatchSkip | GUI/windows/project_editor/timeline_tab.py:39-44 | titled scenes that do not match are passed over |
| Scenes.RebuildScenes | GUI/windows/project_editor/timeline_tab.py:37-44 | the nested loops compute the rebuild (also at GUI/windows/ui_timeline.py:53-60) |
| TimelineTab.SceneCards | GUI/windows/project_editor/timeline_tab.py:28-32 | at most one card per scene, titled with the dictionary's `title` or the string, in order, stopping only at a dictionary without `title` |
| TimelineTab.SceneCardsTitles | GUI/windows/project_editor/timeline_tab.py:28-32 | with every scene titled, one card per scene carrying the scenes' titles in order (none for no scenes) |
| TimelineTab.SyncRoundTrip | GUI/windows/project_editor/timeline_tab.py:23-45 | with distinct titles, syncing scenes to the timeline and straight back returns the same scene list |
| TimelineTab.SyncSwapped | tests/gui/test_timeline_tab.py:78-87 | with distinct titles, swapping two timeline cards swaps the two scenes |
| TimelineTab.TitlesSwapped | GUI/windows/project_editor/timeline_tab.py:35 | exchanging two cards exchanges their titles |
| TimelineTab.TimelineTab.constructor | GUI/windows/project_editor/timeline_tab.py:6-13 | an empty timeline board beside the scene list |
| TimelineTab.TimelineTab.SyncScenesToTimeline | GUI/windows/project_editor/timeline_tab.py:23-32 | the board is cleared, then holds the scene cards, and nothing is emitted |
| TimelineTab.TimelineTab.SyncTimelineToScenes | GUI/windows/project_editor/timeline_tab.py:34-45 | the scenes become the rebuild from the cards' titles; a lookup that raises leaves them as they were |
| TimelineTab.SceneCardsExtend | GUI/windows/project_editor/timeline_tab.py:30-32 | the cards of a titled prefix extend by the next titled scene |
| TimelineTab.SceneCardsUntitled | GUI/windows/project_editor/timeline_tab.py:31 | the cards stop at the first dictionary without `title` |
| UiTimeline.RowTitles | GUI/windows/ui_timeline.py:41-45 | at most one row per scene, with the dictionary's `title` or the string as both text and `title`, stopping only at a dictionary without `title` |
| UiTimeline.RowValues | GUI/windows/ui_timeline.py:49-51 | the row texts, in list order |
| UiTimeline.RefreshReorderRoundTrip | GUI/windows/ui_timeline.py:41-61 | with distinct titles, a refresh followed by a reorder signal with the rows untouched gives back the same scenes |
| UiTimeline.EditTarget | GUI/windows/ui_timeline.py:63-71 | forwards exactly when `0 <= row < len(scenes)` and the parent has `edit_scene`, and then forwards that row |
| UiTimeline.TimelineTab.constructor | GUI/windows/ui_timeline.py:25-35 | the list starts filled by `refresh` |
| UiTimeline.TimelineTab.Refresh | GUI/windows/ui_timeline.py:41-45 | the list is cleared and refilled with the scenes' rows; the scenes are untouched |
| UiTimeline.TimelineTab.OnReorder | GUI/windows/ui_timeline.py:47-61 | the scenes become the rebuild from the row texts in list order; titles without a scene are dropped; a lookup that raises leaves the scenes as they were |
| UiTimeline.RowTitlesExtend | GUI/windows/ui_timeline.py:43-45 | the rows of a titled prefix extend by the next titled scene |
| UiTimeline.RowTitlesUntitled | GUI/windows/ui_timeline.py:44 | the rows stop at the first dictionary without `title` |
| ProjectEditor.KeySuffix | GUI/windows/project_editor_window.py:251-256 | what follows the chapter number in a link id is empty for a chapter and starts with a colon for a scene |
| ProjectEditor.KeyIdInjective | GUI/windows/project_editor_window.py:251-256 | two link ids built from `chapter:{cidx}` and `chapter:{cidx}:scene:{sidx}` are equal only when they name the same chapter or the same scene |
| ProjectEditor.KeyIdParts | GUI/windows/project_editor_window.py:251-256 | two equal link ids have the same chapter number and the same suffix |
| ProjectEditor.SceneLinks | GUI/windows/project_editor_window.py:255-267 | the scene links of one chapter exist exactly when every scene has a title to show, and there is one link per scene |
| ProjectEditor.SceneLinkAt | GUI/windows/project_editor_window.py:255-267 | scene link `s` names scene `s` of its chapter, carries that scene's title and the chapter's title |
| ProjectEditor.ChapterLinks | GUI/windows/project_editor_window.py:250-267 | a chapter contributes its own link followed by one link per scene, and fails exactly when the chapter cannot be listed (no title, or a scene without one) |
| ProjectEditor.AvailableLinksDefined | GUI/windows/project_editor_window.py:248-268 | the link list is produced exactly when every chapter can be listed; otherwise the lookup raises |
| ProjectEditor.AvailableLinks | GUI/windows/project_editor_window.py:248-268 | when listed, at least one link per chapter, the first being chapter 0's own link under its title |
| ProjectEditor.ChapterKeys | GUI/windows/project_editor_window.py:250-256 | a chapter with m scenes names itself first, then scenes 0..m-1, all with that chapter's number and all different |
| ProjectEditor.LinkKeys | GUI/windows/project_editor_window.py:250-256 | every key names a chapter that exists |
| ProjectEditor.LinkKeysDistinct | GUI/windows/project_editor_window.py:248-268 | no chapter or scene is named twice in the link list |
| ProjectEditor.LinksFollowKeys | GUI/windows/project_editor_window.py:248-268 | the links come in the order chapter, its scenes, next chapter, its scenes, and so on |
| ProjectEditor.ChapterLinkKeys | GUI/windows/project_editor_window.py:250-267 | one chapter's links carry that chapter's keys in order |
| ProjectEditor.LinkIdsDistinct | GUI/windows/project_editor_window.py:248-268 | every link target offered to the Kanban board has an id of its own |
| ProjectEditor.ChapterRows | GUI/windows/project_editor_window.py:493-501 | the scene list for a chapter in range shows one row per scene, its title or "Untitled" or the string itself; otherwise it is empty |
| ProjectEditor.Edited | GUI/windows/project_editor_window.py:530-542 | after an edit the scene is a dictionary whose title is the row's text and whose content is the editor's text |
| ProjectEditor.EditIdempotent | GUI/windows/project_editor_window.py:536-542 | repeating the same edit changes nothing more; no second version is recorded |
| ProjectEditor.EditRecordsOldContent | GUI/windows/project_editor_window.py:537-540 | a change of content appends the old content to the history after the older versions, and leaves notes untouched |
| ProjectEditor.Restored | GUI/windows/project_editor_window.py:481-486 | corrected: restoring version v brings back its content, shortens the history by one and keeps title and notes |
| ProjectEditor.EditRestoreUndo | GUI/windows/project_editor_window.py:481-486 | corrected: restoring the newest version right after a changing edit gives back the old content and the old history |
| ProjectEditor.RestoredAsWritten | GUI/windows/project_editor_window.py:481-486 | as written, the restored scene ends with the editor's HTML as content and the row's text as title, its notes kept |
| ProjectEditor.RestoreKeepsVersion | GUI/windows/project_editor_window.py:481-486 | as written, when the editor's HTML differs from the restored version, that version comes back as the newest history entry behind the others (see Findings) |
| ProjectEditor.RestoreNewSceneAsWritten | GUI/windows/project_editor_window.py:481-486 | a new scene edited once and restored to its only version still has that version as written, where the corrected restore empties the history |
| ProjectEditor.NavigateTarget | GUI/windows/project_editor_window.py:797-802 | the target row is always in the list; an index in range is kept, -1 or past the end goes to the last scene, other negatives to the first |
| ProjectEditor.NavigateTargetSettled | GUI/windows/project_editor_window.py:797-804 | navigating to a target already chosen stays there |
| ProjectEditor.RowAfterTake | GUI/windows/project_editor_window.py:597-598 | after removing the current row the selection is the row that moved up, else the new last row, and none only when the list is empty |
| ProjectEditor.WithScenes | GUI/windows/project_editor_window.py:607 | replacing one chapter's scenes leaves every other chapter as it was |
| ProjectEditor.ProjectEditorWindow.constructor | GUI/windows/project_editor_window.py:52-61 | the chapters are the project's `chapters` when a dictionary with that key is given, else empty; no chapter and no scene is selected |
| ProjectEditor.ProjectEditorWindow.GetAvailableLinks | GUI/windows/project_editor_window.py:248-268 | the loop produces exactly the chapter-then-scenes link list, or fails when a title is missing |
| ProjectEditor.ProjectEditorWindow.ChapterSelected | GUI/windows/project_editor_window.py:493-503 | the scene list is refilled from the current chapter and nothing is selected; the chapters are unchanged |
| ProjectEditor.ProjectEditorWindow.TextChanged | GUI/windows/project_editor_window.py:522-544 | with a current scene that exists, only that scene changes, to its edit; otherwise nothing changes |
| ProjectEditor.ProjectEditorWindow.ShowVersionHistory | GUI/windows/project_editor_window.py:462-486 | with no selection the user is told so; a version is restored exactly when a scene with that version exists and was chosen, and only then do the chapters change, as the as-written restore: the content is set, `setHtml` records it through `_on_text_changed`, then the chosen entry is dropped |
| ProjectEditor.ProjectEditorWindow.GoToPrevChapter | GUI/windows/project_editor_window.py:644-649 | moves one chapter up when there is one and lists its scenes; otherwise nothing changes |
| ProjectEditor.ProjectEditorWindow.GoToNextChapter | GUI/windows/project_editor_window.py:651-656 | moves one chapter down when there is one and lists its scenes; otherwise nothing changes |
| ProjectEditor.ProjectEditorWindow.GoToPrevScene | GUI/windows/project_editor_window.py:658-663 | moves one scene up when there is one; the chapters and lists stay |
| ProjectEditor.ProjectEditorWindow.GoToNextScene | GUI/windows/project_editor_window.py:665-670 | moves one scene down when there is one; the chapters and lists stay |
| ProjectEditor.ProjectEditorWindow.NavigateToScene | GUI/windows/project_editor_window.py:786-805 | with a chapter selected and scenes listed, selects the clamped target; otherwise the selection stays |
| ProjectEditor.ProjectEditorWindow.AddChapter | GUI/windows/project_editor_window.py:569-573 | an accepted non-empty title appends an empty chapter and its row; anything else changes nothing |
| ProjectEditor.ProjectEditorWindow.DeleteChapter | GUI/windows/project_editor_window.py:586-599 | a Yes on a selected chapter removes exactly that chapter and its row and empties the scene list; otherwise nothing changes |
| ProjectEditor.ProjectEditorWindow.AddScene | GUI/windows/project_editor_window.py:601-608 | with a chapter selected, an accepted non-empty title appends a new scene to that chapter only, and its row; otherwise nothing changes |
| ProjectEditor.ProjectEditorWindow.DeleteScene | GUI/windows/project_editor_window.py:628-641 | a Yes on a selected scene removes exactly that scene from its chapter and its row; otherwise nothing changes |
| ProjectEditor.ProjectEditorWindow.SyncTimelineToScenes | GUI/windows/project_editor_window.py:442-459 | the current chapter's scenes become the first-match rebuild from the timeline titles and the scene list is refilled; other chapters are unchanged |
| Annotations.Appended | GUI/windows/project_editor/annotations.py:29-42 | the append step on the scene as re-read after the highlight: it succeeds exactly on a dictionary scene (on a bare string the key assignment raises); the note goes at the end of its own list, the other list, the title, the content and the versions stay |
| Annotations.Annotated | GUI/windows/project_editor/annotations.py:22-42 | highlighting then recording a note on an existing scene: the note is appended as the newest of its list, the other list is unchanged, and the scene becomes a dictionary holding the editor's HTML under the row's title |
| Annotations.NoteRows | GUI/windows/project_editor/annotations.py:90-93 | one `[A]`/`[F]` row per record, in order, stopping at the first entry that is a bare string (where the lookup raises) |
| Annotations.EntryAt | GUI/windows/project_editor/annotations.py:105-115 | a row index picks an entry exactly when it is below the total count; annotations come first, footnotes after them |
| Annotations.ClickRange | GUI/windows/project_editor/annotations.py:96-121 | a click selects a range only for a current scene that exists and is a dictionary |
| Annotations.RowsCountRecords | GUI/windows/project_editor/annotations.py:82-93 | when both lists hold only records, the list shows one row per annotation and per footnote |
| Annotations.ClickSelectsListedNote | GUI/windows/project_editor/annotations.py:82-121 | clicking any listed row selects the start and end of the very note that row shows |
| Annotations.NoteRowsAppend | GUI/windows/project_editor/annotations.py:90-93 | appending a record to a list of records appends its row |
| Annotations.AddedNoteListed | GUI/windows/project_editor/annotations.py:10-93 | after adding one note the list gains exactly its row: after the annotations for an annotation, at the very end for a footnote |
| Annotations.AnnotationList.constructor | GUI/windows/project_editor/annotations.py:83 | the list starts empty |
| Annotations.AnnotationList.AddRows | GUI/windows/project_editor/annotations.py:90-93 | the loop adds exactly the rows of the records before the first bare string, and reports whether it got through the whole list |
| Annotations.AnnotationList.Refresh | GUI/windows/project_editor/annotations.py:82-93 | after a refresh the list holds exactly the current scene's rows, or nothing when there is no such scene |
| Annotations.AnnotationList.AddSceneRows | GUI/windows/project_editor/annotations.py:89-93 | a scene's annotations are listed, then its footnotes only if every annotation was a record |
| Annotations.AddNote | GUI/windows/project_editor/annotations.py:10-79 | no selection or a dismissed dialog changes nothing; otherwise, when the current scene exists, the highlight's `textChanged` edit is applied and exactly one `{text, note, start, end}` record is appended to its list, and the annotation list is refreshed to match |
| UtilsUi.TextRows | GUI/windows/utils_ui.py:28-31 | one `[Annotation]`/`[Footnote]` row per entry holding the entry's first 40 characters, stopping at the first entry that is not a string (where slicing raises) |
| UtilsUi.Detail | GUI/windows/utils_ui.py:54-62 | the details passed on are a `{type, text}` dictionary whose type names the list the entry came from and whose text is the entry |
| UtilsUi.ClickDetail | GUI/windows/utils_ui.py:34-62 | a click reports details exactly when the current scene exists and the row index is below the total number of entries |
| UtilsUi.SummaryPlaceholder | GUI/windows/utils_ui.py:12-27 | the list shows just the "(No annotations or footnotes)" row exactly when there is no current scene or it has neither annotations nor footnotes |
| UtilsUi.SummaryRowsLabelled | GUI/windows/utils_ui.py:28-31 | outside those cases the first row, when there is one, is an entry's labelled row and never the placeholder |
| UtilsUi.SummaryRows | GUI/windows/utils_ui.py:12-31 | a chapter without a `scenes` key shows no row (the lookup raises first); for a current scene with notes, at most one row per entry, and exactly one per entry when every entry is a string |
| UtilsUi.SummaryClickAgree | GUI/windows/utils_ui.py:8-62 | clicking any listed row reports the entry that row shows, with the kind its label names |
| UtilsUi.SummaryCountTexts | GUI/windows/utils_ui.py:28-31 | with only strings in both lists the summary has one row per entry |
| UtilsUi.AddTextRows | GUI/windows/utils_ui.py:28-31 | the loop adds exactly the rows of the string entries before the first non-string, and reports whether it got through the whole list |
| UtilsUi.RefreshSummary | GUI/windows/utils_ui.py:8-31 | after a refresh the list holds exactly the summary rows of the current scene, or the placeholder |
| Dashboard.InitialProjects | GUI/windows/dashboard.py:26 | the dashboard never starts empty: the stored list when there is one, else the single default project |
| Dashboard.DashboardWindow.constructor | GUI/windows/dashboard.py:22-36 | the window lists the initial projects and nothing has been written yet |
| Dashboard.DashboardWindow.CreateProject | GUI/windows/dashboard.py:64-69 | an accepted non-empty name is appended and the new list is saved; otherwise nothing changes; it never adds an empty name |
| Dashboard.DashboardWindow.DeleteProject | GUI/windows/dashboard.py:71-84 | a confirmed delete of a selected row removes exactly that project and saves the list; otherwise nothing changes |
| Dashboard.DashboardWindow.RenameProject | GUI/windows/dashboard.py:86-96 | an accepted non-empty name replaces exactly the selected project, keeping the count, and the list is saved; otherwise nothing changes |
| Export.Render | GUI/windows/export_dialog.py:63-139 | the content the Markdown, plain-text and Fountain exporters build is exactly the header followed by each chapter's heading and scene blocks in order |
| Export.AppendScenes | GUI/windows/export_dialog.py:70-81 | the inner loop appends exactly the blocks of the chapter's scenes, in order, after what was there |
| Export.ScenesTextAppend | GUI/windows/export_dialog.py:70-81 | the text of two runs of scenes is the text of the first followed by the text of the second |
| Export.ChaptersTextAppend | GUI/windows/export_dialog.py:67-81 | the text of two runs of chapters is the text of the first followed by the text of the second |
| Export.ChapterSplit | GUI/windows/export_dialog.py:63-84 | the file is the header, the chapters before chapter i, chapter i, then the chapters after it |
| Export.ChapterInChapters | GUI/windows/export_dialog.py:67-81 | each chapter's text sits right after the text of the chapters before it |
| Export.ChapterTextAt | GUI/windows/export_dialog.py:63-84 | chapter i's whole text appears in the file at its offset |
| Export.ChapterHeadingAt | GUI/windows/export_dialog.py:68 | chapter i's heading appears in the file at its offset |
| Export.SceneInScenes | GUI/windows/export_dialog.py:70-81 | each scene's block sits right after the blocks of the scenes before it |
| Export.SceneBlockAt | GUI/windows/export_dialog.py:70-81 | scene j of chapter i, heading and content, appears in the file at its offset |
| Export.ScenesPrefixLength | GUI/windows/export_dialog.py:70-81 | a scene's block ends within the text of any longer run of scenes that contains it |
| Export.ChaptersPrefixLength | GUI/windows/export_dialog.py:67-81 | a chapter's text ends within the text of any longer run of chapters that contains it |
| Export.ScenesInOrder | GUI/windows/export_dialog.py:63-139 | scenes come out in project order: an earlier scene ends before a later one starts, across chapters too |
| Export.TitlesAppear | GUI/windows/export_dialog.py:63-139 | the project title, every chapter title and every scene title appear in the exported text |
| Export.ProjectTitleAt | GUI/windows/export_dialog.py:65 | the project title follows the format's lead at the start of the file |
| Export.ChapterTitleAt | GUI/windows/export_dialog.py:68 | each chapter title follows its heading lead at the chapter's offset |
| Export.SceneTitleAt | GUI/windows/export_dialog.py:80 | each scene title follows its heading lead at the scene's offset |
| Export.PlainTextTitleRule | GUI/windows/export_dialog.py:93-95 | a plain-text file starts with the project title on its own line, underlined by 50 `=` |
| Export.TitleLine | GUI/windows/export_dialog.py:93-95 | any format whose title tail is a rule line puts that rule right under the title |
| Export.PlainTextChapterRule | GUI/windows/export_dialog.py:98-100 | in a plain-text file every chapter title is on its own line, underlined by 30 `-` |
| Export.ChapterLine | GUI/windows/export_dialog.py:98-100 | any format whose chapter tail is a rule line puts that rule right under each chapter title |
| Export.StripScene | GUI/windows/export_dialog.py:311-313 | a stripped scene has neither annotations nor footnotes, keeps its title, content and history, and stays a string or a dictionary as it was |
| Export.StripAnnotations | GUI/windows/export_dialog.py:309-313 | the loop strips every dictionary scene of every chapter and changes nothing else |
| Export.StripRemovesNotes | GUI/windows/export_dialog.py:305-313 | after stripping no scene has notes, and chapters, titles, scene counts and scene texts are as before |
| Export.StripKeepsScenesText | GUI/windows/export_dialog.py:70-81 | stripped scenes export to the same text |
| Export.StripKeepsChapterText | GUI/windows/export_dialog.py:67-81 | a stripped chapter exports to the same text |
| Export.StripKeepsChaptersText | GUI/windows/export_dialog.py:67-81 | stripped chapters export to the same text |
| Export.StripKeepsText | GUI/windows/export_dialog.py:305-313 | unticking annotations changes nothing in the Markdown, plain-text or Fountain file; only the JSON export differs |
| Export.StripIdempotent | GUI/windows/export_dialog.py:309-313 | stripping twice is the same as stripping once |
| Export.FilterMatchesExtension | GUI/windows/export_dialog.py:339-357 | the two tables know the same formats; a known format's filter names its own extension, and any other format gets "txt" and "All Files (*)" |
| Export.FilterEnds | GUI/windows/export_dialog.py:341-346 | a filter built as a label and a `(*.ext)` pattern contains that pattern |
| Export.GetExtension | GUI/windows/export_dialog.py:349-357 | one of "md", "json", "txt" and "fountain"; "txt" exactly for "Plain" and unknown formats |
| Export.GetFileFilter | GUI/windows/export_dialog.py:339-347 | a known format's filter ends with the pattern of its own extension; any other format's filter does not |
| Export.FilterNamesExtension | GUI/windows/export_dialog.py:339-357 | each filter in the table ends with the pattern of the extension the other table gives its format |
| Export.DefaultName | GUI/windows/export_dialog.py:296 | the suggested file name ends with a dot and the format's extension |
| Export.TargetOf | GUI/windows/export_dialog.py:42-49 | the intended dispatch agrees with `run` on every name except "Plain", the name the dialog sends for plain text |
| Export.Outcome | GUI/windows/export_dialog.py:38-61 | an unknown format writes nothing and says "not yet implemented"; a failing write says "Export failed: ..."; otherwise progress reaches 100, the success message names the path, and the file is the rendered text or the data as JSON |
| Export.RunAsWritten | GUI/windows/export_dialog.py:38-61 | as written: a file is written exactly for "Markdown", "JSON", "Plain Text" or "Fountain" when the write succeeds, and then progress reaches 25 and 100; the JSON file exactly for "JSON"; "Plain Text" writes the plain-text rendering |
| Export.Run | GUI/windows/export_dialog.py:38-61 | corrected: "Plain" does what "Plain Text" does and every other name is handled as written, so a file is written exactly for those four names and "Plain" when the write succeeds |
| Export.FirstWord | GUI/windows/export_dialog.py:283 | the first word is a prefix of the text, holds no whitespace, and is followed by whitespace or the end |
| Export.FirstWordOf | GUI/windows/export_dialog.py:283 | a word followed by whitespace is the first word of the text |
| Export.StartFor | GUI/windows/export_dialog.py:281-303 | only a "Coming Soon" entry gets the notice; the worker starts exactly when it is not one and a path was chosen, and then gets the data, the path and the entry's first word; otherwise the save dialog offers the format's filter and a default name ending in the format's extension |
| Export.StartExport | GUI/windows/export_dialog.py:281-325 | a "Coming Soon" entry only gets the notice; a cancelled save starts nothing; otherwise the worker gets the chosen format, path and the data, stripped of notes when annotations are unticked |
| Export.StartExportAsWritten | GUI/windows/export_dialog.py:306-313 | as written, starting an export with annotations unticked strips the notes from the editor's own chapters as well; the data sent carries the editor's default title and metadata |
| Export.ExportStripsEditorNotes | GUI/windows/project_editor_window.py:694-705 | a scene in the editor that had annotations loses them, so the editor's chapters change |
| Export.ComboMarkdown | GUI/windows/export_dialog.py:173-182 | the first entry sends the format name "Markdown" |
| Export.ComboPlain | GUI/windows/export_dialog.py:173-182 | the plain-text entry sends the format name "Plain" |
| Export.ComboJSON | GUI/windows/export_dialog.py:173-182 | the JSON entry sends the format name "JSON" |
| Export.ComboFountain | GUI/windows/export_dialog.py:173-182 | the Fountain entry sends the format name "Fountain" |
| Export.ComboFormats | GUI/windows/export_dialog.py:173-182 | the four implemented entries send "Markdown", "Plain", "JSON" and "Fountain" |
| Export.PlainTextNotExported | GUI/windows/export_dialog.py:46 | as written, choosing plain text writes nothing and reports "not yet implemented" |
| Export.NotRecognised | GUI/windows/export_dialog.py:50-55 | a format name `run` does not test for writes nothing and reports "not yet implemented" |
| Export.EveryListedFormatExports | GUI/windows/export_dialog.py:38-139 | with "Plain" accepted, each implemented entry writes the file it names and reports success |
| Export.ExportsMarkdown | GUI/windows/export_dialog.py:42-43 | the Markdown entry writes the Markdown rendering |
| Export.ExportsPlain | GUI/windows/export_dialog.py:46-47 | the plain-text entry writes the plain-text rendering |
| Export.ExportsJSON | GUI/windows/export_dialog.py:44-45 | the JSON entry writes the whole export data: title, chapters and every other key, `metadata` among them |
| Export.ExportsFountain | GUI/windows/export_dialog.py:48-49 | the Fountain entry writes the Fountain rendering |

## Left out

- Qt rendering and interaction: layouts, styles, menus, shortcut wiring, focus, drag and mime data. The pixel geometry that picks a drop slot in timeline_board.py becomes the `slot` parameter.
- Message boxes, input dialogs and the colour dialog: their answers are method parameters.
- File and JSON I/O (`open`, `json.load`, `json.dump`, `os.listdir`, `os.makedirs`): the stores take the decoded file contents and return what they would write. The JSON export's file is the export data itself, not its text.
- `datetime.now` in the Kanban history name is a parameter (`KanbanStore.Stamp`).
- `uuid.uuid4` is the `KanbanModels.UuidSource` oracle, which only promises ids it has not issued before.
- `QColor.name()`: `KanbanModels.KanbanCard.SetColor` takes the colour's name.
- The QTimer autosave debounce of the Kanban board: only whether `trigger_autosave` started the timer and the `_loading` guard are modelled (`EditState.autosaveArmed`). The timer firing and `_autosave` writing the board are not.
- The project editor's autosave is not modelled: `ProjectEditorWindow` has no autosave state, although the window creates `_autosave_timer` (project_editor_window.py:62-64) and starts it after every scene save (project_editor_window.py:543-544).
- The export worker's thread and its progress signal: `Export.Outcome` lists the progress values and the final message. `_on_export_finished`, `_show_preview` and the dialog's count labels are not modelled.
- Metadata aliasing between board snapshots and live cards (kanban_board.py:369, 392 and 506-515): cards are values here. Undo restores titles and order; no law about restoring edited metadata is claimed.
- `_add_card`, `_edit_card`, `_delete_card` and `focus_column` of the Kanban board: they are dialog-driven and not part of the modelled core.
- `_edit_chapter`, `_edit_scene`, `_on_scene_selected`, the text-format toggles and the context menu of the project editor: not part of the modelled core.
- KanbanBoard.Board.constructor: a Dafny constructor cannot fail, so when the stored board holds an entry the card constructor refuses, `__init__` raises in the source while the model returns the half-loaded board with `_loading` set, which marks the raise. `KanbanBoard.LoadedLoadableStore` states that a loadable store never raises.
- The Kanban board's `_add_card` and `_edit_card` are not modelled, so the board invariant that every card has a colour `QColor` accepts is only ever established by loading and kept by moves.
- Scenes.Scene and Scenes.Chapter (scenes.dfy:24-30) type a title, content and version as strings when present, so a `null` or numeric title in a loaded project cannot be represented. In the source such a title makes the exporters raise (export_dialog.py:65, 93 and 109-110, concatenation with a non-string), and f-strings elsewhere render `None` as "None".
- Board states hold a list of entries per column: a saved column value that is not a list (a string or a dictionary, which `load_state` would iterate by character or by key) is not modelled.
- KanbanBoard.Board.LoadBoard: writes `_loading` once, to the value `load_board` leaves, because nothing reads the guard while `load_state` runs.
- Export.ExportsJSON: a chapter holds only `title` and `scenes` and a scene only `title`, `content`, `versions`, `annotations` and `footnotes`, the keys the editor writes; other keys a loaded project file might carry inside chapters or scenes are not modelled, so the JSON file carries them only at the top level (`metadata` and the rest of `ExportData.others`).
- ProjectEditor.ProjectEditorWindow.SyncTimelineToScenes: takes the timeline's card titles as a parameter, because the window reads them from `self.timeline_widget`, which it never defines; as written the call raises before changing anything.
- The message boxes of `convert_kanban_to_timeline` and of the two sync functions: only the outcome and the tallies are modelled.
- GUI/windows/project_editor.py is not part of this model: it is not valid Python and repeats project_editor_window.py.
- Functions that only the tests name (card-to-timeline helpers, multi-selection, the board splitter) are not defined in the source and are not modelled.
- The character, location and event panels, the authentication dialogs, the home page, the toolbar and the other thin UI over the stores are not part of this model.
- The entry points and the asynchronous database backend are not part of this model.

## Findings

| source | as written | input that shows it | evidently intended | confidence | as-written member | corrected member |
|---|---|---|---|---|---|---|
| GUI/windows/timeline_board.py:70-79 | the card is popped first, then inserted at the slot index counted before the pop | cards a, b, c; drag a into the gap between b and c (slot 2) | the card lands in that gap, giving b, a, c; as written it goes to the end, giving b, c, a | not executed | TimelineBoard.DropAsWrittenOvershoots | TimelineBoard.TimelineBoardWidget.Drop |
| GUI/windows/kanban_board2.py:73-80 | the existing ids are read from each timeline card's `metadata`, which a timeline card does not have (timeline_board.py:14-26), and `add_card` is given the metadata dictionary as its title, which `QLabel` refuses with a `TypeError` | convert a card whose id is not `None` onto a timeline | the card is put on the timeline with its id and a second conversion reports "already"; as written the conversion fails and no card is ever added | not executed | KanbanToTimeline.ConvertAsWrittenFails | KanbanToTimeline.ConvertTwice |
| GUI/windows/project_editor_window.py:481-486 | `setHtml` runs `_on_text_changed` (lines 530-542), which appends the restored content to the same version list before the chosen entry is filtered out | edit a new scene once, then restore its only version | the history loses the restored version; as written the restored version comes back as the newest entry | not executed | ProjectEditor.RestoreNewSceneAsWritten | ProjectEditor.EditRestoreUndo |
| GUI/windows/export_dialog.py:283 | the dialog sends the first word of the chosen entry, "Plain", but `run` tests for "Plain Text" (line 46) | choose "Plain Text (.txt)" and save | a plain-text file is written; as written nothing is written and the message says the format is not yet implemented | not executed | Export.PlainTextNotExported | Export.EveryListedFormatExports |
| GUI/windows/export_dialog.py:306-313 | `dict(project_data)` copies only the outer dictionary, so the loop pops annotations and footnotes from the editor's own scenes (project_editor_window.py:695-697) | export with annotations unticked while a scene has an annotation | only the exported data loses its notes; as written the editor's scene loses them as well | not executed | Export.ExportStripsEditorNotes | Export.StartExport |

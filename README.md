# Plugin host and record table of the parts catalogue browser

This Dafny project models the core of `main.py`, a Tk desktop browser for a
parts table stored in SQLite that loads plugins from a `plugins` directory at
start-up and whenever the user presses "Refresh Plugins". The model covers
the bookkeeping of the `App` class:

- the plugin load pass (`App.load_plugins`). It finds the `*.py` files of the
  plugin directory and derives each file's logical name. Names already in
  `loaded_plugins` are skipped. Otherwise the module is executed, its
  `register_plugin(app)` entry point is called when it has one, and the name
  is recorded once that call returns;
- the tracked widget list (`App.plugin_widgets`). The host's own
  "Refresh Plugins" button is its first entry, and `register_plugin_widget`
  appends to it;
- the table refresh (`App.refresh_table`, `App.update_record_count`). The
  table is cleared, refilled from the query, and the "Records: N" label is
  updated.

Modules:

- `PluginNames` (names.dfy): POSIX `basename` and `join`, the `*.py` glob
  pattern applied to a directory listing, and the logical name
  `basename(path)[:-3]`.
- `PluginLoader` (loader.dfy): the pass as a specification. `Visit` is one
  loop iteration and `Pass` is the left fold of `Visit` over the candidate
  files. The lemmas state what a pass does to the loaded set, the widget list
  and the log of executed modules and called entry points.
- `CountLabel` (count_label.dfy): the label text `"Records: " + str(n)` and
  its parser, proved inverse to each other.
- `MainApp` (app.dfy): the class `App`, whose fields `pluginWidgets`,
  `loadedPlugins`, `tree` and `recordCountLabel` are updated in place. Its
  methods loop the way the source does and are proved against the
  specification functions above.
- `Wrappers` (wrappers.dfy): the `Option` type.

The outside world is an input. The directory listing is a `seq<string>` in
enumeration order. What the module at a path does in a pass is an oracle
`run: string -> Behaviour`:

- `ExecRaises`: executing the module raises;
- `NoEntryPoint`: the module has no `register_plugin`;
- `EntryPoint(registers, returnsNormally)`: `register_plugin` hands over
  these widgets, then returns or raises.

The query result is `Rows(rows)` or `QueryError(message)`.

Three facts about the code that the model keeps:

- The code has no per-plugin failure boundary. An exception from executing a
  module or from its `register_plugin` ends the whole pass and propagates to
  the caller. Names recorded before it stay recorded, and later files are
  never visited (`RaisedPassIgnoresRest`, `RaisingPluginBlocksLaterOnes`).
- The code clears the table before querying. A failed query therefore leaves
  the table empty, not showing the previous rows. The label keeps its old
  text and an error dialog is shown.
- The code does not sort the file list. The pass visits files in listing
  order.

## Model

| member | source | states |
|---|---|---|
| PluginNames.LastSlash | main.py:108 | the index `rfind('/')` gives: -1 or a '/' position, with no '/' after it |
| PluginNames.BasenameIsLastComponent | main.py:108 | `os.path.basename`: a suffix of the path containing no '/', preceded by '/' unless it is the whole path |
| PluginNames.Join | main.py:105 | `os.path.join(dir, entry)`: an absolute entry is the result; otherwise the result begins with the directory and ends with the entry, preceded by '/' when the directory is non-empty |
| PluginNames.Candidates | main.py:105 | glob `*.py`: every candidate is the directory joined with a listed entry matching the pattern (ends with ".py", not hidden), and every matching entry gives a candidate |
| PluginNames.LogicalNameStripsPy | main.py:108 | the logical name is the basename without its final ".py"; it is "" when the basename is shorter than three characters; it contains no '/' |
| PluginNames.BasenameOfJoin | main.py:105-108 | the basename of a joined candidate path is the directory entry |
| PluginNames.CandidateName | main.py:105-108 | every candidate is a `*.py` file whose logical name is its directory entry minus ".py" |
| PluginLoader.VisitSteps | main.py:107-118 | one iteration either changes nothing, or (pass running, name not loaded) logs the module's execution and possibly the entry-point call, only growing the loaded set and widget list |
| PluginLoader.PassGrows | main.py:107-118 | a pass never shrinks `loaded_plugins`, only appends to the widget list and the log, and does nothing once an exception has occurred |
| PluginLoader.RaisedPassIgnoresRest | main.py:107-118 | when the pass has raised after the first k files, the remaining files are never visited: the pass over all files ends in the state reached after those k |
| PluginLoader.PassSkipsLoaded | main.py:110-117 | no module whose logical name was loaded before the pass is executed or has its entry point called |
| PluginLoader.VisitRecordsOnlyRegistered | main.py:116-118 | one iteration adds at most the visited file's name, and only after its `register_plugin` was called and returned |
| PluginLoader.PassRecordsOnlyRegistered | main.py:114-118 | every newly recorded name belongs to a file whose module has `register_plugin`, which was called and returned |
| PluginLoader.CompletedPassRecordsRegistered | main.py:116-118 | when the pass completes, every file whose entry point returned has its name recorded |
| PluginLoader.InertModuleRunsEveryPass | main.py:111-118 | a module without `register_plugin` is executed on every completed pass and its name is never recorded |
| PluginLoader.PassOverLoadedIsNoop | main.py:107-118 | a pass in which every candidate's name is already loaded executes nothing and changes nothing |
| PluginLoader.ReturningModulesComplete | main.py:107-118 | a pass in which every module has a `register_plugin` that returns never raises |
| PluginLoader.RepeatedPassIsNoop | main.py:102-118 | when every module registers and returns, the pass completes, and re-running it over the same files changes nothing, whatever the modules would now do |
| PluginLoader.RaisingPluginBlocksLaterOnes | main.py:107-118 | a module that raises stops the pass: the pass raises, no name is recorded, and a later well-behaved file is neither executed nor registered |
| PluginLoader.SingleWidgetPlugin | main.py:116-123 | a new plugin that registers one widget adds exactly that widget and its name |
| CountLabel.Decimal | main.py:138 | `str(n)` for n >= 0 is a numeral (digits only, no leading zero), of length one exactly when n < 10 |
| CountLabel.DigitsValueOfDecimal | main.py:138 | reading the formatted count back gives the count |
| CountLabel.DecimalOfDigitsValue | main.py:138 | every numeral is the formatting of its own value |
| CountLabel.Label | main.py:137-138 | the label text starts with "Records: " followed by a numeral |
| CountLabel.ParseLabel | main.py:137-138 | a text that parses to n is exactly the label for n |
| CountLabel.ParseLabelOfLabel | main.py:137-138 | the label for n parses back to n |
| CountLabel.LabelInjective | main.py:137-138 | different counts give different labels |
| MainApp.App.constructor | main.py:68-100 | after `__init__` up to the first pass, `loaded_plugins` is empty, the widget list is exactly the "Refresh Plugins" button, the table is empty and the label reads "Records: 0" |
| MainApp.App.RegisterPluginWidget | main.py:120-123 | the given widget is appended at the end and earlier entries are unchanged |
| MainApp.App.RegisterWidgets | main.py:117 | the widgets an entry point hands over are appended in order |
| MainApp.App.LoadPlugins | main.py:102-118 | the loaded set, widget list, log and exception flag after a pass are those `LoadPass` gives for the `*.py` candidates of the listing |
| MainApp.App.LoadFiles | main.py:107-118 | the loop over the candidate files ends in the state `LoadPass` gives, stopping at the first exception |
| MainApp.App.LoadFile | main.py:108-118 | one iteration skips a loaded name, otherwise executes the module, calls the entry point, and records the name only when the call returns |
| MainApp.App.UpdateRecordCount | main.py:137-138 | the label is "Records: " + the count, and it reads back as the count |
| MainApp.App.RefreshTable | main.py:125-135 | on success the table holds the query's rows in order and the label reads back as their number; on failure the table is empty, the label is unchanged and the dialog shows "Error loading table: " + the message |
| MainApp.App.Start | main.py:76-78 | construction runs one pass, then refreshes the table only when the pass did not raise; after a completed pass the table and label are as `RefreshTable` leaves them, with no error dialog on success |
| MainApp.StartWithNothing | main.py:68-78 | with no plugin files and an empty table, the label reads 0 and the only tracked widget is the host's button |

## Left out

- Tk itself is not modelled. That covers window title, frames, `pack`, Treeview headings and item ids, and the `messagebox` call. Widgets are opaque values, the table is a sequence of rows, and the error dialog is the message text `RefreshTable` returns.
- The `Database` class (main.py:28-64) is not part of this model: the sqlite3 connection, the `diely` schema and the SQL text. It is a thin wrapper over a library; the result of `fetchall` is an input.
- Reading and creating `config.ini` (main.py:10-25) is not modelled: file I/O at import time.
- `os.getcwd` and the directory enumeration behind `glob` are inputs: the plugin directory path and its listing, in the order given. Only glob's `*.py` filter on that listing is modelled.
- `os.makedirs` (main.py:104) is not modelled, and neither are failures of it or of `os.getcwd`. For example, when `plugins` exists as a regular file, `makedirs` raises before any file is visited; `LoadPlugins` cannot produce that outcome.
- PluginNames.Candidates: treats the plugin directory path literally. glob reads `*`, `?` and `[` in that path (main.py:105) as pattern characters; the model does not.
- `importlib` loading is replaced by the `run` oracle. The model does not cover module objects, their namespaces or `sys.modules`.
- What plugin code does besides registering widgets is not modelled. A plugin may call `refresh_table`, use the database or start another pass; the model covers only widget registration.
- An exception from `widget.pack` inside `register_plugin_widget`, or from `tree.insert` during a refresh, is not modelled.
- `root.mainloop()` and the `__main__` block (main.py:141-144) are event-loop plumbing.
- PluginNames.BasenameIsLastComponent: models POSIX `posixpath` only; Windows path separators are not modelled.
- MainApp.App.UpdateRecordCount: takes a count of type `nat`, because its only caller passes `len(rows)`. Python's formatting of negative integers is not modelled.
- PluginNames.Candidates: matches the pattern case-sensitively, as glob does on POSIX. Like glob, it keeps a directory whose name ends in ".py"; executing it is the oracle's `ExecRaises`.

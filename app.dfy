/** The application object `App` of the record browser: its plugin
    bookkeeping and its record table.

    The Tk widgets are reduced to what the object tracks about them: the list
    of plugin widgets, the rows shown in the table, and the text of the
    record-count label. The database query, the directory listing and the
    plugin modules are inputs. */
module MainApp {
  import opened PluginNames
  import opened PluginLoader
  import opened CountLabel
  import opened Wrappers

  /** One field of a stored record, as sqlite3 hands it back. */
  datatype Value = Text(text: string) | Integer(number: int) | Null

  /** One record: the field values in column order. */
  type Row = seq<Value>

  /** What `fetchall("SELECT * FROM diely")` gives: the rows in the order the
      database returns them, or the exception's message. */
  datatype QueryResult = Rows(rows: seq<Row>) | QueryError(message: string)

  /** The start of the message text of the error dialog. */
  const ErrorPrefix: string := "Error loading table: "

  class App {
    /** Every widget placed in the plugin frame, in registration order. */
    var pluginWidgets: seq<Widget>
    /** Logical names of the plugins whose entry point has returned. */
    var loadedPlugins: set<string>
    /** The rows shown in the table, top to bottom. */
    var tree: seq<Row>
    /** The text of the record-count label. */
    var recordCountLabel: string

    /** The host's own "Refresh Plugins" button stays first in the widget
        list, and the label always shows a record count. */
    ghost predicate Valid()
      reads this
    {
      |pluginWidgets| >= 1 && pluginWidgets[0] == RefreshPluginsButton &&
      ParseLabel(recordCountLabel).Some?
    }

    /** Construction up to the first plugin pass: empty bookkeeping, then
        `setup_ui` builds the label with "Records: 0", an empty table and the
        "Refresh Plugins" button as the first tracked widget. */
    constructor ()
      ensures Valid()
      ensures pluginWidgets == [RefreshPluginsButton] && loadedPlugins == {}
      ensures tree == [] && recordCountLabel == Label(0)
    {
      pluginWidgets := [];
      loadedPlugins := {};
      recordCountLabel := Label(0);
      tree := [];
      pluginWidgets := pluginWidgets + [RefreshPluginsButton];
      ParseLabelOfLabel(0);
    }

    /** The hook plugins call to hand over a widget: it is appended to the
        tracked list and nothing before it changes. */
    method RegisterPluginWidget(widget: Widget)
      requires Valid()
      modifies this`pluginWidgets
      ensures Valid()
      ensures pluginWidgets == old(pluginWidgets) + [widget]
    {
      pluginWidgets := pluginWidgets + [widget];
    }

    /** One plugin pass over the "*.py" entries of the plugin directory's
        listing. The loaded set and the widget list end as the specification
        `LoadPass` says; `events` tells which modules were executed and whose
        entry points were called, and `raised` whether an exception ended the
        pass (and propagates to the caller). */
    method LoadPlugins(pluginDir: string, listing: seq<string>, run: string -> Behaviour)
      returns (events: seq<Event>, raised: bool)
      requires Valid()
      modifies this`pluginWidgets, this`loadedPlugins
      ensures Valid()
      ensures var r := LoadPass(old(loadedPlugins), old(pluginWidgets), Candidates(pluginDir, listing), run);
        loadedPlugins == r.loaded && pluginWidgets == r.widgets && events == r.events && raised == r.raised
    {
      var files := Candidates(pluginDir, listing);
      events, raised := LoadFiles(files, run);
    }

    /** The `for plugin_file in plugin_files` loop of one plugin pass. */
    method LoadFiles(files: seq<string>, run: string -> Behaviour)
      returns (events: seq<Event>, raised: bool)
      requires Valid()
      modifies this`pluginWidgets, this`loadedPlugins
      ensures Valid()
      ensures var r := LoadPass(old(loadedPlugins), old(pluginWidgets), files, run);
        loadedPlugins == r.loaded && pluginWidgets == r.widgets && events == r.events && raised == r.raised
    {
      ghost var s0 := PassState(loadedPlugins, pluginWidgets, [], false);
      events, raised := [], false;
      var i := 0;
      while i < |files|
        invariant 0 <= i <= |files|
        invariant Valid()
        invariant Pass(s0, files[..i], run) == PassState(loadedPlugins, pluginWidgets, events, false)
      {
        assert files[..i + 1][..i] == files[..i];
        events, raised := LoadFile(files[i], run, events);
        if raised {
          RaisedPassIgnoresRest(s0, files, i + 1, run);
          return;
        }
        i := i + 1;
      }
      assert files[..i] == files;
    }

    /** One iteration of that loop: skip a name already loaded; otherwise
        execute the module, call its entry point if it has one (the widgets
        it registers go through `RegisterPluginWidget`) and record the name
        once the call returns. `events` is the log so far. */
    method LoadFile(file: string, run: string -> Behaviour, events: seq<Event>)
      returns (logged: seq<Event>, raised: bool)
      requires Valid()
      modifies this`pluginWidgets, this`loadedPlugins
      ensures Valid()
      ensures var r := Visit(PassState(old(loadedPlugins), old(pluginWidgets), events, false), file, run);
        loadedPlugins == r.loaded && pluginWidgets == r.widgets && logged == r.events && raised == r.raised
    {
      logged, raised := events, false;
      var name := LogicalName(file);
      if name in loadedPlugins {
        return;
      }
      logged := logged + [Executed(file)];
      match run(file) {
        case ExecRaises =>
          raised := true;
        case NoEntryPoint =>
        case EntryPoint(registers, returnsNormally) =>
          logged := logged + [EntryCalled(file)];
          RegisterWidgets(registers);
          if returnsNormally {
            loadedPlugins := loadedPlugins + {name};
          } else {
            raised := true;
          }
      }
    }

    /** The calls a plugin's entry point makes to `RegisterPluginWidget`,
        one per widget, in order. */
    method RegisterWidgets(registers: seq<Widget>)
      requires Valid()
      modifies this`pluginWidgets
      ensures Valid()
      ensures pluginWidgets == old(pluginWidgets) + registers
    {
      var j := 0;
      while j < |registers|
        invariant 0 <= j <= |registers|
        invariant Valid()
        invariant pluginWidgets == old(pluginWidgets) + registers[..j]
      {
        RegisterPluginWidget(registers[j]);
        assert registers[..j + 1] == registers[..j] + [registers[j]];
        j := j + 1;
      }
      assert registers[..j] == registers;
    }

    /** `update_record_count`: the label shows the count, and reads back as it. */
    method UpdateRecordCount(count: nat)
      modifies this`recordCountLabel
      ensures recordCountLabel == Label(count)
      ensures ParseLabel(recordCountLabel) == Some(count)
    {
      recordCountLabel := Label(count);
      ParseLabelOfLabel(count);
    }

    /** `refresh_table`: the table is emptied, then filled with the query's
        rows in order and the label set to their number. When the query
        fails the table stays empty, the label keeps its old text and the
        error dialog shows the message. */
    method RefreshTable(result: QueryResult) returns (errorDialog: Option<string>)
      requires Valid()
      modifies this`tree, this`recordCountLabel
      ensures Valid()
      ensures result.Rows? ==>
        tree == result.rows && recordCountLabel == Label(|result.rows|) &&
        ParseLabel(recordCountLabel) == Some(|tree|) && errorDialog == None
      ensures result.QueryError? ==>
        tree == [] && recordCountLabel == old(recordCountLabel) &&
        errorDialog == Some(ErrorPrefix + result.message)
    {
      var children := tree;
      var k := 0;
      while k < |children|
        invariant 0 <= k <= |children|
        invariant tree == children[k..]
        invariant recordCountLabel == old(recordCountLabel)
      {
        tree := tree[1..];
        k := k + 1;
      }
      match result {
        case QueryError(message) =>
          errorDialog := Some(ErrorPrefix + message);
        case Rows(rows) =>
          var i := 0;
          while i < |rows|
            invariant 0 <= i <= |rows|
            invariant tree == rows[..i]
            invariant recordCountLabel == old(recordCountLabel)
          {
            tree := tree + [rows[i]];
            i := i + 1;
          }
          UpdateRecordCount(|rows|);
          errorDialog := None;
      }
    }

    /** The rest of construction: the first plugin pass, then the first
        refresh. An exception from the pass propagates out of construction,
        so the table is then never refreshed. */
    method Start(pluginDir: string, listing: seq<string>, run: string -> Behaviour, result: QueryResult)
      returns (events: seq<Event>, raised: bool, errorDialog: Option<string>)
      requires Valid()
      modifies this
      ensures Valid()
      ensures var r := LoadPass(old(loadedPlugins), old(pluginWidgets), Candidates(pluginDir, listing), run);
        loadedPlugins == r.loaded && pluginWidgets == r.widgets && events == r.events && raised == r.raised
      ensures raised ==> tree == old(tree) && recordCountLabel == old(recordCountLabel) && errorDialog == None
      ensures !raised && result.Rows? ==>
        tree == result.rows && recordCountLabel == Label(|result.rows|) && errorDialog == None
      ensures !raised && result.QueryError? ==>
        tree == [] && recordCountLabel == old(recordCountLabel) && errorDialog == Some(ErrorPrefix + result.message)
    {
      events, raised := LoadPlugins(pluginDir, listing, run);
      errorDialog := None;
      if !raised {
        errorDialog := RefreshTable(result);
      }
    }
  }

  /** Start-up with an empty plugin directory and an empty table: the label
      reads "Records: 0" and the only tracked widget is the host's own
      "Refresh Plugins" button. */
  method StartWithNothing(pluginDir: string, run: string -> Behaviour) returns (app: App)
    ensures app.Valid()
    ensures app.pluginWidgets == [RefreshPluginsButton] && app.loadedPlugins == {}
    ensures app.tree == [] && ParseLabel(app.recordCountLabel) == Some(0)
  {
    app := new App();
    var events, raised, errorDialog := app.Start(pluginDir, [], run, Rows([]));
    assert Candidates(pluginDir, []) == [];
    ParseLabelOfLabel(0);
  }
}

/** The plugin load pass of `App.load_plugins`, as a specification.

    The pass walks the candidate files in order. A file whose logical name is
    already in the loaded set is skipped. Otherwise its module is executed; if
    the module defines `register_plugin`, that entry point is called with the
    application (and may register widgets through it), and the name is added
    to the loaded set once the call returns. There is no per-plugin failure
    boundary: an exception from executing a module or from its entry point
    ends the whole pass, keeping what was recorded up to then.

    What a module does is not visible here, so it is an input: `run(file)`
    says how the module at `file` behaves in this pass. */
module PluginLoader {
  import opened PluginNames

  /** A widget tracked by the application: its own "Refresh Plugins" button,
      or one a plugin handed over (opaque; only its identity matters). */
  datatype Widget = RefreshPluginsButton | PluginWidget(id: nat)

  /** How the module in one plugin file behaves when it is loaded. */
  datatype Behaviour =
    | ExecRaises
      // executing the module's top-level code raises
    | NoEntryPoint
      // the module executes and has no `register_plugin`
    | EntryPoint(registers: seq<Widget>, returnsNormally: bool)
      // `register_plugin(app)` registers these widgets, in order, and then
      // returns normally (`returnsNormally`) or raises

  /** What the pass did, in order: the module of a file was executed, or the
      entry point of a file's module was called. */
  datatype Event = Executed(file: string) | EntryCalled(file: string)

  /** The state a pass works on: the loaded set and the tracked widgets of the
      application, the events so far, and whether an exception has ended the
      pass. */
  datatype PassState = PassState(loaded: set<string>, widgets: seq<Widget>, events: seq<Event>, raised: bool)

  /** One iteration of the `for plugin_file in plugin_files` loop. */
  function Visit(s: PassState, file: string, run: string -> Behaviour): PassState {
    if s.raised then s
    else
      var name := LogicalName(file);
      if name in s.loaded then s
      else
        var ran := s.events + [Executed(file)];
        match run(file)
        case ExecRaises => s.(events := ran, raised := true)
        case NoEntryPoint => s.(events := ran)
        case EntryPoint(registers, returnsNormally) =>
          var called := s.(widgets := s.widgets + registers, events := ran + [EntryCalled(file)]);
          if returnsNormally then called.(loaded := s.loaded + {name}) else called.(raised := true)
  }

  /** The state after visiting `files` in order, starting from `s`. */
  function Pass(s: PassState, files: seq<string>, run: string -> Behaviour): PassState
    decreases |files|
  {
    if files == [] then s
    else Visit(Pass(s, files[..|files| - 1], run), files[|files| - 1], run)
  }

  /** The pass starting from the application's loaded set and widgets. */
  function LoadPass(loaded: set<string>, widgets: seq<Widget>, files: seq<string>, run: string -> Behaviour): PassState {
    Pass(PassState(loaded, widgets, [], false), files, run)
  }

  /** The file an event is about. */
  function EventFile(e: Event): string {
    match e
    case Executed(f) => f
    case EntryCalled(f) => f
  }

  /** One visit either changes nothing, or (the pass still running and the
      name not loaded) logs the execution of the file's module and possibly
      the call of its entry point. */
  lemma VisitSteps(p: PassState, file: string, run: string -> Behaviour)
    ensures var r := Visit(p, file, run);
      r == p ||
      (!p.raised && LogicalName(file) !in p.loaded && p.loaded <= r.loaded && p.widgets <= r.widgets &&
       (r.events == p.events + [Executed(file)] || r.events == p.events + [Executed(file), EntryCalled(file)]))
  {
    if !p.raised && LogicalName(file) !in p.loaded {
      var ran := p.events + [Executed(file)];
      match run(file)
      case ExecRaises =>
      case NoEntryPoint =>
      case EntryPoint(registers, returnsNormally) =>
        assert ran + [EntryCalled(file)] == p.events + [Executed(file), EntryCalled(file)];
    }
  }

  /** A pass only adds: the loaded set never shrinks, the widget list and the
      event log are only appended to, and nothing happens after an exception. */
  lemma {:induction false} PassGrows(s: PassState, files: seq<string>, run: string -> Behaviour)
    ensures var r := Pass(s, files, run);
      s.loaded <= r.loaded && s.widgets <= r.widgets && s.events <= r.events && (s.raised ==> r == s)
    decreases |files|
  {
    if files != [] {
      PassGrows(s, files[..|files| - 1], run);
      VisitSteps(Pass(s, files[..|files| - 1], run), files[|files| - 1], run);
    }
  }

  /** Once an exception has ended the pass, the remaining files are never
      visited: the pass over all of `files` ends in the state reached at the
      exception, after the prefix `files[..k]`. */
  lemma {:induction false} RaisedPassIgnoresRest(s: PassState, files: seq<string>, k: nat, run: string -> Behaviour)
    requires k <= |files| && Pass(s, files[..k], run).raised
    ensures Pass(s, files, run) == Pass(s, files[..k], run)
    decreases |files|
  {
    if k < |files| {
      var init := files[..|files| - 1];
      assert init[..k] == files[..k];
      RaisedPassIgnoresRest(s, init, k, run);
    } else {
      assert files[..k] == files;
    }
  }

  /** A file whose logical name was already loaded when the pass started is
      neither executed nor has its entry point called. */
  lemma {:induction false} PassSkipsLoaded(s: PassState, files: seq<string>, run: string -> Behaviour)
    ensures var r := Pass(s, files, run);
      |s.events| <= |r.events| &&
      forall i :: |s.events| <= i < |r.events| ==> LogicalName(EventFile(r.events[i])) !in s.loaded
    decreases |files|
  {
    if files != [] {
      var init := files[..|files| - 1];
      var last := files[|files| - 1];
      PassSkipsLoaded(s, init, run);
      PassGrows(s, init, run);
      var p := Pass(s, init, run);
      var r := Pass(s, files, run);
      VisitSteps(p, last, run);
      forall i | |s.events| <= i < |r.events|
        ensures LogicalName(EventFile(r.events[i])) !in s.loaded
      {
        if i < |p.events| {
          assert r.events[i] == p.events[i];
        } else {
          assert EventFile(r.events[i]) == last;
        }
      }
    }
  }

  /** One visit adds at most the visited file's name, and only after that
      file's entry point was called and returned. */
  lemma VisitRecordsOnlyRegistered(p: PassState, file: string, run: string -> Behaviour)
    ensures var r := Visit(p, file, run);
      p.events <= r.events &&
      forall n :: n in r.loaded && n !in p.loaded ==>
        n == LogicalName(file) && run(file).EntryPoint? && run(file).returnsNormally && EntryCalled(file) in r.events
  {
    VisitSteps(p, file, run);
  }

  /** A name is added only for a file of the pass whose module has an entry
      point, after that entry point was called and returned. */
  lemma {:induction false} PassRecordsOnlyRegistered(s: PassState, files: seq<string>, run: string -> Behaviour)
    ensures var r := Pass(s, files, run);
      forall n :: n in r.loaded && n !in s.loaded ==>
        exists f :: f in files && LogicalName(f) == n && run(f).EntryPoint? && run(f).returnsNormally && EntryCalled(f) in r.events
    decreases |files|
  {
    if files != [] {
      var init := files[..|files| - 1];
      var last := files[|files| - 1];
      PassRecordsOnlyRegistered(s, init, run);
      var p := Pass(s, init, run);
      var r := Pass(s, files, run);
      assert r == Visit(p, last, run);
      VisitRecordsOnlyRegistered(p, last, run);
      forall n | n in r.loaded && n !in s.loaded
        ensures exists f :: f in files && LogicalName(f) == n && run(f).EntryPoint? && run(f).returnsNormally && EntryCalled(f) in r.events
      {
        if n in p.loaded {
          var f :| f in init && LogicalName(f) == n && run(f).EntryPoint? && run(f).returnsNormally && EntryCalled(f) in p.events;
          assert f in files && EntryCalled(f) in r.events;
        } else {
          assert last in files && LogicalName(last) == n;
        }
      }
    }
  }

  /** When a pass runs to the end, every file whose module registered and
      returned has its name in the loaded set. */
  lemma {:induction false} CompletedPassRecordsRegistered(s: PassState, files: seq<string>, run: string -> Behaviour)
    requires !Pass(s, files, run).raised
    ensures forall f :: f in files && run(f).EntryPoint? && run(f).returnsNormally ==> LogicalName(f) in Pass(s, files, run).loaded
    decreases |files|
  {
    if files != [] {
      var init := files[..|files| - 1];
      var p := Pass(s, init, run);
      assert !p.raised;
      CompletedPassRecordsRegistered(s, init, run);
      PassGrows(p, [files[|files| - 1]], run);
      assert Pass(p, [files[|files| - 1]], run) == Pass(s, files, run) by {
        assert [files[|files| - 1]][..0] == [];
      }
    }
  }

  /** A module without an entry point is executed on every pass that reaches
      it, and its name is never recorded (unless some other file of the pass
      with the same logical name registers). */
  lemma {:induction false} InertModuleRunsEveryPass(s: PassState, files: seq<string>, run: string -> Behaviour, f: string)
    requires !Pass(s, files, run).raised
    requires f in files && run(f) == NoEntryPoint && LogicalName(f) !in s.loaded
    requires forall g :: g in files && LogicalName(g) == LogicalName(f) ==> !run(g).EntryPoint?
    ensures Executed(f) in Pass(s, files, run).events
    ensures LogicalName(f) !in Pass(s, files, run).loaded
    decreases |files|
  {
    var init := files[..|files| - 1];
    var last := files[|files| - 1];
    var p := Pass(s, init, run);
    var r := Pass(s, files, run);
    var name := LogicalName(f);
    assert r == Visit(p, last, run);
    VisitSteps(p, last, run);
    assert !p.raised;
    PassRecordsOnlyRegistered(s, files, run);
    PassRecordsOnlyRegistered(s, init, run);
    assert name !in p.loaded;
    if f in init {
      InertModuleRunsEveryPass(s, init, run, f);
      assert p.events <= r.events;
    } else {
      assert f == last;
      assert r.events == p.events + [Executed(f)];
    }
  }

  /** A pass in which every candidate's name is already loaded executes no
      module, calls no entry point and changes nothing. */
  lemma {:induction false} PassOverLoadedIsNoop(s: PassState, files: seq<string>, run: string -> Behaviour)
    requires forall f :: f in files ==> LogicalName(f) in s.loaded
    ensures Pass(s, files, run) == s
    decreases |files|
  {
    if files != [] {
      PassOverLoadedIsNoop(s, files[..|files| - 1], run);
    }
  }

  /** A pass in which every module has an entry point that returns never
      raises. */
  lemma {:induction false} ReturningModulesComplete(s: PassState, files: seq<string>, run: string -> Behaviour)
    requires !s.raised
    requires forall f :: f in files ==> run(f).EntryPoint? && run(f).returnsNormally
    ensures !Pass(s, files, run).raised
    decreases |files|
  {
    if files != [] {
      ReturningModulesComplete(s, files[..|files| - 1], run);
    }
  }

  /** Re-running the pass over the same files, after a pass in which every
      module registered and returned, changes nothing, whatever the modules
      would now do. */
  lemma RepeatedPassIsNoop(loaded: set<string>, widgets: seq<Widget>, files: seq<string>, run: string -> Behaviour, rerun: string -> Behaviour)
    requires forall f :: f in files ==> run(f).EntryPoint? && run(f).returnsNormally
    ensures !LoadPass(loaded, widgets, files, run).raised
    ensures var first := LoadPass(loaded, widgets, files, run);
      LoadPass(first.loaded, first.widgets, files, rerun) == first.(events := [])
  {
    var first := LoadPass(loaded, widgets, files, run);
    ReturningModulesComplete(PassState(loaded, widgets, [], false), files, run);
    CompletedPassRecordsRegistered(PassState(loaded, widgets, [], false), files, run);
    PassOverLoadedIsNoop(first.(events := []), files, rerun);
  }

  /** Without a per-plugin failure boundary, a module that raises keeps every
      later file of the pass from loading, however well it behaves. */
  lemma RaisingPluginBlocksLaterOnes(loaded: set<string>, widgets: seq<Widget>, bad: string, good: string, run: string -> Behaviour)
    requires LogicalName(bad) !in loaded && good != bad
    requires run(bad) == ExecRaises || (run(bad).EntryPoint? && !run(bad).returnsNormally)
    ensures var r := LoadPass(loaded, widgets, [bad, good], run);
      r.raised && r.loaded == loaded && EntryCalled(good) !in r.events && Executed(good) !in r.events
  {
    var s := PassState(loaded, widgets, [], false);
    assert [bad][..0] == [];
    assert Pass(s, [], run) == s;
    var p := Pass(s, [bad], run);
    assert p == Visit(s, bad, run);
    VisitSteps(s, bad, run);
    assert p.raised && p.loaded == loaded;
    assert [bad, good][..1] == [bad];
    RaisedPassIgnoresRest(s, [bad, good], 1, run);
    assert Pass(s, [bad, good], run) == p;
  }

  /** A plugin whose entry point registers one widget: after the pass the
      widget list has grown by exactly that widget and its name is loaded. */
  lemma SingleWidgetPlugin(loaded: set<string>, widgets: seq<Widget>, file: string, w: Widget, run: string -> Behaviour)
    requires LogicalName(file) !in loaded
    requires run(file) == EntryPoint([w], true)
    ensures var r := LoadPass(loaded, widgets, [file], run);
      r.widgets == widgets + [w] && r.loaded == loaded + {LogicalName(file)} && !r.raised
  {
    var s := PassState(loaded, widgets, [], false);
    assert [file][..0] == [];
    assert Pass(s, [], run) == s;
    assert Pass(s, [file], run) == Visit(s, file, run);
  }
}

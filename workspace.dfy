/**
 * The active workspace's plugin list and its bounded undo history, as the
 * `App.tsx` handlers keep them: recording an edit, undo and redo, adding,
 * removing and renaming plugins, loading a zip, switching modes, and the
 * default name offered for a download.
 */
module AppWorkspace {
  import opened Wrappers
  import opened Text
  import opened Types

  /** `AppMode`. */
  datatype AppMode = WordPress | Integration | PluginBuilder | FileEditor | PluginPackager

  /** At most this many plugin lists are kept: three earlier states and the current one. */
  const HistoryLimit := 4
  /** A plugin is added only while fewer than this many exist. */
  const PluginLimit := 10
  /** A plugin is removed only while more than this many exist. */
  const MinPlugins := 2

  /** `createNewPlugin(name)`, with the random id passed in. */
  function NewPlugin(id: string, name: string): Plugin
  {
    Plugin(id, name, None, [])
  }

  const FileEditorPluginId := "file-editor-plugin"
  const FileEditorStub := "<?php\n\n// Paste your code here."

  /** `createNewFileEditorPlugin()`. */
  const FileEditorPlugin := Plugin(FileEditorPluginId, "Single File Editor", None,
                                   [PluginFile("file-editor-file", "untitled.php", FileEditorStub, false)])

  /** The part of a `Workspace` the handlers change: its mode, plugins and history. */
  datatype Snapshot = Snapshot(mode: AppMode, plugins: seq<Plugin>, history: seq<seq<Plugin>>, historyIndex: int)

  /** The history holds one to four plugin lists and the index points into it. */
  predicate HistoryInBounds(s: Snapshot)
  {
    1 <= |s.history| <= HistoryLimit && 0 <= s.historyIndex < |s.history|
  }

  /** The plugins shown are the history entry at the index (every change but a rename keeps this). */
  predicate Synced(s: Snapshot)
  {
    0 <= s.historyIndex < |s.history| && s.plugins == s.history[s.historyIndex]
  }

  /** `createNewWorkspace`: two fresh plugins, one history entry holding them, index 0. */
  function Created(firstId: string, secondId: string): (s: Snapshot)
    ensures HistoryInBounds(s) && Synced(s)
    ensures s.mode == WordPress && |s.plugins| == 2 && |s.history| == 1
    ensures s.plugins[0].name == "Plugin 1" && s.plugins[1].name == "Plugin 2"
  {
    var initial := [NewPlugin(firstId, "Plugin 1"), NewPlugin(secondId, "Plugin 2")];
    Snapshot(WordPress, initial, [initial], 0)
  }

  /**
   * The history after recording `newPlugins` at `index`: the entries after
   * `index` (the redo branch) are dropped and the oldest are dropped until at
   * most four remain, the new list last.
   */
  function Record(history: seq<seq<Plugin>>, index: int, newPlugins: seq<Plugin>): (r: seq<seq<Plugin>>)
    requires 0 <= index < |history|
    ensures |r| == if index + 2 <= HistoryLimit then index + 2 else HistoryLimit
    ensures r[|r| - 1] == newPlugins
    ensures r[..|r| - 1] == history[index + 2 - |r|..index + 1]
  {
    var kept := history[..index + 1] + [newPlugins];
    if |kept| > HistoryLimit then kept[|kept| - HistoryLimit..] else kept
  }

  /** `updatePluginsWithHistory`: show `newPlugins` and record them as the last history entry. */
  function Recorded(s: Snapshot, newPlugins: seq<Plugin>): (r: Snapshot)
    requires HistoryInBounds(s)
    ensures HistoryInBounds(r) && Synced(r)
    ensures r.plugins == newPlugins && r.mode == s.mode
    ensures r.historyIndex == |r.history| - 1
  {
    var history := Record(s.history, s.historyIndex, newPlugins);
    Snapshot(s.mode, newPlugins, history, |history| - 1)
  }

  /** `handleUndo`. */
  function Undone(s: Snapshot): (r: Snapshot)
    requires HistoryInBounds(s)
    ensures HistoryInBounds(r) && r.history == s.history && r.mode == s.mode
    ensures s.historyIndex == 0 <==> r == s
    ensures s.historyIndex > 0 ==> r.historyIndex == s.historyIndex - 1 && r.plugins == s.history[r.historyIndex]
  {
    if s.historyIndex <= 0 then s
    else s.(plugins := s.history[s.historyIndex - 1], historyIndex := s.historyIndex - 1)
  }

  /** `handleRedo`. */
  function Redone(s: Snapshot): (r: Snapshot)
    requires HistoryInBounds(s)
    ensures HistoryInBounds(r) && r.history == s.history && r.mode == s.mode
    ensures s.historyIndex == |s.history| - 1 <==> r == s
    ensures s.historyIndex < |s.history| - 1 ==> r.historyIndex == s.historyIndex + 1 && r.plugins == s.history[r.historyIndex]
  {
    if s.historyIndex >= |s.history| - 1 then s
    else s.(plugins := s.history[s.historyIndex + 1], historyIndex := s.historyIndex + 1)
  }

  /** The `{ plugins, history: [plugins], historyIndex: 0 }` update that starts a fresh history. */
  function Reset(s: Snapshot, plugins: seq<Plugin>): (r: Snapshot)
    ensures HistoryInBounds(r) && Synced(r) && |r.history| == 1
    ensures r.plugins == plugins && r.mode == s.mode
  {
    Snapshot(s.mode, plugins, [plugins], 0)
  }

  /** `plugins.map(p => p.id === pluginId ? { ...p, name: newName } : p)`. */
  function RenameIn(plugins: seq<Plugin>, pluginId: string, newName: string): (r: seq<Plugin>)
    ensures |r| == |plugins|
    ensures forall i :: 0 <= i < |r| ==>
      r[i].id == plugins[i].id && r[i].zipName == plugins[i].zipName && r[i].files == plugins[i].files
    ensures forall i :: 0 <= i < |r| ==> r[i].name == if plugins[i].id == pluginId then newName else plugins[i].name
  {
    if plugins == [] then []
    else
      var p := plugins[0];
      [if p.id == pluginId then p.(name := newName) else p] + RenameIn(plugins[1..], pluginId, newName)
  }

  /** `handlePluginNameChange`: the history and its index are left as they are. */
  function Renamed(s: Snapshot, pluginId: string, newName: string): (r: Snapshot)
    ensures r.history == s.history && r.historyIndex == s.historyIndex && r.mode == s.mode
    ensures r.plugins == RenameIn(s.plugins, pluginId, newName)
  {
    s.(plugins := RenameIn(s.plugins, pluginId, newName))
  }

  /** `handleAddPlugin`: below ten plugins, append `Plugin <n+1>` and start a fresh history; otherwise nothing. */
  function Added(s: Snapshot, newId: string): (r: Snapshot)
    ensures |s.plugins| >= PluginLimit ==> r == s
    ensures |s.plugins| < PluginLimit ==>
      |r.plugins| == |s.plugins| + 1 && r.plugins[..|s.plugins|] == s.plugins
      && r.plugins[|s.plugins|] == NewPlugin(newId, "Plugin " + NatToString(|s.plugins| + 1))
      && HistoryInBounds(r) && Synced(r) && |r.history| == 1 && r.mode == s.mode
  {
    if |s.plugins| < PluginLimit then
      Reset(s, s.plugins + [NewPlugin(newId, "Plugin " + NatToString(|s.plugins| + 1))])
    else s
  }

  /** `plugins.filter(p => p.id !== id)`. */
  function Without(plugins: seq<Plugin>, id: string): (r: seq<Plugin>)
    ensures |r| <= |plugins|
  {
    if plugins == [] then []
    else (if plugins[0].id == id then [] else [plugins[0]]) + Without(plugins[1..], id)
  }

  /** The filter keeps exactly the plugins with another id. */
  lemma {:induction false} WithoutMembers(plugins: seq<Plugin>, id: string)
    ensures forall p :: p in Without(plugins, id) <==> p in plugins && p.id != id
  {
    if plugins != [] {
      WithoutMembers(plugins[1..], id);
      assert plugins == [plugins[0]] + plugins[1..];
    }
  }

  /** `handleRemovePlugin`: above two plugins, drop those with the id and start a fresh history; otherwise nothing. */
  function Removed(s: Snapshot, id: string): (r: Snapshot)
    ensures |s.plugins| <= MinPlugins ==> r == s
    ensures |s.plugins| > MinPlugins ==>
      r.plugins == Without(s.plugins, id) && (forall p :: p in r.plugins <==> p in s.plugins && p.id != id)
      && HistoryInBounds(r) && Synced(r) && |r.history| == 1 && r.mode == s.mode
  {
    if |s.plugins| > MinPlugins then
      WithoutMembers(s.plugins, id);
      Reset(s, Without(s.plugins, id))
    else s
  }

  /** `plugins.map(p => p.id === pluginId ? { ...p, files, zipName } : p)`. */
  function WithZip(plugins: seq<Plugin>, pluginId: string, files: seq<PluginFile>, zipName: string): (r: seq<Plugin>)
    ensures |r| == |plugins|
    ensures forall i :: 0 <= i < |r| ==> r[i].id == plugins[i].id && r[i].name == plugins[i].name
    ensures forall i :: 0 <= i < |r| ==>
      if plugins[i].id == pluginId then r[i].files == files && r[i].zipName == Some(zipName) else r[i] == plugins[i]
  {
    if plugins == [] then []
    else
      var p := plugins[0];
      [if p.id == pluginId then p.(files := files, zipName := Some(zipName)) else p]
        + WithZip(plugins[1..], pluginId, files, zipName)
  }

  /** The commit at the end of `handleZipUpload`, with the extracted files passed in. */
  function ZipLoaded(s: Snapshot, pluginId: string, files: seq<PluginFile>, zipName: string): (r: Snapshot)
    ensures r.plugins == WithZip(s.plugins, pluginId, files, zipName)
    ensures HistoryInBounds(r) && Synced(r) && |r.history| == 1 && r.mode == s.mode
  {
    Reset(s, WithZip(s.plugins, pluginId, files, zipName))
  }

  /** The plugins `handleModeChange` keeps or creates for `mode`. */
  function PluginsForMode(plugins: seq<Plugin>, mode: AppMode, firstId: string, secondId: string): seq<Plugin>
  {
    if mode == FileEditor && (|plugins| != 1 || plugins[0].id != FileEditorPluginId) then [FileEditorPlugin]
    else if mode == WordPress && (|plugins| == 0 || plugins[0].id == FileEditorPluginId) then
      [NewPlugin(firstId, "Plugin 1"), NewPlugin(secondId, "Plugin 2")]
    else if mode == PluginPackager then []
    else plugins
  }

  /** `handleModeChange`: switch mode, adjust the plugins to it, and start a fresh history. */
  function ModeChanged(s: Snapshot, mode: AppMode, firstId: string, secondId: string): (r: Snapshot)
    ensures HistoryInBounds(r) && Synced(r) && |r.history| == 1 && r.mode == mode
  {
    var plugins := PluginsForMode(s.plugins, mode, firstId, secondId);
    Snapshot(mode, plugins, [plugins], 0)
  }

  // What the history promises.

  /** Undoing an edit brings back the plugins the edit was made from. */
  lemma UndoAfterRecord(s: Snapshot, newPlugins: seq<Plugin>)
    requires HistoryInBounds(s)
    ensures Undone(Recorded(s, newPlugins)).plugins == s.history[s.historyIndex]
    ensures Synced(s) ==> Undone(Recorded(s, newPlugins)).plugins == s.plugins
  {
    var h := Record(s.history, s.historyIndex, newPlugins);
    assert h[..|h| - 1][|h| - 2] == h[|h| - 2];
  }

  /** An edit leaves nothing to redo. */
  lemma RecordClearsRedo(s: Snapshot, newPlugins: seq<Plugin>)
    requires HistoryInBounds(s)
    ensures Redone(Recorded(s, newPlugins)) == Recorded(s, newPlugins)
  {
  }

  /** An edit keeps, before the new list, the current entry and at most two entries before it. */
  lemma RecordKeepsRecentPast(s: Snapshot, newPlugins: seq<Plugin>, k: int)
    requires HistoryInBounds(s)
    requires 0 <= k < Recorded(s, newPlugins).historyIndex
    ensures Recorded(s, newPlugins).history[k] == s.history[s.historyIndex + 1 - Recorded(s, newPlugins).historyIndex + k]
  {
    var h := Record(s.history, s.historyIndex, newPlugins);
    assert h[..|h| - 1][k] == h[k];
  }

  /** Redo undoes an undo: the index comes back and the plugins are the entry at it. */
  lemma RedoAfterUndo(s: Snapshot)
    requires HistoryInBounds(s) && s.historyIndex > 0
    ensures Redone(Undone(s)) == s.(plugins := s.history[s.historyIndex])
    ensures Synced(s) ==> Redone(Undone(s)) == s
  {
  }

  /** Undo undoes a redo: the index comes back and the plugins are the entry at it. */
  lemma UndoAfterRedo(s: Snapshot)
    requires HistoryInBounds(s) && s.historyIndex < |s.history| - 1
    ensures Undone(Redone(s)) == s.(plugins := s.history[s.historyIndex])
    ensures Synced(s) ==> Undone(Redone(s)) == s
  {
  }

  /** Adding never takes the list past ten plugins, and keeps the existing ones in front. */
  lemma AddKeepsAtMostTen(s: Snapshot, newId: string)
    requires |s.plugins| <= PluginLimit
    ensures |Added(s, newId).plugins| <= PluginLimit
    ensures Added(s, newId).plugins[..|s.plugins|] == s.plugins
  {
  }

  /** The ids of a plugin list are distinct (they are random). */
  predicate DistinctIds(plugins: seq<Plugin>)
  {
    forall i, j :: 0 <= i < j < |plugins| ==> plugins[i].id != plugins[j].id
  }

  /** Filtering out an id no plugin has changes nothing. */
  lemma {:induction false} WithoutAbsentId(plugins: seq<Plugin>, id: string)
    requires forall i :: 0 <= i < |plugins| ==> plugins[i].id != id
    ensures Without(plugins, id) == plugins
  {
    if plugins != [] {
      WithoutAbsentId(plugins[1..], id);
      assert [plugins[0]] + plugins[1..] == plugins;
    }
  }

  /** The filter works piece by piece: filtering a concatenation filters each part, keeping their order. */
  lemma {:induction false} WithoutAppend(a: seq<Plugin>, b: seq<Plugin>, id: string)
    ensures Without(a + b, id) == Without(a, id) + Without(b, id)
  {
    if a == [] {
      assert a + b == b;
    } else {
      var head := if a[0].id == id then [] else [a[0]];
      assert (a + b)[0] == a[0] && (a + b)[1..] == a[1..] + b;
      calc {
        Without(a + b, id);
        head + Without(a[1..] + b, id);
        { WithoutAppend(a[1..], b, id); }
        head + (Without(a[1..], id) + Without(b, id));
        (head + Without(a[1..], id)) + Without(b, id);
        Without(a, id) + Without(b, id);
      }
    }
  }

  /**
   * The filter keeps order and multiplicity: a plugin between two runs stays
   * between what is kept of them when its id differs, and goes otherwise.
   */
  lemma WithoutKeepsOrder(a: seq<Plugin>, p: Plugin, b: seq<Plugin>, id: string)
    ensures Without(a + [p] + b, id) == Without(a, id) + (if p.id == id then [] else [p]) + Without(b, id)
  {
    var kept := if p.id == id then [] else [p];
    assert Without([p], id) == kept by {
      assert [p][1..] == [];
    }
    WithoutAppend(a, [p], id);
    WithoutAppend(a + [p], b, id);
  }

  /** With distinct ids, filtering an id out drops at most one plugin. */
  lemma {:induction false} WithoutDropsAtMostOne(plugins: seq<Plugin>, id: string)
    requires DistinctIds(plugins)
    ensures |Without(plugins, id)| >= |plugins| - 1
  {
    if plugins != [] {
      var tail := plugins[1..];
      if plugins[0].id == id {
        forall i | 0 <= i < |tail| ensures tail[i].id != id {
          assert tail[i] == plugins[i + 1];
        }
        WithoutAbsentId(tail, id);
      } else {
        assert DistinctIds(tail) by {
          forall i, j | 0 <= i < j < |tail| ensures tail[i].id != tail[j].id {
            assert tail[i] == plugins[i + 1] && tail[j] == plugins[j + 1];
          }
        }
        WithoutDropsAtMostOne(tail, id);
      }
    }
  }

  /** With distinct ids, removing a plugin never leaves fewer than two. */
  lemma RemoveKeepsTwo(s: Snapshot, id: string)
    requires DistinctIds(s.plugins) && |s.plugins| >= MinPlugins
    ensures |Removed(s, id).plugins| >= MinPlugins
  {
    WithoutDropsAtMostOne(s.plugins, id);
  }

  /** In file-editor mode the only plugin is the editor's; in packager mode there is none; other modes but WordPress keep the plugins. */
  lemma ModeChangeShape(s: Snapshot, mode: AppMode, firstId: string, secondId: string)
    requires firstId != FileEditorPluginId
    ensures var r := ModeChanged(s, mode, firstId, secondId);
      (mode == FileEditor ==> |r.plugins| == 1 && r.plugins[0].id == FileEditorPluginId)
      && (mode == WordPress ==> |r.plugins| > 0 && r.plugins[0].id != FileEditorPluginId)
      && (mode == PluginPackager ==> r.plugins == [])
      && ((mode == Integration || mode == PluginBuilder) ==> r.plugins == s.plugins)
  {
  }

  // The download name.

  const ZipSuffix := ".zip"
  const ModifiedSuffix := "-modified.zip"

  /** `plugin.zipName || `${plugin.name}.zip``: an empty zip name counts as none. */
  function OriginalName(zipName: Option<string>, name: string): string
  {
    if zipName.Some? && zipName.value != "" then zipName.value else name + ZipSuffix
  }

  /** The default name offered by `handleDownloadPlugin`: one trailing `.zip` stripped, `-modified.zip` appended. */
  function DownloadName(zipName: Option<string>, name: string): string
  {
    var original := OriginalName(zipName, name);
    var base := if EndsWith(original, ZipSuffix) then original[..|original| - |ZipSuffix|] else original;
    base + ModifiedSuffix
  }

  /** The name always ends in `-modified.zip`, after the original name less one `.zip`. */
  lemma DownloadNameShape(zipName: Option<string>, name: string)
    ensures EndsWith(DownloadName(zipName, name), ModifiedSuffix)
    ensures var original := OriginalName(zipName, name);
      var base := DownloadName(zipName, name)[..|DownloadName(zipName, name)| - |ModifiedSuffix|];
      original == base + ZipSuffix || (original == base && !EndsWith(original, ZipSuffix))
  {
    var original := OriginalName(zipName, name);
    var r := DownloadName(zipName, name);
    var base := if EndsWith(original, ZipSuffix) then original[..|original| - |ZipSuffix|] else original;
    assert r[..|r| - |ModifiedSuffix|] == base;
    if EndsWith(original, ZipSuffix) {
      assert original == base + original[|original| - |ZipSuffix|..];
    }
  }

  /** Without a zip name, the name is the plugin's name followed by `-modified.zip`. */
  lemma DownloadNameFromPluginName(zipName: Option<string>, name: string)
    requires zipName == None || zipName == Some("")
    ensures DownloadName(zipName, name) == name + ModifiedSuffix
  {
    var original := name + ZipSuffix;
    assert original[|original| - |ZipSuffix|..] == ZipSuffix;
    assert original[..|original| - |ZipSuffix|] == name;
  }

  /** The workspace being edited. */
  class Workspace {
    var mode: AppMode
    var plugins: seq<Plugin>
    var history: seq<seq<Plugin>>
    var historyIndex: int

    function State(): Snapshot
      reads this
    {
      Snapshot(mode, plugins, history, historyIndex)
    }

    predicate Valid()
      reads this
    {
      HistoryInBounds(State())
    }

    /** `createNewWorkspace`, with the two random plugin ids passed in. */
    constructor (firstId: string, secondId: string)
      ensures State() == Created(firstId, secondId) && Valid()
    {
      var initial := [NewPlugin(firstId, "Plugin 1"), NewPlugin(secondId, "Plugin 2")];
      mode := WordPress;
      plugins := initial;
      history := [initial];
      historyIndex := 0;
    }

    /** `updatePluginsWithHistory`. */
    method UpdatePluginsWithHistory(newPlugins: seq<Plugin>)
      requires Valid()
      modifies this
      ensures State() == Recorded(old(State()), newPlugins) && Valid()
    {
      var currentHistory := history[..historyIndex + 1];
      var newHistory := currentHistory + [newPlugins];
      if |newHistory| > HistoryLimit {
        newHistory := newHistory[|newHistory| - HistoryLimit..];
      }
      plugins := newPlugins;
      history := newHistory;
      historyIndex := |newHistory| - 1;
    }

    /** `handleUndo`. */
    method Undo()
      requires Valid()
      modifies this
      ensures State() == Undone(old(State())) && Valid()
    {
      if historyIndex <= 0 {
        return;
      }
      var newIndex := historyIndex - 1;
      plugins := history[newIndex];
      historyIndex := newIndex;
    }

    /** `handleRedo`. */
    method Redo()
      requires Valid()
      modifies this
      ensures State() == Redone(old(State())) && Valid()
    {
      if historyIndex >= |history| - 1 {
        return;
      }
      var newIndex := historyIndex + 1;
      plugins := history[newIndex];
      historyIndex := newIndex;
    }

    /** `handlePluginNameChange`. */
    method RenamePlugin(pluginId: string, newName: string)
      modifies this
      ensures State() == Renamed(old(State()), pluginId, newName)
    {
      plugins := RenameIn(plugins, pluginId, newName);
    }

    /** Starts a fresh history holding `newPlugins`. */
    method ResetTo(newPlugins: seq<Plugin>)
      modifies this
      ensures State() == Reset(old(State()), newPlugins) && Valid()
    {
      plugins := newPlugins;
      history := [newPlugins];
      historyIndex := 0;
    }

    /** `handleAddPlugin`, with the new plugin's random id passed in. */
    method AddPlugin(newId: string)
      modifies this
      ensures State() == Added(old(State()), newId)
    {
      if |plugins| < PluginLimit {
        var newPlugins := plugins + [NewPlugin(newId, "Plugin " + NatToString(|plugins| + 1))];
        ResetTo(newPlugins);
      }
    }

    /** `handleRemovePlugin`. */
    method RemovePlugin(id: string)
      modifies this
      ensures State() == Removed(old(State()), id)
    {
      if |plugins| > MinPlugins {
        ResetTo(Without(plugins, id));
      }
    }

    /** The commit of `handleZipUpload`, with the extracted files and the zip's name passed in. */
    method LoadZip(pluginId: string, files: seq<PluginFile>, zipName: string)
      modifies this
      ensures State() == ZipLoaded(old(State()), pluginId, files, zipName)
    {
      ResetTo(WithZip(plugins, pluginId, files, zipName));
    }

    /** `handleModeChange`, with the random ids of the plugins WordPress mode may create passed in. */
    method ChangeMode(newMode: AppMode, firstId: string, secondId: string)
      modifies this
      ensures State() == ModeChanged(old(State()), newMode, firstId, secondId)
    {
      var newPlugins := plugins;
      if newMode == FileEditor && (|newPlugins| != 1 || newPlugins[0].id != FileEditorPluginId) {
        newPlugins := [FileEditorPlugin];
      } else if newMode == WordPress && (|newPlugins| == 0 || newPlugins[0].id == FileEditorPluginId) {
        newPlugins := [NewPlugin(firstId, "Plugin 1"), NewPlugin(secondId, "Plugin 2")];
      } else if newMode == PluginPackager {
        newPlugins := [];
      }
      mode := newMode;
      ResetTo(newPlugins);
    }
  }
}

/** The persistence layer: the `kanban-` keys, reads that fall back on a
    missing or corrupt entry, clearing every `kanban-` key, and the backup
    document that `exportAllData` builds and `importData` writes back.
    The browser's key-value store is a map from keys to entries; an entry is
    either a parsed JSON value or text that does not parse. */
module Storage {
  import opened Wrappers
  import opened Strings
  import opened Board

  // ---------------------------------------------------------------- values

  /** A JSON value. An object is its list of entries in enumeration order;
      a number is an integer. */
  datatype Json =
    | JNull
    | JBool(b: bool)
    | JNum(n: int)
    | JStr(s: string)
    | JArr(elems: seq<Json>)
    | JObj(fields: seq<(string, Json)>)

  /** A stored entry: the text `JSON.stringify` wrote, seen through `JSON.parse`. */
  datatype Entry = Parsed(json: Json) | Unparsable

  /** JavaScript truthiness of a JSON value. */
  predicate Truthy(j: Json) {
    match j
    case JNull => false
    case JBool(b) => b
    case JNum(n) => n != 0
    case JStr(s) => s != ""
    case _ => true
  }

  /** The keys of an object's entries, in order. */
  function Keys(fs: seq<(string, Json)>): (ks: seq<string>)
    ensures |ks| == |fs| && forall i :: 0 <= i < |fs| ==> ks[i] == fs[i].0
  {
    seq(|fs|, i requires 0 <= i < |fs| => fs[i].0)
  }

  /** The value of the first entry named `k`, `None` (undefined) when there is none. */
  function Lookup(fs: seq<(string, Json)>, k: string): (r: Option<Json>)
    ensures r.None? <==> k !in Keys(fs)
  {
    if fs == [] then None
    else if fs[0].0 == k then Some(fs[0].1)
    else
      assert Keys(fs) == [fs[0].0] + Keys(fs[1..]);
      Lookup(fs[1..], k)
  }

  /** Looking a key up in an object with one more entry in front. */
  lemma LookupCons(k0: string, v0: Json, rest: seq<(string, Json)>, k: string)
    ensures Lookup([(k0, v0)] + rest, k) == if k0 == k then Some(v0) else Lookup(rest, k)
  {
    assert ([(k0, v0)] + rest)[1..] == rest;
  }

  /** In an object without repeated keys, each entry is the one found under its key. */
  lemma {:induction false} LookupDistinct(fs: seq<(string, Json)>, i: int)
    requires Distinct(Keys(fs)) && 0 <= i < |fs|
    ensures Lookup(fs, fs[i].0) == Some(fs[i].1)
    decreases |fs|
  {
    if i > 0 {
      assert Keys(fs)[0] != Keys(fs)[i];
      assert Keys(fs[1..]) == Keys(fs)[1..];
      assert fs[1..][i - 1] == fs[i];
      LookupDistinct(fs[1..], i - 1);
    }
  }

  /** `value.key` (and `value?.key`): only an object has properties here. */
  function Get(j: Json, k: string): (r: Option<Json>)
    ensures !j.JObj? ==> r.None?
  {
    if j.JObj? then Lookup(j.fields, k) else None
  }

  /** Putting a key in front of keys that lack it keeps them distinct. */
  lemma DistinctCons(a: string, ks: seq<string>)
    requires a !in ks && Distinct(ks)
    ensures Distinct([a] + ks)
  {
    var r := [a] + ks;
    forall i, j | 0 <= i < j < |r| ensures r[i] != r[j] {
      assert r[j] == ks[j - 1];
      if i > 0 {
        assert r[i] == ks[i - 1];
      }
    }
  }

  /** `obj[k] = v`: an existing entry keeps its place, a new one goes last. */
  function SetField(fs: seq<(string, Json)>, k: string, v: Json): (r: seq<(string, Json)>)
    ensures Lookup(r, k) == Some(v)
    ensures forall k' :: k' in Keys(r) <==> k' in Keys(fs) || k' == k
    ensures forall e :: e in r ==> e == (k, v) || e in fs
    ensures Distinct(Keys(fs)) ==> Distinct(Keys(r))
    decreases |fs|
  {
    if fs == [] then
      assert Keys([(k, v)]) == [k];
      [(k, v)]
    else if fs[0].0 == k then
      SetFieldFront(fs, v);
      [(k, v)] + fs[1..]
    else
      var rest := SetField(fs[1..], k, v);
      SetFieldBehind(fs, k, v, rest);
      [fs[0]] + rest
  }

  /** `SetField`'s properties when the first entry is the one replaced. */
  lemma SetFieldFront(fs: seq<(string, Json)>, v: Json)
    requires fs != []
    ensures var r := [(fs[0].0, v)] + fs[1..];
            && Lookup(r, fs[0].0) == Some(v)
            && (forall k' :: k' in Keys(r) <==> k' in Keys(fs))
            && (forall e :: e in r ==> e == (fs[0].0, v) || e in fs)
            && (Distinct(Keys(fs)) ==> Distinct(Keys(r)))
  {
    var r := [(fs[0].0, v)] + fs[1..];
    assert r[0] == (fs[0].0, v);
    assert Keys(r) == Keys(fs) by {
      KeysOfTail(fs);
      KeysOfCons((fs[0].0, v), fs[1..]);
    }
    forall e | e in r
      ensures e == (fs[0].0, v) || e in fs
    {
      if e != r[0] {
        assert e in fs[1..];
      }
    }
  }

  /** `SetField`'s properties carried past a first entry with another key. */
  lemma SetFieldBehind(fs: seq<(string, Json)>, k: string, v: Json, rest: seq<(string, Json)>)
    requires fs != [] && fs[0].0 != k
    requires Lookup(rest, k) == Some(v)
    requires forall k' :: k' in Keys(rest) <==> k' in Keys(fs[1..]) || k' == k
    requires forall e :: e in rest ==> e == (k, v) || e in fs[1..]
    requires Distinct(Keys(fs[1..])) ==> Distinct(Keys(rest))
    ensures var r := [fs[0]] + rest;
            && Lookup(r, k) == Some(v)
            && (forall k' :: k' in Keys(r) <==> k' in Keys(fs) || k' == k)
            && (forall e :: e in r ==> e == (k, v) || e in fs)
            && (Distinct(Keys(fs)) ==> Distinct(Keys(r)))
  {
    var r := [fs[0]] + rest;
    assert Lookup(r, k) == Some(v) by {
      LookupCons(fs[0].0, fs[0].1, rest, k);
    }
    assert fs == [fs[0]] + fs[1..];
    KeysOfCons(fs[0], fs[1..]);
    KeysOfCons(fs[0], rest);
    forall e | e in r
      ensures e == (k, v) || e in fs
    {
      if e != fs[0] {
        assert e in rest;
      }
    }
    if Distinct(Keys(fs)) {
      KeysOfTail(fs);
      DistinctCons(fs[0].0, Keys(rest));
    }
  }

  /** The keys of an object with one more entry in front. */
  lemma KeysOfCons(e: (string, Json), rest: seq<(string, Json)>)
    ensures Keys([e] + rest) == [e.0] + Keys(rest)
  {
    assert forall i :: 0 < i <= |rest| ==> ([e] + rest)[i] == rest[i - 1];
  }

  /** The keys of an object split into its first entry and the rest; a
      distinct first key is absent from the rest. */
  lemma KeysOfTail(fs: seq<(string, Json)>)
    requires fs != []
    ensures Keys(fs) == [fs[0].0] + Keys(fs[1..])
    ensures Distinct(Keys(fs)) ==> Distinct(Keys(fs[1..])) && fs[0].0 !in Keys(fs[1..])
  {
    assert fs == [fs[0]] + fs[1..];
    KeysOfCons(fs[0], fs[1..]);
    if Distinct(Keys(fs)) {
      assert forall j :: 1 <= j < |fs| ==> Keys(fs)[0] != Keys(fs)[j];
      assert Keys(fs[1..]) == Keys(fs)[1..];
    }
  }

  /** `Object.entries(value)`: an object's entries, an array's or a
      string's elements under their decimal indexes, nothing for the rest. */
  function Entries(j: Json): (es: seq<(string, Json)>)
    ensures j.JObj? ==> es == j.fields
    ensures j.JArr? ==> |es| == |j.elems| && forall i :: 0 <= i < |es| ==> es[i] == (NatToString(i), j.elems[i])
    ensures j.JStr? ==> |es| == |j.s| && forall i :: 0 <= i < |es| ==> es[i] == (NatToString(i), JStr([j.s[i]]))
    ensures !j.JObj? && !j.JArr? && !j.JStr? ==> es == []
  {
    match j
    case JObj(fs) => fs
    case JArr(xs) => seq(|xs|, i requires 0 <= i < |xs| => (NatToString(i), xs[i]))
    case JStr(s) => seq(|s|, i requires 0 <= i < |s| => (NatToString(i), JStr([s[i]])))
    case _ => []
  }

  // ---------------------------------------------------------------- keys

  const KanbanPrefix: string := "kanban-"
  const ProjectsKey: string := "kanban-projects"
  const ActiveProjectKey: string := "kanban-active-project"
  const ThemeKey: string := "kanban-theme"

  const ColumnsPrefix: string := "kanban-columns-"
  const TasksPrefix: string := "kanban-tasks-"

  /** `STORAGE_KEYS.COLUMNS(projectId)`. */
  function ColumnsKey(projectId: string): (k: string)
    ensures StartsWith(k, KanbanPrefix) && StartsWith(k, ColumnsPrefix)
    ensures k[|ColumnsPrefix|..] == projectId
  {
    ColumnsPrefix + projectId
  }

  /** `STORAGE_KEYS.TASKS(projectId)`. */
  function TasksKey(projectId: string): (k: string)
    ensures StartsWith(k, KanbanPrefix) && StartsWith(k, TasksPrefix)
    ensures k[|TasksPrefix|..] == projectId
  {
    TasksPrefix + projectId
  }

  /** The key `useProjectStorage(projectId, dataType)` reads and writes. */
  function ProjectStorageKey(projectId: string, dataType: string): (k: string)
    ensures StartsWith(k, KanbanPrefix)
  {
    KanbanPrefix + dataType + "-" + projectId
  }

  /** The storage module and the storage hook name a project's data alike. */
  lemma KeysAgreeWithHook(projectId: string)
    ensures ColumnsKey(projectId) == ProjectStorageKey(projectId, "columns")
    ensures TasksKey(projectId) == ProjectStorageKey(projectId, "tasks")
  {
  }

  /** Different projects and different kinds of data never share a key, and
      no project key is one of the fixed keys. */
  lemma KeysDistinct(p: string, q: string)
    ensures ColumnsKey(p) == ColumnsKey(q) ==> p == q
    ensures TasksKey(p) == TasksKey(q) ==> p == q
    ensures ColumnsKey(p) != TasksKey(q)
    ensures ColumnsKey(p) !in {ProjectsKey, ActiveProjectKey, ThemeKey}
    ensures TasksKey(p) !in {ProjectsKey, ActiveProjectKey, ThemeKey}
    ensures ProjectsKey != ActiveProjectKey && ProjectsKey != ThemeKey && ActiveProjectKey != ThemeKey
  {
    assert ColumnsKey(p)[7] == 'c' && TasksKey(q)[7] == 't';
    assert ProjectsKey[7] == 'p' && ActiveProjectKey[7] == 'a';
    assert TasksKey(q)[8] == 'a' && ThemeKey[8] == 'h';
  }

  // ---------------------------------------------------------------- reads

  /** The entry stored under `key`, `None` when there is none. */
  function At(m: map<string, Entry>, key: string): Option<Entry> {
    if key in m then Some(m[key]) else None
  }

  /** `getFromStorage(key, fallback)`. */
  function GetFromStorage(m: map<string, Entry>, key: string, fallback: Json): (v: Json)
    ensures At(m, key) == Some(Parsed(v)) || (v == fallback && (key !in m || m[key].Unparsable?))
  {
    if key in m && m[key].Parsed? then m[key].json else fallback
  }

  /** A value written is read back; a removed key reads as the fallback. */
  lemma WriteThenRead(m: map<string, Entry>, key: string, v: Json, fallback: Json)
    ensures GetFromStorage(m[key := Parsed(v)], key, fallback) == v
    ensures GetFromStorage(m - {key}, key, fallback) == fallback
    ensures GetFromStorage(m[key := Unparsable], key, fallback) == fallback
  {
  }

  // ---------------------------------------------------------------- export

  /** A project as `JSON.stringify` writes it (the creation date is not modelled). */
  function ProjectJson(p: Project): Json {
    JObj([("id", JStr(p.id)), ("name", JStr(p.name))])
  }

  function ProjectsJson(ps: seq<Project>): (r: seq<Json>)
    ensures |r| == |ps| && forall i :: 0 <= i < |ps| ==> r[i] == ProjectJson(ps[i])
  {
    seq(|ps|, i requires 0 <= i < |ps| => ProjectJson(ps[i]))
  }

  /** `{ columns, tasks }` of one project, each `[]` when missing or corrupt. */
  function ProjectEntry(m: map<string, Entry>, projectId: string): (j: Json)
    ensures j.JObj? && j != JNull
  {
    JObj([("columns", GetFromStorage(m, ColumnsKey(projectId), JArr([]))),
          ("tasks", GetFromStorage(m, TasksKey(projectId), JArr([])))])
  }

  /** A project's entry holds the project's columns and tasks as the store has them. */
  lemma ProjectEntryFields(m: map<string, Entry>, projectId: string)
    ensures Get(ProjectEntry(m, projectId), "columns") == Some(GetFromStorage(m, ColumnsKey(projectId), JArr([])))
    ensures Get(ProjectEntry(m, projectId), "tasks") == Some(GetFromStorage(m, TasksKey(projectId), JArr([])))
  {
    var fs := ProjectEntry(m, projectId).fields;
    assert "tasks"[0] != "columns"[0];
    assert Lookup(fs, "tasks") == Lookup(fs[1..], "tasks");
  }

  /** `data.projectData` after the `forEach`: one entry per distinct project
      id, each holding what the store has for that project. */
  function ProjectDataOf(m: map<string, Entry>, ps: seq<Project>): (pd: seq<(string, Json)>)
    ensures Distinct(Keys(pd))
    ensures forall k :: k in Keys(pd) <==> k in ProjectIds(ps)
    ensures forall e :: e in pd ==> e.1 == ProjectEntry(m, e.0)
    decreases |ps|
  {
    if ps == [] then []
    else
      var init, last := ps[..|ps| - 1], ps[|ps| - 1];
      assert ps == init + [last];
      var pd0 := ProjectDataOf(m, init);
      var pd := SetField(pd0, last.id, ProjectEntry(m, last.id));
      assert forall k :: k in ProjectIds(ps) <==> k in ProjectIds(init) || k == last.id by {
        assert ProjectIds(ps) == ProjectIds(init) + [last.id];
      }
      pd
  }

  /** Every exported project is found in `projectData` under its id, with
      what the store holds for it. */
  lemma ExportHoldsEveryProject(m: map<string, Entry>, ps: seq<Project>)
    ensures forall p :: p in ps ==> Lookup(ProjectDataOf(m, ps), p.id) == Some(ProjectEntry(m, p.id))
  {
    var pd := ProjectDataOf(m, ps);
    forall p | p in ps ensures Lookup(pd, p.id) == Some(ProjectEntry(m, p.id)) {
      var j :| 0 <= j < |ps| && ps[j] == p;
      assert ProjectIds(ps)[j] == p.id;
      assert p.id in Keys(pd);
      var i :| 0 <= i < |pd| && Keys(pd)[i] == p.id;
      LookupDistinct(pd, i);
    }
  }

  /** The backup document: version 1, the export time, the projects and
      their boards. */
  function ExportData(m: map<string, Entry>, ps: seq<Project>, exportedAt: string): (data: Json)
    ensures Get(data, "version") == Some(JNum(1))
    ensures Get(data, "projects") == Some(JArr(ProjectsJson(ps)))
    ensures Get(data, "projectData") == Some(JObj(ProjectDataOf(m, ps)))
    ensures Get(data, "activeProjectId").None? && Get(data, "columns").None? && Get(data, "tasks").None?
  {
    var pj, pd := JArr(ProjectsJson(ps)), JObj(ProjectDataOf(m, ps));
    BackupLookup(JNum(1), JStr(exportedAt), pj, pd, "version");
    BackupLookup(JNum(1), JStr(exportedAt), pj, pd, "projects");
    BackupLookup(JNum(1), JStr(exportedAt), pj, pd, "projectData");
    BackupLookup(JNum(1), JStr(exportedAt), pj, pd, "activeProjectId");
    BackupLookup(JNum(1), JStr(exportedAt), pj, pd, "columns");
    BackupLookup(JNum(1), JStr(exportedAt), pj, pd, "tasks");
    JObj([("version", JNum(1)), ("exportedAt", JStr(exportedAt)), ("projects", pj), ("projectData", pd)])
  }

  /** A field of a backup document, looked up by name. */
  lemma BackupLookup(version: Json, exportedAt: Json, projects: Json, projectData: Json, k: string)
    ensures Lookup([("version", version), ("exportedAt", exportedAt), ("projects", projects), ("projectData", projectData)], k)
            == if k == "version" then Some(version) else if k == "exportedAt" then Some(exportedAt)
               else if k == "projects" then Some(projects) else if k == "projectData" then Some(projectData)
               else None
  {
    var e: seq<(string, Json)> := [];
    var d := [("projectData", projectData)] + e;
    var c := [("projects", projects)] + d;
    var b := [("exportedAt", exportedAt)] + c;
    assert [("version", version), ("exportedAt", exportedAt), ("projects", projects), ("projectData", projectData)]
        == [("version", version)] + b;
    LookupCons("version", version, b, k);
    LookupCons("exportedAt", exportedAt, c, k);
    LookupCons("projects", projects, d, k);
    LookupCons("projectData", projectData, e, k);
  }

  // ---------------------------------------------------------------- import

  /** What an import leaves: the store and the returned success flag. */
  datatype Outcome = Outcome(items: map<string, Entry>, ok: bool)

  /** `if (v) setToStorage(key, v)`. */
  function PutIfTruthy(m: map<string, Entry>, key: string, v: Option<Json>): (r: map<string, Entry>)
    ensures v.Some? && Truthy(v.value) ==> r == m[key := Parsed(v.value)]
    ensures !(v.Some? && Truthy(v.value)) ==> r == m
  {
    if v.Some? && Truthy(v.value) then m[key := Parsed(v.value)] else m
  }

  /** The entry at a key after `PutIfTruthy`. */
  function Written(before: Option<Entry>, v: Option<Json>): Option<Entry> {
    if v.Some? && Truthy(v.value) then Some(Parsed(v.value)) else before
  }

  /** One `projectData` entry: reading `.columns` of `null` throws, which
      ends the import with `false`; otherwise its columns, then its tasks,
      are written when truthy. */
  function ProjectDataStep(m: map<string, Entry>, e: (string, Json)): (r: Outcome)
    ensures r.ok <==> e.1 != JNull
    ensures !r.ok ==> r.items == m
    ensures r.ok ==> r.items == PutIfTruthy(PutIfTruthy(m, ColumnsKey(e.0), Get(e.1, "columns")), TasksKey(e.0), Get(e.1, "tasks"))
  {
    if e.1 == JNull then Outcome(m, false)
    else Outcome(PutIfTruthy(PutIfTruthy(m, ColumnsKey(e.0), Get(e.1, "columns")), TasksKey(e.0), Get(e.1, "tasks")), true)
  }

  /** The `projectData` loop, stopping at the first entry that throws. */
  function WriteProjectData(m: map<string, Entry>, es: seq<(string, Json)>): (r: Outcome)
    ensures r.ok <==> forall i :: 0 <= i < |es| ==> es[i].1 != JNull
    decreases |es|
  {
    if es == [] then Outcome(m, true)
    else
      var s := ProjectDataStep(m, es[0]);
      if !s.ok then s
      else
        var r := WriteProjectData(s.items, es[1..]);
        assert forall i :: 1 <= i < |es| ==> es[i] == es[1..][i - 1];
        r
  }

  /** Which of a project's keys a legacy map fills. */
  datatype DataKind = ColumnsData | TasksData

  function KeyFor(kind: DataKind, projectId: string): string {
    if kind == ColumnsData then ColumnsKey(projectId) else TasksKey(projectId)
  }

  /** The legacy `columns`/`tasks` maps: every entry is written, whatever it holds. */
  function WriteLegacy(m: map<string, Entry>, es: seq<(string, Json)>, kind: DataKind): (r: map<string, Entry>)
    ensures forall i :: 0 <= i < |es| ==> KeyFor(kind, es[i].0) in r
    ensures forall key :: key in m ==> key in r
    decreases |es|
  {
    if es == [] then m
    else
      var r := WriteLegacy(m[KeyFor(kind, es[0].0) := Parsed(es[0].1)], es[1..], kind);
      assert forall i :: 1 <= i < |es| ==> es[i] == es[1..][i - 1];
      r
  }

  /** A project's key of one kind names one project. */
  lemma KeyForInjective(kind: DataKind, p: string, q: string)
    ensures KeyFor(kind, p) == KeyFor(kind, q) ==> p == q
  {
    KeysDistinct(p, q);
  }

  /** The legacy writes leave a key that no entry names as it was. */
  lemma {:induction false} WriteLegacyKeepsUnnamed(m: map<string, Entry>, es: seq<(string, Json)>, kind: DataKind, key: string)
    requires forall i :: 0 <= i < |es| ==> key != KeyFor(kind, es[i].0)
    ensures At(WriteLegacy(m, es, kind), key) == At(m, key)
    decreases |es|
  {
    if es != [] {
      var k0, tail := KeyFor(kind, es[0].0), es[1..];
      assert key != k0;
      assert forall i :: 0 <= i < |tail| ==> tail[i] == es[i + 1];
      WriteLegacyKeepsUnnamed(m[k0 := Parsed(es[0].1)], tail, kind, key);
    }
  }

  /** After the legacy writes, a project's key holds the value of the last
      entry for that project: a later write replaces an earlier one. */
  lemma {:induction false} WriteLegacyLastWins(m: map<string, Entry>, es: seq<(string, Json)>, kind: DataKind, i: nat)
    requires i < |es| && forall j :: i < j < |es| ==> es[j].0 != es[i].0
    ensures At(WriteLegacy(m, es, kind), KeyFor(kind, es[i].0)) == Some(Parsed(es[i].1))
    decreases |es|
  {
    var k0, tail := KeyFor(kind, es[0].0), es[1..];
    var m' := m[k0 := Parsed(es[0].1)];
    if i == 0 {
      forall j | 0 <= j < |tail|
        ensures k0 != KeyFor(kind, tail[j].0)
      {
        assert tail[j] == es[j + 1];
        KeyForInjective(kind, es[0].0, tail[j].0);
      }
      WriteLegacyKeepsUnnamed(m', tail, kind, k0);
    } else {
      assert tail[i - 1] == es[i];
      forall j | i - 1 < j < |tail|
        ensures tail[j].0 != tail[i - 1].0
      {
        assert tail[j] == es[j + 1];
      }
      WriteLegacyLastWins(m', tail, kind, i - 1);
    }
  }

  /** The legacy map of `data[name]`, when it is a truthy object. */
  function LegacyEntries(data: Json, name: string): (es: seq<(string, Json)>)
    ensures Get(data, name).None? ==> es == []
    ensures var v := Get(data, name);
            v.Some? && (v.value.JObj? || v.value.JArr?) ==> es == Entries(v.value)
    ensures var v := Get(data, name);
            v.Some? && !v.value.JObj? && !v.value.JArr? ==> es == []
  {
    var v := Get(data, name);
    if v.Some? && Truthy(v.value) && (v.value.JObj? || v.value.JArr?) then Entries(v.value) else []
  }

  /** `data.activeProjectId || data.projects[0]?.id`, when truthy: the active id written. */
  function ActiveIdOf(data: Json, projects: seq<Json>): (r: Option<Json>)
    ensures r.Some? ==> Truthy(r.value)
    ensures Get(data, "activeProjectId").Some? && Truthy(Get(data, "activeProjectId").value) ==>
      r == Get(data, "activeProjectId")
  {
    var a := Get(data, "activeProjectId");
    if a.Some? && Truthy(a.value) then a
    else
      var first := if projects == [] then None else Get(projects[0], "id");
      if first.Some? && Truthy(first.value) then first else None
  }

  /** The store once projects and the active id are written. */
  function WriteHeader(m: map<string, Entry>, data: Json, projects: seq<Json>): map<string, Entry> {
    PutIfTruthy(m[ProjectsKey := Parsed(JArr(projects))], ActiveProjectKey, ActiveIdOf(data, projects))
  }

  /** The `projectData` stage, skipped when `projectData` is falsy. */
  function ProjectDataStage(m: map<string, Entry>, data: Json): Outcome {
    var pd := Get(data, "projectData");
    if pd.Some? && Truthy(pd.value) then WriteProjectData(m, Entries(pd.value)) else Outcome(m, true)
  }

  /** `importData(data)`. */
  function Import(m: map<string, Entry>, data: Json): (r: Outcome)
    ensures var ps := Get(data, "projects");
            (ps.None? || !ps.value.JArr?) ==> r == Outcome(m, false)
  {
    var ps := Get(data, "projects");
    if ps.None? || !ps.value.JArr? then Outcome(m, false)
    else
      var s := ProjectDataStage(WriteHeader(m, data, ps.value.elems), data);
      if !s.ok then s
      else
        Outcome(WriteLegacy(WriteLegacy(s.items, LegacyEntries(data, "columns"), ColumnsData),
                            LegacyEntries(data, "tasks"), TasksData), true)
  }

  /** `importData` succeeds exactly when `projects` is an array and no
      `projectData` entry is null; whenever `projects` is an array it has
      already been stored, even when the import then reports failure. */
  lemma ImportOutcomeCases(m: map<string, Entry>, data: Json)
    ensures var r := Import(m, data);
            var ps := Get(data, "projects");
            var pd := Get(data, "projectData");
            && (r.ok <==> (ps.Some? && ps.value.JArr? &&
                           (pd.Some? && Truthy(pd.value) ==> forall e :: e in Entries(pd.value) ==> e.1 != JNull)))
            && (ps.Some? && ps.value.JArr? ==> At(r.items, ProjectsKey) == Some(Parsed(ps.value)))
  {
    var ps := Get(data, "projects");
    if ps.Some? && ps.value.JArr? {
      var pd := Get(data, "projectData");
      if pd.Some? && Truthy(pd.value) {
        var es := Entries(pd.value);
        assert (forall i :: 0 <= i < |es| ==> es[i].1 != JNull) <==> (forall e :: e in es ==> e.1 != JNull);
      }
      var h := WriteHeader(m, data, ps.value.elems);
      KeysDistinct("", "");
      FixedKeysAreNotProjectKeys();
      assert At(h, ProjectsKey) == Some(Parsed(ps.value));
      var s := ProjectDataStage(h, data);
      ProjectDataStageOnlyProjectKeys(h, data, ProjectsKey);
      LegacyOnlyProjectKeys(s.items, LegacyEntries(data, "columns"), ColumnsData, ProjectsKey);
      LegacyOnlyProjectKeys(WriteLegacy(s.items, LegacyEntries(data, "columns"), ColumnsData),
                            LegacyEntries(data, "tasks"), TasksData, ProjectsKey);
    }
  }

  /** A key that is neither a columns key nor a tasks key. */
  predicate NotProjectKey(key: string) {
    !StartsWith(key, ColumnsPrefix) && !StartsWith(key, TasksPrefix)
  }

  /** The fixed keys are no project's key. */
  lemma FixedKeysAreNotProjectKeys()
    ensures NotProjectKey(ProjectsKey) && NotProjectKey(ActiveProjectKey) && NotProjectKey(ThemeKey)
  {
    assert ColumnsPrefix[7] == 'c' && TasksPrefix[7] == 't' && TasksPrefix[8] == 'a';
    assert ProjectsKey[..|ColumnsPrefix|][7] == 'p';
    assert ProjectsKey[..|TasksPrefix|][7] == 'p';
    assert ActiveProjectKey[..|ColumnsPrefix|][7] == 'a';
    assert ActiveProjectKey[..|TasksPrefix|][7] == 'a';
    assert |ThemeKey| < |TasksPrefix| < |ColumnsPrefix|;
  }

  /** A key outside the `kanban-` namespace is no project's key. */
  lemma OtherKeysAreNotProjectKeys(key: string)
    requires !StartsWith(key, KanbanPrefix)
    ensures NotProjectKey(key)
  {
  }

  lemma {:induction false} WriteProjectDataOnlyProjectKeys(m: map<string, Entry>, es: seq<(string, Json)>, key: string)
    requires NotProjectKey(key)
    ensures At(WriteProjectData(m, es).items, key) == At(m, key)
    decreases |es|
  {
    if es != [] {
      var s := ProjectDataStep(m, es[0]);
      assert key != ColumnsKey(es[0].0) && key != TasksKey(es[0].0);
      if s.ok {
        WriteProjectDataOnlyProjectKeys(s.items, es[1..], key);
      }
    }
  }

  lemma ProjectDataStageOnlyProjectKeys(m: map<string, Entry>, data: Json, key: string)
    requires NotProjectKey(key)
    ensures At(ProjectDataStage(m, data).items, key) == At(m, key)
  {
    var pd := Get(data, "projectData");
    if pd.Some? && Truthy(pd.value) {
      WriteProjectDataOnlyProjectKeys(m, Entries(pd.value), key);
    }
  }

  lemma {:induction false} LegacyOnlyProjectKeys(m: map<string, Entry>, es: seq<(string, Json)>, kind: DataKind, key: string)
    requires NotProjectKey(key)
    ensures At(WriteLegacy(m, es, kind), key) == At(m, key)
    decreases |es|
  {
    if es != [] {
      assert key != KeyFor(kind, es[0].0);
      LegacyOnlyProjectKeys(m[KeyFor(kind, es[0].0) := Parsed(es[0].1)], es[1..], kind, key);
    }
  }

  /** An import only ever writes `kanban-` keys: every other key keeps its entry. */
  lemma {:induction false} ImportKeepsOtherKeys(m: map<string, Entry>, data: Json, key: string)
    requires !StartsWith(key, KanbanPrefix)
    ensures At(Import(m, data).items, key) == At(m, key)
  {
    OtherKeysAreNotProjectKeys(key);
    var ps := Get(data, "projects");
    if ps.Some? && ps.value.JArr? {
      var h := WriteHeader(m, data, ps.value.elems);
      assert key != ProjectsKey && key != ActiveProjectKey;
      assert At(h, key) == At(m, key);
      var s := ProjectDataStage(h, data);
      ProjectDataStageOnlyProjectKeys(h, data, key);
      LegacyOnlyProjectKeys(s.items, LegacyEntries(data, "columns"), ColumnsData, key);
      LegacyOnlyProjectKeys(WriteLegacy(s.items, LegacyEntries(data, "columns"), ColumnsData),
                            LegacyEntries(data, "tasks"), TasksData, key);
    }
  }

  /** The `projectData` loop over entries with distinct keys and object
      values: each entry's columns and tasks keys end up written when the
      value is truthy, and no other key changes. */
  lemma {:induction false} WriteProjectDataEffect(m: map<string, Entry>, es: seq<(string, Json)>)
    requires Distinct(Keys(es))
    requires forall i :: 0 <= i < |es| ==> es[i].1.JObj?
    ensures var r := WriteProjectData(m, es);
            && r.ok
            && (forall i :: 0 <= i < |es| ==>
                  At(r.items, ColumnsKey(es[i].0)) == Written(At(m, ColumnsKey(es[i].0)), Get(es[i].1, "columns"))
                  && At(r.items, TasksKey(es[i].0)) == Written(At(m, TasksKey(es[i].0)), Get(es[i].1, "tasks")))
    decreases |es|
  {
    if es != [] {
      var s := ProjectDataStep(m, es[0]);
      var tail := es[1..];
      assert Keys(tail) == Keys(es)[1..];
      assert forall i :: 0 <= i < |tail| ==> tail[i] == es[i + 1];
      WriteProjectDataEffect(s.items, tail);
      var r := WriteProjectData(m, es);
      assert r == WriteProjectData(s.items, tail);
      var k0 := es[0].0;
      KeysDistinct(k0, k0);
      forall i | 0 <= i < |es|
        ensures At(r.items, ColumnsKey(es[i].0)) == Written(At(m, ColumnsKey(es[i].0)), Get(es[i].1, "columns"))
        ensures At(r.items, TasksKey(es[i].0)) == Written(At(m, TasksKey(es[i].0)), Get(es[i].1, "tasks"))
      {
        var k := es[i].0;
        if i == 0 {
          FirstEntryKept(s.items, es);
        } else {
          assert Keys(es)[0] != Keys(es)[i];
          OtherProjectKeysKept(m, es[0], k);
          assert tail[i - 1] == es[i];
        }
      }
    }
  }

  /** One entry leaves another project's keys alone. */
  lemma OtherProjectKeysKept(m: map<string, Entry>, e: (string, Json), k: string)
    requires k != e.0
    ensures At(ProjectDataStep(m, e).items, ColumnsKey(k)) == At(m, ColumnsKey(k))
    ensures At(ProjectDataStep(m, e).items, TasksKey(k)) == At(m, TasksKey(k))
  {
    KeysDistinct(e.0, k);
    KeysDistinct(k, e.0);
  }

  /** The entries after the first leave the first project's keys alone. */
  lemma FirstEntryKept(m: map<string, Entry>, es: seq<(string, Json)>)
    requires es != [] && Distinct(Keys(es))
    ensures var k, r := es[0].0, WriteProjectData(m, es[1..]).items;
            At(r, ColumnsKey(k)) == At(m, ColumnsKey(k)) && At(r, TasksKey(k)) == At(m, TasksKey(k))
  {
    var k, tail := es[0].0, es[1..];
    forall j | 0 <= j < |tail| ensures ColumnsKey(k) != ColumnsKey(tail[j].0) && ColumnsKey(k) != TasksKey(tail[j].0)
                               && TasksKey(k) != ColumnsKey(tail[j].0) && TasksKey(k) != TasksKey(tail[j].0) {
      assert Keys(es)[0] != Keys(es)[j + 1];
      KeysDistinct(k, tail[j].0);
      KeysDistinct(tail[j].0, k);
    }
    TailKeepsKey(m, tail, ColumnsKey(k));
    TailKeepsKey(m, tail, TasksKey(k));
  }

  /** Entries for other projects leave a key of this project alone. */
  lemma {:induction false} TailKeepsKey(m: map<string, Entry>, es: seq<(string, Json)>, key: string)
    requires forall j :: 0 <= j < |es| ==> key != ColumnsKey(es[j].0) && key != TasksKey(es[j].0)
    ensures At(WriteProjectData(m, es).items, key) == At(m, key)
    decreases |es|
  {
    if es != [] {
      var s := ProjectDataStep(m, es[0]);
      if s.ok {
        assert forall j :: 0 <= j < |es[1..]| ==> es[1..][j] == es[j + 1];
        TailKeepsKey(s.items, es[1..], key);
      }
    }
  }

  /** Importing an export is the `projectData` loop run on the store with
      the projects and the active id written: the export has no legacy maps. */
  lemma ImportOfExport(m: map<string, Entry>, target: map<string, Entry>, ps: seq<Project>, exportedAt: string)
    ensures var data := ExportData(m, ps, exportedAt);
            Import(target, data) == WriteProjectData(WriteHeader(target, data, ProjectsJson(ps)), ProjectDataOf(m, ps))
    ensures WriteProjectData(WriteHeader(target, ExportData(m, ps, exportedAt), ProjectsJson(ps)), ProjectDataOf(m, ps)).ok
  {
    var pd := ProjectDataOf(m, ps);
    forall i | 0 <= i < |pd| ensures pd[i].1 != JNull {
      assert pd[i] in pd;
    }
    ImportWithoutLegacy(target, ExportData(m, ps, exportedAt), ProjectsJson(ps), pd);
  }

  /** A document with a `projects` array, a `projectData` object and no
      legacy maps imports as the `projectData` loop run on the store with
      the header written, whether or not the loop stops early. */
  lemma ImportWithoutLegacy(target: map<string, Entry>, data: Json, projects: seq<Json>, pd: seq<(string, Json)>)
    requires Get(data, "projects") == Some(JArr(projects))
    requires Get(data, "projectData") == Some(JObj(pd))
    requires Get(data, "columns").None? && Get(data, "tasks").None?
    ensures Import(target, data) == WriteProjectData(WriteHeader(target, data, projects), pd)
  {
    var h := WriteHeader(target, data, projects);
    var st := WriteProjectData(h, pd);
    assert ProjectDataStage(h, data) == st by {
      assert Truthy(JObj(pd)) && Entries(JObj(pd)) == pd;
    }
    assert LegacyEntries(data, "columns") == [] && LegacyEntries(data, "tasks") == [];
    assert WriteLegacy(WriteLegacy(st.items, [], ColumnsData), [], TasksData) == st.items;
  }

  /** The header writes of an imported export: the projects, then the first
      project's id when it is non-empty; no project key is touched. */
  lemma HeaderOfExport(target: map<string, Entry>, data: Json, ps: seq<Project>)
    requires Get(data, "activeProjectId").None?
    ensures var h := WriteHeader(target, data, ProjectsJson(ps));
            && At(h, ProjectsKey) == Some(Parsed(JArr(ProjectsJson(ps))))
            && (ps != [] && ps[0].id != "" ==> At(h, ActiveProjectKey) == Some(Parsed(JStr(ps[0].id))))
            && (ps == [] || ps[0].id == "" ==> At(h, ActiveProjectKey) == At(target, ActiveProjectKey))
            && (forall key :: key != ProjectsKey && key != ActiveProjectKey ==> At(h, key) == At(target, key))
  {
    var projects := ProjectsJson(ps);
    KeysDistinct("", "");
    if ps != [] {
      assert Get(projects[0], "id") == Some(JStr(ps[0].id));
    }
  }

  /** The fixed keys after importing an export: the projects, and the
      first project's id as the active project when it is non-empty. */
  lemma ImportedExportHeader(m: map<string, Entry>, target: map<string, Entry>, ps: seq<Project>, exportedAt: string)
    ensures var r := Import(target, ExportData(m, ps, exportedAt));
            && r.ok
            && At(r.items, ProjectsKey) == Some(Parsed(JArr(ProjectsJson(ps))))
            && (ps != [] && ps[0].id != "" ==> At(r.items, ActiveProjectKey) == Some(Parsed(JStr(ps[0].id))))
            && (ps == [] || ps[0].id == "" ==> At(r.items, ActiveProjectKey) == At(target, ActiveProjectKey))
  {
    var data := ExportData(m, ps, exportedAt);
    var pd := ProjectDataOf(m, ps);
    var h := WriteHeader(target, data, ProjectsJson(ps));
    ImportOfExport(m, target, ps, exportedAt);
    HeaderOfExport(target, data, ps);
    FixedKeysAreNotProjectKeys();
    WriteProjectDataOnlyProjectKeys(h, pd, ProjectsKey);
    WriteProjectDataOnlyProjectKeys(h, pd, ActiveProjectKey);
  }

  /** Each exported project's keys after importing an export. */
  lemma ImportedExportProject(m: map<string, Entry>, target: map<string, Entry>, ps: seq<Project>, exportedAt: string, p: Project)
    requires p in ps
    ensures var r := Import(target, ExportData(m, ps, exportedAt));
            && At(r.items, ColumnsKey(p.id)) == Written(At(target, ColumnsKey(p.id)), Some(GetFromStorage(m, ColumnsKey(p.id), JArr([]))))
            && At(r.items, TasksKey(p.id)) == Written(At(target, TasksKey(p.id)), Some(GetFromStorage(m, TasksKey(p.id), JArr([]))))
  {
    var data := ExportData(m, ps, exportedAt);
    var h := WriteHeader(target, data, ProjectsJson(ps));
    ImportOfExport(m, target, ps, exportedAt);
    HeaderOfExport(target, data, ps);
    ExportedProjectKeys(m, h, ps, p);
    KeysDistinct(p.id, p.id);
  }

  /** Restoring a backup: importing what `exportAllData` produced succeeds,
      stores the projects, makes the first project active (the document
      carries no active id), and leaves every exported project's columns
      and tasks keys holding what the export read, whenever that is truthy
      (`[]` for a missing or corrupt entry). */
  lemma ExportImportRoundTrip(m: map<string, Entry>, target: map<string, Entry>, ps: seq<Project>, exportedAt: string)
    ensures var r := Import(target, ExportData(m, ps, exportedAt));
            && r.ok
            && At(r.items, ProjectsKey) == Some(Parsed(JArr(ProjectsJson(ps))))
            && (ps != [] && ps[0].id != "" ==> At(r.items, ActiveProjectKey) == Some(Parsed(JStr(ps[0].id))))
            && (ps == [] || ps[0].id == "" ==> At(r.items, ActiveProjectKey) == At(target, ActiveProjectKey))
            && (forall p :: p in ps ==>
                  At(r.items, ColumnsKey(p.id)) == Written(At(target, ColumnsKey(p.id)), Some(GetFromStorage(m, ColumnsKey(p.id), JArr([]))))
                  && At(r.items, TasksKey(p.id)) == Written(At(target, TasksKey(p.id)), Some(GetFromStorage(m, TasksKey(p.id), JArr([])))))
  {
    ImportedExportHeader(m, target, ps, exportedAt);
    forall p | p in ps
      ensures var r := Import(target, ExportData(m, ps, exportedAt));
              && At(r.items, ColumnsKey(p.id)) == Written(At(target, ColumnsKey(p.id)), Some(GetFromStorage(m, ColumnsKey(p.id), JArr([]))))
              && At(r.items, TasksKey(p.id)) == Written(At(target, TasksKey(p.id)), Some(GetFromStorage(m, TasksKey(p.id), JArr([]))))
    {
      ImportedExportProject(m, target, ps, exportedAt, p);
    }
  }

  /** The `projectData` loop of an export writes each exported project's
      keys with what the store had for them, when truthy. */
  lemma ExportedProjectKeys(m: map<string, Entry>, h: map<string, Entry>, ps: seq<Project>, p: Project)
    requires p in ps
    ensures var r := WriteProjectData(h, ProjectDataOf(m, ps)).items;
            && At(r, ColumnsKey(p.id)) == Written(At(h, ColumnsKey(p.id)), Some(GetFromStorage(m, ColumnsKey(p.id), JArr([]))))
            && At(r, TasksKey(p.id)) == Written(At(h, TasksKey(p.id)), Some(GetFromStorage(m, TasksKey(p.id), JArr([]))))
  {
    var pd := ProjectDataOf(m, ps);
    assert forall i :: 0 <= i < |pd| ==> pd[i].1.JObj? by {
      forall i | 0 <= i < |pd| ensures pd[i].1.JObj? {
        assert pd[i] in pd;
      }
    }
    WriteProjectDataEffect(h, pd);
    var j :| 0 <= j < |ps| && ps[j] == p;
    assert ProjectIds(ps)[j] == p.id;
    assert p.id in Keys(pd);
    var i :| 0 <= i < |pd| && Keys(pd)[i] == p.id;
    assert pd[i] in pd;
    ProjectEntryFields(m, p.id);
  }

  /** Restoring a backup into the store it was taken from leaves every
      exported project's keys holding exactly what the export read. */
  lemma RestoreIntoSameStore(m: map<string, Entry>, ps: seq<Project>, exportedAt: string)
    ensures var r := Import(m, ExportData(m, ps, exportedAt));
            forall p :: p in ps ==>
              At(r.items, ColumnsKey(p.id)) == Some(Parsed(GetFromStorage(m, ColumnsKey(p.id), JArr([]))))
              && At(r.items, TasksKey(p.id)) == Some(Parsed(GetFromStorage(m, TasksKey(p.id), JArr([]))))
  {
    ExportImportRoundTrip(m, m, ps, exportedAt);
    forall p | p in ps
      ensures Written(At(m, ColumnsKey(p.id)), Some(GetFromStorage(m, ColumnsKey(p.id), JArr([]))))
              == Some(Parsed(GetFromStorage(m, ColumnsKey(p.id), JArr([]))))
      ensures Written(At(m, TasksKey(p.id)), Some(GetFromStorage(m, TasksKey(p.id), JArr([]))))
              == Some(Parsed(GetFromStorage(m, TasksKey(p.id), JArr([]))))
    {
      RewriteStoredValue(m, ColumnsKey(p.id));
      RewriteStoredValue(m, TasksKey(p.id));
    }
  }

  /** Writing back what was read from a key, when truthy, leaves the key as it was read. */
  lemma RewriteStoredValue(m: map<string, Entry>, key: string)
    ensures Written(At(m, key), Some(GetFromStorage(m, key, JArr([])))) == Some(Parsed(GetFromStorage(m, key, JArr([]))))
  {
  }

  /** A document whose `projectData` holds `null` makes the import report
      failure after the projects list has already been replaced. */
  lemma ImportFailsAfterWriting(m: map<string, Entry>)
    ensures var data := JObj([("projects", JArr([])), ("projectData", JObj([("a", JNull)]))]);
            var r := Import(m, data);
            !r.ok && At(r.items, ProjectsKey) == Some(Parsed(JArr([])))
  {
    var data := JObj([("projects", JArr([])), ("projectData", JObj([("a", JNull)]))]);
    ImportOutcomeCases(m, data);
    assert Entries(JObj([("a", JNull)]))[0].1 == JNull;
  }

  // ---------------------------------------------------------------- the store

  /** The browser's key-value store. */
  class Store {
    var items: map<string, Entry>

    constructor(items: map<string, Entry>)
      ensures this.items == items
    {
      this.items := items;
    }

    /** `setToStorage(key, value)`. */
    method SetToStorage(key: string, value: Json)
      modifies this
      ensures items == old(items)[key := Parsed(value)]
    {
      items := items[key := Parsed(value)];
    }

    /** `removeFromStorage(key)`. */
    method RemoveFromStorage(key: string)
      modifies this
      ensures items == old(items) - {key}
    {
      items := items - {key};
    }

    /** `clearAllKanbanData()`: collect every `kanban-` key, then remove each. */
    method ClearAllKanbanData()
      modifies this
      ensures forall k :: k in items <==> k in old(items) && !StartsWith(k, KanbanPrefix)
      ensures forall k :: k in items ==> items[k] == old(items)[k]
    {
      var keysToRemove: set<string> := {};
      var pending := items.Keys;
      while pending != {}
        invariant pending <= items.Keys
        invariant forall k :: k in keysToRemove <==> k in items && k !in pending && StartsWith(k, KanbanPrefix)
        decreases pending
      {
        var key :| key in pending;
        if StartsWith(key, KanbanPrefix) {
          keysToRemove := keysToRemove + {key};
        }
        pending := pending - {key};
      }
      ghost var before := items;
      while keysToRemove != {}
        invariant keysToRemove <= items.Keys
        invariant forall k :: k in items <==> k in before && (!StartsWith(k, KanbanPrefix) || k in keysToRemove)
        invariant forall k :: k in items ==> items[k] == before[k]
        decreases keysToRemove
      {
        var key :| key in keysToRemove;
        RemoveFromStorage(key);
        keysToRemove := keysToRemove - {key};
      }
    }

    /** `exportAllData(projects)`, with the export time given. */
    method ExportAllData(projects: seq<Project>, exportedAt: string) returns (data: Json)
      ensures data == ExportData(items, projects, exportedAt)
    {
      var projectData: seq<(string, Json)> := [];
      for i := 0 to |projects|
        invariant projectData == ProjectDataOf(items, projects[..i])
      {
        assert projects[..i + 1][..i] == projects[..i];
        projectData := SetField(projectData, projects[i].id, ProjectEntry(items, projects[i].id));
      }
      assert projects[..|projects|] == projects;
      data := JObj([("version", JNum(1)), ("exportedAt", JStr(exportedAt)),
                    ("projects", JArr(ProjectsJson(projects))), ("projectData", JObj(projectData))]);
    }

    /** `importData(data)`: the guarded writes in order, returning at the
        first failure. */
    method ImportData(data: Json) returns (ok: bool)
      modifies this
      ensures Outcome(items, ok) == Import(old(items), data)
    {
      var ps := Get(data, "projects");
      if ps.None? || !ps.value.JArr? {
        return false;
      }
      SetToStorage(ProjectsKey, ps.value);
      var activeId := ActiveIdOf(data, ps.value.elems);
      if activeId.Some? {
        SetToStorage(ActiveProjectKey, activeId.value);
      }
      assert items == WriteHeader(old(items), data, ps.value.elems);
      var pd := Get(data, "projectData");
      if pd.Some? && Truthy(pd.value) {
        ok := WriteProjectDataLoop(Entries(pd.value));
        if !ok {
          return;
        }
      }
      WriteLegacyLoop(LegacyEntries(data, "columns"), ColumnsData);
      WriteLegacyLoop(LegacyEntries(data, "tasks"), TasksData);
      return true;
    }

    /** The `projectData` loop: each entry's guarded writes, in order,
        returning `false` at the first entry that is `null`. */
    method WriteProjectDataLoop(es: seq<(string, Json)>) returns (ok: bool)
      modifies this
      ensures Outcome(items, ok) == WriteProjectData(old(items), es)
    {
      var i := 0;
      while i < |es|
        invariant 0 <= i <= |es|
        invariant WriteProjectData(items, es[i..]) == WriteProjectData(old(items), es)
      {
        var (projectId, entry) := es[i];
        assert es[i..][0] == es[i] && es[i..][1..] == es[i + 1..];
        if entry == JNull {
          return false;
        }
        var columns := Get(entry, "columns");
        if columns.Some? && Truthy(columns.value) {
          SetToStorage(ColumnsKey(projectId), columns.value);
        }
        var tasks := Get(entry, "tasks");
        if tasks.Some? && Truthy(tasks.value) {
          SetToStorage(TasksKey(projectId), tasks.value);
        }
        i := i + 1;
      }
      return true;
    }

    /** A legacy `columns` or `tasks` loop: every entry written under its project's key. */
    method WriteLegacyLoop(es: seq<(string, Json)>, kind: DataKind)
      modifies this
      ensures items == WriteLegacy(old(items), es, kind)
    {
      for i := 0 to |es|
        invariant WriteLegacy(items, es[i..], kind) == WriteLegacy(old(items), es, kind)
      {
        assert es[i..][1..] == es[i + 1..];
        SetToStorage(KeyFor(kind, es[i].0), es[i].1);
      }
    }
  }
}

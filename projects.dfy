/**
 * The project store: a list of project records (projects.json) and one
 * saved session snapshot per project, with the file system replaced by the
 * fields of a store object.
 */
module Projects {
  import opened Wrappers
  import opened Py
  import opened Snapshot

  /** A JSON value of a project record. */
  datatype Value = Str(s: string) | NoneValue | Bool(b: bool) | Int(i: int) | Strs(items: seq<string>)

  /** A project record: id, name, description, thumb, status and whatever fields updates added. */
  type Project = map<string, Value>

  /** projects.json: absent, unreadable as JSON, or holding a list of records. */
  datatype StoreFile = Missing | Unreadable | Stored(items: seq<Project>)

  /** p.get("id") == project_id */
  predicate HasId(p: Project, id: string) {
    "id" in p && p["id"] == Str(id)
  }

  /** The position of the first record with this id, |items| when there is none. */
  function FirstIndex(items: seq<Project>, id: string): (i: nat)
    ensures i <= |items|
    ensures i < |items| ==> HasId(items[i], id)
    ensures forall k :: 0 <= k < i ==> !HasId(items[k], id)
  {
    if items == [] then 0
    else if HasId(items[0], id) then 0
    else 1 + FirstIndex(items[1..], id)
  }

  /** A record of this id exists exactly when the first one is found. */
  lemma {:induction false} FoundIffExists(items: seq<Project>, id: string)
    ensures FirstIndex(items, id) < |items| <==> exists k :: 0 <= k < |items| && HasId(items[k], id)
  {
    var i := FirstIndex(items, id);
    if i == |items| {
      assert forall k :: 0 <= k < |items| ==> !HasId(items[k], id);
    } else {
      assert HasId(items[i], id);
    }
  }

  const DefaultName: string := "Новый проект"

  /** The name a new project gets: the stripped name, or the default when that is blank. */
  function ProjectName(name: string): (r: string)
    ensures r != []
    ensures Strip(name) != [] ==> r == Strip(name)
    ensures Strip(name) == [] ==> r == DefaultName
  {
    if Strip(name) == [] then DefaultName else Strip(name)
  }

  /** A fresh record with these fields, no thumb and status "new". */
  function Record(id: string, name: string, description: string): (p: Project)
    ensures HasId(p, id)
    ensures p.Keys == {"id", "name", "description", "thumb", "status"}
    ensures p["name"] == Str(name) && p["description"] == Str(description)
    ensures p["thumb"] == NoneValue && p["status"] == Str("new")
  {
    map["id" := Str(id), "name" := Str(name), "description" := Str(description),
        "thumb" := NoneValue, "status" := Str("new")]
  }

  /** The record create_project makes: its name and the stripped description. */
  function NewProject(id: string, name: string, description: string): Project {
    Record(id, ProjectName(name), Strip(description))
  }

  /** p.update(fields): the keys of both; a given field wins; every other key keeps its value. */
  function Merged(p: Project, fields: map<string, Value>): (r: Project)
    ensures r.Keys == p.Keys + fields.Keys
    ensures forall k :: k in fields ==> r[k] == fields[k]
    ensures forall k :: k in p && k !in fields ==> r[k] == p[k]
  {
    p + fields
  }

  /** [p for p in items if p.get("id") != project_id] */
  function Without(items: seq<Project>, id: string): (r: seq<Project>)
    ensures |r| <= |items|
    ensures forall k :: 0 <= k < |r| ==> !HasId(r[k], id) && r[k] in items
    ensures forall p :: p in items && !HasId(p, id) ==> p in r
    ensures |r| == |items| <==> forall k :: 0 <= k < |items| ==> !HasId(items[k], id)
  {
    if items == [] then []
    else
      var rest := Without(items[1..], id);
      assert forall p :: p in items[1..] ==> p in items;
      if HasId(items[0], id) then rest else [items[0]] + rest
  }

  /** Without a matching record the filter keeps the whole list, order included. */
  lemma {:induction false} WithoutNone(items: seq<Project>, id: string)
    requires forall k :: 0 <= k < |items| ==> !HasId(items[k], id)
    ensures Without(items, id) == items
  {
    if items != [] {
      WithoutNone(items[1..], id);
    }
  }

  /** Filtering distributes over concatenation, so the kept records stay in their order. */
  lemma {:induction false} WithoutAppend(a: seq<Project>, b: seq<Project>, id: string)
    ensures Without(a + b, id) == Without(a, id) + Without(b, id)
  {
    if a == [] {
      assert a + b == b;
    } else {
      assert (a + b)[1..] == a[1..] + b;
      WithoutAppend(a[1..], b, id);
    }
  }

  class ProjectStore {
    /** projects.json */
    var file: StoreFile
    /** snapshot.json of each project directory that has one. */
    var snapshots: map<string, Snap>

    constructor(file: StoreFile, snapshots: map<string, Snap>)
      ensures this.file == file && this.snapshots == snapshots
    {
      this.file := file;
      this.snapshots := snapshots;
    }

    /** _read_all(): the stored list, or [] when the file is missing or unreadable. */
    function Items(): (items: seq<Project>)
      reads this
      ensures file.Stored? ==> items == file.items
      ensures !file.Stored? ==> items == []
    {
      if file.Stored? then file.items else []
    }

    /** get_project(project_id): the first record with that id, None when there is none. */
    method GetProject(id: string) returns (p: Option<Project>)
      ensures p.Some? <==> FirstIndex(Items(), id) < |Items()|
      ensures p.Some? ==> p.value == Items()[FirstIndex(Items(), id)]
    {
      var items := Items();
      var i := 0;
      while i < |items|
        invariant 0 <= i <= FirstIndex(items, id)
      {
        if HasId(items[i], id) {
          return Some(items[i]);
        }
        i := i + 1;
      }
      return None;
    }

    /** create_project(name, description) with the fresh id given: the new record goes first. */
    method CreateProject(id: string, name: string, description: string) returns (p: Project)
      modifies this
      ensures p == NewProject(id, name, description)
      ensures file == Stored([p] + old(Items())) && snapshots == old(snapshots)
    {
      var items := Items();
      p := NewProject(id, name, description);
      file := Stored([p] + items);
    }

    /**
     * update_project(project_id, **fields): merge the fields into the first
     * matching record only and write the list; without a match, return None
     * and write nothing.
     */
    method UpdateProject(id: string, fields: map<string, Value>) returns (p: Option<Project>)
      modifies this
      ensures var items, i := old(Items()), FirstIndex(old(Items()), id);
              if i == |items| then p.None? && file == old(file)
              else p == Some(Merged(items[i], fields)) && file == Stored(items[i := p.value])
      ensures snapshots == old(snapshots)
    {
      var items := Items();
      var idx := 0;
      while idx < |items|
        invariant 0 <= idx <= FirstIndex(items, id)
      {
        if HasId(items[idx], id) {
          var updated := Merged(items[idx], fields);
          items := items[idx := updated];
          file := Stored(items);
          return Some(updated);
        }
        idx := idx + 1;
      }
      return None;
    }

    /** delete_project(project_id): drop every record with that id; true and written iff any was dropped. */
    method DeleteProject(id: string) returns (deleted: bool)
      modifies this
      ensures var kept := Without(old(Items()), id);
              deleted == (|kept| != |old(Items())|) &&
              (deleted ==> file == Stored(kept)) && (!deleted ==> file == old(file))
      ensures deleted <==> exists k :: 0 <= k < |old(Items())| && HasId(old(Items())[k], id)
      ensures snapshots == old(snapshots)
    {
      var items := Items();
      var newItems := Without(items, id);
      if |newItems| != |items| {
        file := Stored(newItems);
        return true;
      }
      return false;
    }

    /** save_snapshot(project_id, data) */
    method SaveSnapshot(id: string, data: Snap)
      modifies this
      ensures snapshots == old(snapshots)[id := data] && file == old(file)
    {
      snapshots := snapshots[id := data];
    }

    /** load_snapshot(project_id): None when nothing was saved for the project. */
    method LoadSnapshot(id: string) returns (r: Option<Snap>)
      ensures r == Loaded(snapshots, id)
    {
      if id in snapshots {
        return Some(snapshots[id]);
      }
      return None;
    }
  }

  /** What load_snapshot reads back from the saved snapshots. */
  function Loaded(snapshots: map<string, Snap>, id: string): (r: Option<Snap>)
    ensures r.Some? <==> id in snapshots
  {
    if id in snapshots then Some(snapshots[id]) else None
  }

  /** Saving and then loading gives back the data; other projects' snapshots are untouched. */
  lemma SaveThenLoad(snapshots: map<string, Snap>, id: string, data: Snap, other: string)
    requires other != id
    ensures Loaded(snapshots[id := data], id) == Some(data)
    ensures Loaded(snapshots[id := data], other) == Loaded(snapshots, other)
  {
  }
}

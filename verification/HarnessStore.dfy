/**
 * The harness store: any number of in-memory copies over one JSON file. A copy reloads
 * when the file's modification time is not the one it saw last. Every write is assumed
 * to give the file a modification time it never had before.
 */
module HarnessStore {
  import opened Wrappers

  type Dict = map<string, string>

  /** A JSON value, as far as loading tells values apart. */
  datatype Json = Null | Bool(b: bool) | Int(n: int) | Float | Str(s: string) | Object(d: Dict) | List

  /** An entry as stored, field by field; None is a field that is not there. Its id and kind are those of its key. */
  datatype RawEntry =
    | NotAnObject
    | Fields(title: Option<Json>, content: Option<Json>, path: Option<Json>, scope: Option<Json>,
             reference: Option<Json>, arguments: Option<Json>, metadata: Option<Json>,
             source: Option<Json>, version: Option<Json>)

  type Key = (string, string)

  /** A state file: unreadable, or a document with raw entries by kind and id. */
  datatype Content = Corrupt | Document(raw: map<Key, RawEntry>)

  datatype Scope = Local | Global

  datatype Entry = Entry(
    id: string, kind: string, title: string, content: string, path: string, scope: Scope,
    reference: Dict, arguments: Dict, metadata: Dict, source: string, version: int)

  type Store = map<Key, Entry>

  /** Makes an id from a title; when nothing is left of the title, from the kind. */
  type Slug = f: (string, string) -> string | forall title, kind :: kind != "" ==> f(title, kind) != ""
    witness (title, kind) => kind

  const KINDS: set<string> := {"prompt", "memory", "skill", "subagent"}

  // ---------------------------------------------------------------- loading and saving

  function StrOr(field: Option<Json>, default: string): string {
    if field.Some? && field.value.Str? then field.value.s else default
  }

  function DictOr(field: Option<Json>): Dict {
    if field.Some? && field.value.Object? then field.value.d else map[]
  }

  function ScopeName(scope: Scope): string {
    if scope.Local? then "local" else "global"
  }

  function DecodeScope(field: Option<Json>, own: Scope): Scope {
    if field == Some(Str(ScopeName(Local))) then Local
    else if field == Some(Str(ScopeName(Global))) then Global
    else own
  }

  function DecodeVersion(field: Option<Json>, parseInt: string -> Option<int>): int {
    match field
    case Some(Int(n)) => n
    case Some(Bool(b)) => if b then 1 else 0
    case Some(Str(s)) => if parseInt(s).Some? then parseInt(s).value else 1
    case _ => 1
  }

  /** Entries without a textual title and content are dropped; other fields are repaired. */
  function Decode(raw: RawEntry, key: Key, own: Scope, parseInt: string -> Option<int>): Option<Entry> {
    if raw.Fields? && raw.title.Some? && raw.title.value.Str? && raw.content.Some? && raw.content.value.Str? then
      Some(Entry(key.1, key.0, raw.title.value.s, raw.content.value.s, StrOr(raw.path, "general"),
                 DecodeScope(raw.scope, own), DictOr(raw.reference), DictOr(raw.arguments), DictOr(raw.metadata),
                 StrOr(raw.source, "agent"), DecodeVersion(raw.version, parseInt)))
    else None
  }

  function Encode(e: Entry): RawEntry {
    Fields(Some(Str(e.title)), Some(Str(e.content)), Some(Str(e.path)), Some(Str(ScopeName(e.scope))),
           Some(Object(e.reference)), Some(Object(e.arguments)), Some(Object(e.metadata)),
           Some(Str(e.source)), Some(Int(e.version)))
  }

  function DecodeAll(c: Content, own: Scope, parseInt: string -> Option<int>): Store {
    match c
    case Corrupt => map[]
    case Document(raw) =>
      map key | key in raw && key.0 in KINDS && Decode(raw[key], key, own, parseInt).Some?
        :: Decode(raw[key], key, own, parseInt).value
  }

  /** Which entries of a file are loaded, and how their fields are repaired. */
  lemma RepairsExactly(c: Content, key: Key, own: Scope, parseInt: string -> Option<int>)
    ensures
      var raw := if c.Document? && key in c.raw then c.raw[key] else NotAnObject;
      && (key in DecodeAll(c, own, parseInt) <==>
            && key.0 in {"prompt", "memory", "skill", "subagent"} && raw.Fields?
            && raw.title.Some? && raw.title.value.Str? && raw.content.Some? && raw.content.value.Str?)
      && (key in DecodeAll(c, own, parseInt) ==>
            var e := DecodeAll(c, own, parseInt)[key];
            && e.kind == key.0 && e.id == key.1
            && raw.title == Some(Str(e.title)) && raw.content == Some(Str(e.content))
            && (if raw.path.Some? && raw.path.value.Str? then raw.path == Some(Str(e.path)) else e.path == "general")
            && (if raw.source.Some? && raw.source.value.Str? then raw.source == Some(Str(e.source))
                else e.source == "agent")
            && (if raw.reference.Some? && raw.reference.value.Object? then raw.reference == Some(Object(e.reference))
                else e.reference == map[])
            && (if raw.arguments.Some? && raw.arguments.value.Object? then raw.arguments == Some(Object(e.arguments))
                else e.arguments == map[])
            && (if raw.metadata.Some? && raw.metadata.value.Object? then raw.metadata == Some(Object(e.metadata))
                else e.metadata == map[])
            && (if raw.scope == Some(Str("local")) then e.scope == Local
                else if raw.scope == Some(Str("global")) then e.scope == Global else e.scope == own)
            && (if raw.version.Some? && raw.version.value.Int? then raw.version == Some(Int(e.version))
                else if raw.version == Some(Bool(false)) then e.version == 0
                else if raw.version.Some? && raw.version.value.Str? && parseInt(raw.version.value.s).Some? then
                  parseInt(raw.version.value.s) == Some(e.version)
                else e.version == 1))
  {
  }

  function EncodeAll(s: Store): Content {
    Document(map key | key in s :: Encode(s[key]))
  }

  /** Every entry sits under its own kind and id. */
  predicate WellKeyed(s: Store) {
    forall key :: key in s ==> key.0 in KINDS && s[key].kind == key.0 && s[key].id == key.1
  }

  /** Loading a saved state gives it back. */
  lemma LoadOfSave(s: Store, own: Scope, parseInt: string -> Option<int>)
    requires WellKeyed(s)
    ensures DecodeAll(EncodeAll(s), own, parseInt) == s
  {
    forall key | key in s
      ensures Decode(Encode(s[key]), key, own, parseInt) == Some(s[key])
    {
      EntryRoundTrip(s[key], own, parseInt);
    }
  }

  lemma EntryRoundTrip(e: Entry, own: Scope, parseInt: string -> Option<int>)
    ensures Decode(Encode(e), (e.kind, e.id), own, parseInt) == Some(e)
  {
    ScopeRoundTrip(e.scope, own);
  }

  lemma ScopeRoundTrip(scope: Scope, own: Scope)
    ensures DecodeScope(Some(Str(ScopeName(scope))), own) == scope
  {
    assert |ScopeName(Local)| == 5 && |ScopeName(Global)| == 6;
  }

  /** Whatever the file holds, what is loaded is well keyed and saves back to an equal store. */
  lemma LoadIsRepaired(c: Content, own: Scope, parseInt: string -> Option<int>)
    ensures WellKeyed(DecodeAll(c, own, parseInt))
    ensures DecodeAll(EncodeAll(DecodeAll(c, own, parseInt)), own, parseInt) == DecodeAll(c, own, parseInt)
  {
    LoadOfSave(DecodeAll(c, own, parseInt), own, parseInt);
  }

  // ---------------------------------------------------------------- the shared store, as a specification

  /** The arguments of a write; None leaves an existing field alone. */
  datatype Fill = Fill(
    title: string, content: string, path: Option<string>,
    reference: Option<Dict>, arguments: Option<Dict>, metadata: Option<Dict>, source: string)

  function GetOr<T>(o: Option<T>, default: T): T {
    if o.Some? then o.value else default
  }

  function Written(s: Store, key: Key, f: Fill, own: Scope): Entry {
    if key in s then
      var e := s[key];
      e.(title := f.title, content := f.content, path := GetOr(f.path, e.path),
         reference := GetOr(f.reference, e.reference), arguments := GetOr(f.arguments, e.arguments),
         metadata := GetOr(f.metadata, e.metadata), source := f.source, version := e.version + 1)
    else
      Entry(key.1, key.0, f.title, f.content, GetOr(f.path, "general"), own,
            GetOr(f.reference, map[]), GetOr(f.arguments, map[]), GetOr(f.metadata, map[]), f.source, 1)
  }

  /** The in-place update of an existing entry: only the fields that were given are touched. */
  method Overwrite(existing: Entry, f: Fill) returns (e: Entry)
    ensures forall s: Store, key: Key, own: Scope :: key in s && s[key] == existing ==> e == Written(s, key, f, own)
  {
    e := existing.(title := f.title, content := f.content);
    if f.path.Some? {
      e := e.(path := f.path.value);
    }
    if f.reference.Some? {
      e := e.(reference := f.reference.value);
    }
    if f.arguments.Some? {
      e := e.(arguments := f.arguments.value);
    }
    if f.metadata.Some? {
      e := e.(metadata := f.metadata.value);
    }
    e := e.(source := f.source, version := e.version + 1);
  }

  /** What a write leaves in every field: what was given, else what was there, else the default. */
  lemma WrittenFields(s: Store, key: Key, f: Fill, own: Scope)
    requires WellKeyed(s)
    ensures
      var e, was := Written(s, key, f, own), if key in s then Some(s[key]) else None;
      && e.kind == key.0 && e.id == key.1
      && e.title == f.title && e.content == f.content && e.source == f.source
      && e.path == (if f.path.Some? then f.path.value else if was.Some? then was.value.path else "general")
      && e.reference ==
          (if f.reference.Some? then f.reference.value else if was.Some? then was.value.reference else map[])
      && e.arguments ==
          (if f.arguments.Some? then f.arguments.value else if was.Some? then was.value.arguments else map[])
      && e.metadata == (if f.metadata.Some? then f.metadata.value else if was.Some? then was.value.metadata else map[])
      && e.scope == (if was.Some? then was.value.scope else own)
      && e.version == (if was.Some? then was.value.version + 1 else 1)
  {
  }

  lemma WrittenIsWellKeyed(s: Store, key: Key, f: Fill, own: Scope)
    requires WellKeyed(s) && key.0 in KINDS
    ensures WellKeyed(s[key := Written(s, key, f, own)])
  {
  }

  datatype Failure = ReadOnly | UnknownKind | AlreadyExists | DoesNotExist

  datatype Result<+T> = Ok(value: T) | Err(failure: Failure)

  function Verdict<T>(r: Result<T>): Option<Failure> {
    if r.Ok? then None else Some(r.failure)
  }

  /** Why a request is refused, if it is; the first reason counts. */
  function Refusal(writable: bool, kind: string, conflict: Option<Failure>): Option<Failure> {
    if !writable then Some(ReadOnly) else if kind !in KINDS then Some(UnknownKind) else conflict
  }

  datatype Request =
    | Upsert(kind: string, id: string, fill: Fill)
    | Create(kind: string, id: string, fill: Fill)
    | Update(kind: string, id: string, fill: Fill)
    | Delete(kind: string, id: string)

  /** The key a request writes or deletes; only writes replace an empty id. */
  function Target(r: Request, slug: Slug): Key {
    (r.kind, if r.Delete? || r.id != "" then r.id else slug(r.fill.title, r.kind))
  }

  /** What a request does to the one store that all copies stand for. */
  function Applied(s: Store, r: Request, own: Scope, writable: bool, slug: Slug): Store {
    var key := Target(r, slug);
    if !writable || r.kind !in KINDS then s
    else match r
      case Upsert(_, _, f) => s[key := Written(s, key, f, own)]
      case Create(_, _, f) => if key in s then s else s[key := Written(s, key, f, own)]
      case Update(_, id, f) => if (r.kind, id) in s then s[key := Written(s, key, f, own)] else s
      case Delete(_, _) => s - {key}
  }

  /** Whether a request is saved; all others leave the file alone. */
  predicate Writes(s: Store, r: Request, writable: bool, slug: Slug) {
    && writable && r.kind in KINDS
    && match r
       case Upsert(_, _, _) => true
       case Create(_, _, _) => Target(r, slug) !in s
       case Update(_, id, _) => (r.kind, id) in s
       case Delete(_, _) => Target(r, slug) in s
  }

  /** A request and the copy that serves it: its scope, and whether it may write. */
  datatype Call = Call(request: Request, scope: Scope, writable: bool)

  function AppliedAll(s: Store, calls: seq<Call>, slug: Slug): Store {
    if calls == [] then s
    else
      var call := calls[|calls| - 1];
      Applied(AppliedAll(s, calls[..|calls| - 1], slug), call.request, call.scope, call.writable, slug)
  }

  /** Only deleting removes an entry, creating never overwrites one, and a version moves by at most one. */
  lemma RequestsAreGentle(s: Store, r: Request, own: Scope, writable: bool, slug: Slug, key: Key)
    requires key in s
    ensures key in Applied(s, r, own, writable, slug) <==>
              !(r.Delete? && writable && r.kind in KINDS && key == Target(r, slug))
    ensures key in Applied(s, r, own, writable, slug) ==>
              var e, e' := s[key], Applied(s, r, own, writable, slug)[key];
              && (r.Create? || key != Target(r, slug) ==> e' == e)
              && (e'.version == e.version + 1 || e' == e)
              && (e' != e ==> (r.Update? || r.Upsert?) && e'.version == e.version + 1
                              && e'.id == e.id && e'.kind == e.kind && e'.scope == e.scope)
  {
  }

  // ---------------------------------------------------------------- copies of different scope

  /** What copies of either scope make of one file: an entry without a scope gets that of the copy. */
  datatype Views = Views(local: Store, global: Store) {
    function Of(scope: Scope): Store {
      if scope.Local? then local else global
    }
  }

  function ViewsOf(c: Content, parseInt: string -> Option<int>): Views {
    Views(DecodeAll(c, Local, parseInt), DecodeAll(c, Global, parseInt))
  }

  /** A call that is saved leaves its own view to all; any other one changes nothing. */
  function Served(v: Views, call: Call, slug: Slug): Views {
    var s := v.Of(call.scope);
    if Writes(s, call.request, call.writable, slug) then
      var t := Applied(s, call.request, call.scope, call.writable, slug);
      Views(t, t)
    else v
  }

  function ServedAll(v: Views, calls: seq<Call>, slug: Slug): Views {
    if calls == [] then v else Served(ServedAll(v, calls[..|calls| - 1], slug), calls[|calls| - 1], slug)
  }

  predicate AnyWrites(v: Views, calls: seq<Call>, slug: Slug) {
    calls != [] &&
    var front, call := calls[..|calls| - 1], calls[|calls| - 1];
    || AnyWrites(v, front, slug)
    || Writes(ServedAll(v, front, slug).Of(call.scope), call.request, call.writable, slug)
  }

  /** Every entry that is loaded at all says which scope it has. */
  ghost predicate CarriesScopes(c: Content, parseInt: string -> Option<int>) {
    c.Document? ==>
      forall key :: key in c.raw && key.0 in KINDS && Decode(c.raw[key], key, Local, parseInt).Some? ==>
        c.raw[key].scope in {Some(Str(ScopeName(Local))), Some(Str(ScopeName(Global)))}
  }

  /** Copies of either scope see the same exactly if every entry carries its scope. */
  lemma ViewsAgreeExactly(c: Content, parseInt: string -> Option<int>)
    ensures ViewsOf(c, parseInt).local == ViewsOf(c, parseInt).global <==> CarriesScopes(c, parseInt)
  {
    var v := ViewsOf(c, parseInt);
    if c.Document? {
      assert v.local.Keys == v.global.Keys;
      forall key | key in v.local
        ensures v.local[key] == v.global[key] <==>
                  c.raw[key].scope in {Some(Str(ScopeName(Local))), Some(Str(ScopeName(Global)))}
      {
        ScopeDecides(c.raw[key].scope);
      }
    }
  }

  lemma ScopeDecides(field: Option<Json>)
    ensures DecodeScope(field, Local) == DecodeScope(field, Global) <==>
              field in {Some(Str(ScopeName(Local))), Some(Str(ScopeName(Global)))}
  {
    ScopeRoundTrip(Local, Global);
    ScopeRoundTrip(Global, Local);
  }

  lemma UnsavedChangesNothing(s: Store, call: Call, slug: Slug)
    requires !Writes(s, call.request, call.writable, slug)
    ensures Applied(s, call.request, call.scope, call.writable, slug) == s
  {
  }

  /** Calls from copies of one scope are calls to one store, whatever the file holds. */
  lemma {:induction false} SameScopeIsOneStore(v: Views, calls: seq<Call>, scope: Scope, slug: Slug)
    requires forall call :: call in calls ==> call.scope == scope
    ensures ServedAll(v, calls, slug).Of(scope) == AppliedAll(v.Of(scope), calls, slug)
  {
    if calls == [] {
    } else {
      var front, call := calls[..|calls| - 1], calls[|calls| - 1];
      SameScopeIsOneStore(v, front, scope, slug);
      if !Writes(ServedAll(v, front, slug).Of(scope), call.request, call.writable, slug) {
        UnsavedChangesNothing(ServedAll(v, front, slug).Of(scope), call, slug);
      }
    }
  }

  /** Once copies of both scopes see the same they always do, and their calls are calls to one store. */
  lemma {:induction false} AgreeingViewsAreOneStore(v: Views, calls: seq<Call>, slug: Slug)
    requires v.local == v.global
    ensures
      var s := AppliedAll(v.local, calls, slug);
      ServedAll(v, calls, slug) == Views(s, s)
  {
    if calls == [] {
    } else {
      var front, call := calls[..|calls| - 1], calls[|calls| - 1];
      AgreeingViewsAreOneStore(v, front, slug);
      if !Writes(ServedAll(v, front, slug).Of(call.scope), call.request, call.writable, slug) {
        UnsavedChangesNothing(ServedAll(v, front, slug).Of(call.scope), call, slug);
      }
    }
  }

  /** After any calls they see the same exactly if they did before or something was saved. */
  lemma {:induction false} ViewsMergeExactly(v: Views, calls: seq<Call>, slug: Slug)
    ensures ServedAll(v, calls, slug).local == ServedAll(v, calls, slug).global <==>
              v.local == v.global || AnyWrites(v, calls, slug)
    ensures !AnyWrites(v, calls, slug) ==> ServedAll(v, calls, slug) == v
  {
    if calls == [] {
    } else {
      ViewsMergeExactly(v, calls[..|calls| - 1], slug);
    }
  }

  // ---------------------------------------------------------------- the file and its copies

  class DiskFile {
    var present: bool
    var content: Content
    var mtime: nat

    constructor ()
      ensures !present
    {
      present, content, mtime := false, Corrupt, 0;
    }

    /** A write by anyone: the modification time is fresh. */
    method Write(c: Content)
      modifies this
      ensures present && content == c && mtime > old(mtime)
    {
      present, content, mtime := true, c, mtime + 1;
    }
  }

  class HarnessState {
    const file: DiskFile
    const scope: Scope
    const writable: bool
    const parseInt: string -> Option<int>
    const slug: Slug
    var entries: Store
    var loadedMtime: Option<nat>

    /** What copies of either scope would load. */
    function FileViews(): Views
      reads file
    {
      if file.present then ViewsOf(file.content, parseInt) else Views(map[], map[])
    }

    /** The store this copy stands for. */
    function Shared(): Store
      reads file
    {
      if file.present then DecodeAll(file.content, scope, parseInt) else map[]
    }

    lemma SharedIsOwnView()
      ensures Shared() == FileViews().Of(scope)
    {
    }

    function DiskMtime(): Option<nat>
      reads file
    {
      if file.present then Some(file.mtime) else None
    }

    /** A copy that believes itself current really is. */
    predicate Coherent()
      reads this, file
    {
      && (loadedMtime.Some? ==> file.present && loadedMtime.value <= file.mtime)
      && (loadedMtime == DiskMtime() ==> entries == Shared())
    }

    constructor (file: DiskFile, scope: Scope, writable: bool, parseInt: string -> Option<int>, slug: Slug)
      ensures Coherent() && entries == Shared()
      ensures this.file == file && this.scope == scope && this.writable == writable
      ensures this.parseInt == parseInt && this.slug == slug
    {
      this.file, this.scope, this.writable, this.parseInt, this.slug := file, scope, writable, parseInt, slug;
      entries, loadedMtime := map[], None;
      new;
      Load();
    }

    method Load()
      requires file.present || entries == map[]
      modifies this
      ensures Coherent() && entries == Shared() && loadedMtime == DiskMtime()
    {
      if !file.present {
        loadedMtime := None;
        return;
      }
      entries := DecodeAll(file.content, scope, parseInt);
      loadedMtime := Some(file.mtime);
    }

    method SyncFromDisk()
      requires Coherent()
      modifies this
      ensures Coherent() && entries == Shared()
    {
      if DiskMtime() != loadedMtime {
        Load();
      }
    }

    method Save()
      requires WellKeyed(entries)
      modifies this`loadedMtime, file
      ensures Coherent() && Shared() == entries
      ensures FileMovedOn(true)
    {
      file.Write(EncodeAll(entries));
      LoadOfSave(entries, scope, parseInt);
      LoadOfSave(entries, Local, parseInt);
      LoadOfSave(entries, Global, parseInt);
      loadedMtime := Some(file.mtime);
    }

    /** The write behind upsert, create and update; the caller has synced. */
    method Put(key: Key, f: Fill) returns (e: Entry)
      requires Coherent() && entries == Shared() && key.0 in KINDS
      modifies this, file
      ensures Coherent() && entries == Shared()
      ensures Shared() == old(Shared())[key := e] && e == Written(old(Shared()), key, f, scope)
      ensures e.kind == key.0 && e.id == key.1
      ensures e.title == f.title && e.content == f.content && e.source == f.source
      ensures
        var was := if key in old(Shared()) then Some(old(Shared())[key]) else None;
        && e.path == (if f.path.Some? then f.path.value else if was.Some? then was.value.path else "general")
        && e.reference ==
            (if f.reference.Some? then f.reference.value else if was.Some? then was.value.reference else map[])
        && e.arguments ==
            (if f.arguments.Some? then f.arguments.value else if was.Some? then was.value.arguments else map[])
        && e.metadata ==
            (if f.metadata.Some? then f.metadata.value else if was.Some? then was.value.metadata else map[])
        && e.scope == (if was.Some? then was.value.scope else scope)
        && e.version == (if was.Some? then was.value.version + 1 else 1)
      ensures FileMovedOn(true)
    {
      SharedIsWellKeyed();
      WrittenFields(entries, key, f, scope);
      if key in entries {
        e := Overwrite(entries[key], f);
      } else {
        e := Entry(key.1, key.0, f.title, f.content, GetOr(f.path, "general"), scope,
                   GetOr(f.reference, map[]), GetOr(f.arguments, map[]), GetOr(f.metadata, map[]), f.source, 1);
      }
      WrittenIsWellKeyed(entries, key, f, scope);
      entries := entries[key := e];
      Save();
    }

    lemma SharedIsWellKeyed()
      ensures WellKeyed(Shared())
    {
      if file.present {
        LoadIsRepaired(file.content, scope, parseInt);
      }
    }

    /** An empty or missing id is made from the title. */
    function EntryId(kind: string, id: Option<string>, title: string): string {
      if id.Some? && id.value != "" then id.value else slug(title, kind)
    }

    method UpsertEntry(kind: string, id: Option<string>, f: Fill) returns (r: Result<Entry>)
      requires Coherent()
      modifies this, file
      ensures Coherent() && FileMovedOn(Writes(old(Shared()), Upsert(kind, GetOr(id, ""), f), writable, slug))
      ensures Shared() == Applied(old(Shared()), Upsert(kind, GetOr(id, ""), f), scope, writable, slug)
      ensures Verdict(r) == Refusal(writable, kind, None)
      ensures r == Err(ReadOnly) <==> !writable
      ensures r == Err(UnknownKind) <==> writable && kind !in KINDS
      ensures if r.Ok? then FileMovedOn(true) else unchanged(file)
      ensures r.Ok? ==>
        var key := (kind, if id.Some? && id.value != "" then id.value else slug(f.title, kind));
        var e, was := r.value, if key in old(Shared()) then Some(old(Shared())[key]) else None;
        && Shared() == old(Shared())[key := e] && e.kind == key.0 && e.id == key.1
        && e.title == f.title && e.content == f.content && e.source == f.source
        && e.path == (if f.path.Some? then f.path.value else if was.Some? then was.value.path else "general")
        && e.reference ==
            (if f.reference.Some? then f.reference.value else if was.Some? then was.value.reference else map[])
        && e.arguments ==
            (if f.arguments.Some? then f.arguments.value else if was.Some? then was.value.arguments else map[])
        && e.metadata ==
            (if f.metadata.Some? then f.metadata.value else if was.Some? then was.value.metadata else map[])
        && e.scope == (if was.Some? then was.value.scope else scope)
        && e.version == (if was.Some? then was.value.version + 1 else 1)
      ensures r.Ok? ==> r.value == Shared()[(kind, EntryId(kind, id, f.title))]
    {
      if !writable {
        return Err(ReadOnly);
      }
      SyncFromDisk();
      if kind !in KINDS {
        return Err(UnknownKind);
      }
      var e := Put((kind, EntryId(kind, id, f.title)), f);
      return Ok(e);
    }

    method CreateEntry(kind: string, id: Option<string>, f: Fill) returns (r: Result<Entry>)
      requires Coherent()
      modifies this, file
      ensures Coherent() && FileMovedOn(Writes(old(Shared()), Create(kind, GetOr(id, ""), f), writable, slug))
      ensures Shared() == Applied(old(Shared()), Create(kind, GetOr(id, ""), f), scope, writable, slug)
      ensures
        var taken := (kind, EntryId(kind, id, f.title)) in old(Shared());
        Verdict(r) == Refusal(writable, kind, if taken then Some(AlreadyExists) else None)
      ensures r == Err(ReadOnly) <==> !writable
      ensures r == Err(UnknownKind) <==> writable && kind !in KINDS
      ensures
        var key := (kind, if id.Some? && id.value != "" then id.value else slug(f.title, kind));
        r == Err(AlreadyExists) <==> writable && kind in KINDS && key in old(Shared())
      ensures if r.Ok? then FileMovedOn(true) else unchanged(file)
      ensures r.Ok? ==>
        var key := (kind, if id.Some? && id.value != "" then id.value else slug(f.title, kind));
        var e := r.value;
        && Shared() == old(Shared())[key := e] && e.kind == key.0 && e.id == key.1
        && e.title == f.title && e.content == f.content && e.source == f.source
        && e.path == (if f.path.Some? then f.path.value else "general")
        && e.reference == (if f.reference.Some? then f.reference.value else map[])
        && e.arguments == (if f.arguments.Some? then f.arguments.value else map[])
        && e.metadata == (if f.metadata.Some? then f.metadata.value else map[])
        && e.scope == scope && e.version == 1
    {
      if !writable {
        return Err(ReadOnly);
      }
      SyncFromDisk();
      if kind !in KINDS {
        return Err(UnknownKind);
      }
      var key := (kind, EntryId(kind, id, f.title));
      if key in entries {
        return Err(AlreadyExists);
      }
      var e := Put(key, f);
      return Ok(e);
    }

    /**
     * The existence check is on the id as given, but an empty id is then replaced by the title's
     * slug, so an entry stored under the empty id is found and another one is written.
     */
    method UpdateEntry(kind: string, id: string, f: Fill) returns (r: Result<Entry>)
      requires Coherent()
      modifies this, file
      ensures Coherent() && FileMovedOn(Writes(old(Shared()), Update(kind, id, f), writable, slug))
      ensures Verdict(r) == Refusal(writable, kind, if (kind, id) in old(Shared()) then None else Some(DoesNotExist))
      ensures r == Err(ReadOnly) <==> !writable
      ensures r == Err(UnknownKind) <==> writable && kind !in KINDS
      ensures r == Err(DoesNotExist) <==> writable && kind in KINDS && (kind, id) !in old(Shared())
      ensures if r.Ok? then FileMovedOn(true) else unchanged(file)
      ensures r.Ok? ==> var key := (kind, EntryId(kind, Some(id), f.title));
                        Shared() == old(Shared())[key := r.value] && r.value == Written(old(Shared()), key, f, scope)
      ensures r.Ok? ==>
        var key := (kind, if id != "" then id else slug(f.title, kind));
        var e, was := r.value, if key in old(Shared()) then Some(old(Shared())[key]) else None;
        && Shared() == old(Shared())[key := e] && e.kind == key.0 && e.id == key.1
        && e.title == f.title && e.content == f.content && e.source == f.source
        && e.path == (if f.path.Some? then f.path.value else if was.Some? then was.value.path else "general")
        && e.reference ==
            (if f.reference.Some? then f.reference.value else if was.Some? then was.value.reference else map[])
        && e.arguments ==
            (if f.arguments.Some? then f.arguments.value else if was.Some? then was.value.arguments else map[])
        && e.metadata ==
            (if f.metadata.Some? then f.metadata.value else if was.Some? then was.value.metadata else map[])
        && e.scope == (if was.Some? then was.value.scope else scope)
        && e.version == (if was.Some? then was.value.version + 1 else 1)
      ensures Shared() == Applied(old(Shared()), Update(kind, id, f), scope, writable, slug)
      ensures r.Ok? ==> (Shared()[(kind, id)].version == old(Shared())[(kind, id)].version + 1
                         <==> id != "")
    {
      if !writable {
        return Err(ReadOnly);
      }
      SyncFromDisk();
      if kind !in KINDS {
        return Err(UnknownKind);
      }
      if (kind, id) !in entries {
        return Err(DoesNotExist);
      }
      var e := Put((kind, EntryId(kind, Some(id), f.title)), f);
      return Ok(e);
    }

    method DeleteEntry(kind: string, id: string) returns (r: Result<bool>)
      requires Coherent()
      modifies this, file
      ensures Coherent() && FileMovedOn(Writes(old(Shared()), Delete(kind, id), writable, slug))
      ensures Shared() == Applied(old(Shared()), Delete(kind, id), scope, writable, slug)
      ensures Verdict(r) == Refusal(writable, kind, None)
      ensures r == Err(ReadOnly) <==> !writable
      ensures r == Err(UnknownKind) <==> writable && kind !in KINDS
      ensures if r == Ok(true) then FileMovedOn(true) else unchanged(file)
      ensures Shared() == if r.Ok? then old(Shared()) - {(kind, id)} else old(Shared())
      ensures r.Ok? ==> (r.value <==> (kind, id) in old(Shared()))
    {
      if !writable {
        return Err(ReadOnly);
      }
      SyncFromDisk();
      if kind !in KINDS {
        return Err(UnknownKind);
      }
      if (kind, id) !in entries {
        return Ok(false);
      }
      SharedIsWellKeyed();
      entries := entries - {(kind, id)};
      Save();
      return Ok(true);
    }

    method GetEntry(kind: string, id: string) returns (r: Result<Option<Entry>>)
      requires Coherent()
      modifies this
      ensures Coherent()
      ensures r == if kind !in KINDS then Err(UnknownKind)
                   else if (kind, id) in Shared() then Ok(Some(Shared()[(kind, id)])) else Ok(None)
    {
      SyncFromDisk();
      if kind !in KINDS {
        return Err(UnknownKind);
      }
      return Ok(if (kind, id) in entries then Some(entries[(kind, id)]) else None);
    }

    /** The file was written with a fresh modification time, for copies of any scope alike, or is as before. */
    twostate predicate FileMovedOn(saved: bool)
      reads file
    {
      if saved then file.present && file.mtime > old(file.mtime) && FileViews() == Views(Shared(), Shared())
      else unchanged(file)
    }
  }

  /** Copies over the same file, of any scope and with any rights. */
  ghost predicate OneFile(copies: set<HarnessState>, c: HarnessState)
    reads copies, c.file
  {
    && c in copies
    && forall o :: o in copies ==>
         o.file == c.file && o.parseInt == c.parseInt && o.slug == c.slug && o.Coherent()
  }

  /** One request, served by one of the copies. */
  method Serve(c: HarnessState, r: Request)
    requires c.Coherent()
    modifies c, c.file
    ensures c.Coherent() && c.FileMovedOn(Writes(old(c.Shared()), r, c.writable, c.slug))
    ensures c.Shared() == Applied(old(c.Shared()), r, c.scope, c.writable, c.slug)
  {
    if r.Upsert? {
      var _ := c.UpsertEntry(r.kind, Some(r.id), r.fill);
    } else if r.Create? {
      var _ := c.CreateEntry(r.kind, Some(r.id), r.fill);
    } else if r.Update? {
      var _ := c.UpdateEntry(r.kind, r.id, r.fill);
    } else {
      var _ := c.DeleteEntry(r.kind, r.id);
    }
  }

  /** The other copies stay coherent: each is current, or knows from the modification time that it is not. */
  method ServeAmong(ghost copies: set<HarnessState>, c: HarnessState, r: Request)
    requires OneFile(copies, c)
    modifies c, c.file
    ensures OneFile(copies, c)
    ensures c.FileViews() == Served(old(c.FileViews()), Call(r, c.scope, c.writable), c.slug)
  {
    hide DecodeAll, ViewsOf, Applied, Writes;
    c.SharedIsOwnView();
    Serve(c, r);
    c.SharedIsOwnView();
  }

  /**
   * Any number of copies, of any scope and with any rights, serving any requests in any order:
   * what each copy sees in the end is every call served in turn on the views of the two scopes.
   */
  method ServeAll(ghost copies: set<HarnessState>, ghost first: HarnessState, calls: seq<(HarnessState, Request)>)
    requires OneFile(copies, first)
    requires forall call :: call in calls ==> call.0 in copies
    modifies copies, first.file
    ensures OneFile(copies, first)
    ensures forall o :: o in copies ==>
              o.Shared() == ServedAll(old(first.FileViews()), Calls(calls), first.slug).Of(o.scope)
  {
    hide DecodeAll, ViewsOf, Served;
    for k := 0 to |calls|
      invariant OneFile(copies, first)
      invariant first.FileViews() == ServedAll(old(first.FileViews()), Calls(calls[..k]), first.slug)
    {
      assert calls[k] in calls;
      ServeAmong(copies, calls[k].0, calls[k].1);
      CallsAppend(calls[..k], calls[k]);
      assert calls[..k + 1] == calls[..k] + [calls[k]];
      assert Calls(calls[..k + 1])[..k] == Calls(calls[..k]);
    }
    assert calls[..|calls|] == calls;
    forall o | o in copies
      ensures o.Shared() == first.FileViews().Of(o.scope)
    {
      o.SharedIsOwnView();
    }
  }

  function Calls(calls: seq<(HarnessState, Request)>): (cs: seq<Call>)
    ensures |cs| == |calls|
  {
    seq(|calls|, k requires 0 <= k < |calls| => Call(calls[k].1, calls[k].0.scope, calls[k].0.writable))
  }

  lemma CallsAppend(calls: seq<(HarnessState, Request)>, call: (HarnessState, Request))
    ensures Calls(calls + [call]) == Calls(calls) + [Call(call.1, call.0.scope, call.0.writable)]
  {
  }

  /** What one copy writes, every other copy reads, field by field. */
  method UpdateThenGet(writer: HarnessState, reader: HarnessState, kind: string, id: string, f: Fill)
    returns (r: Result<Entry>, seen: Result<Option<Entry>>)
    requires OneFile({writer, reader}, writer) && id != ""
    modifies writer, reader, writer.file
    ensures OneFile({writer, reader}, writer)
    ensures r.Ok? <==> writer.writable && kind in KINDS && (kind, id) in old(writer.Shared())
    ensures r.Ok? ==>
              && seen.Ok? && seen.value.Some?
              && var e, was := seen.value.value, old(writer.Shared())[(kind, id)];
                 && e.kind == kind && e.id == id && e.scope == was.scope && e.version == was.version + 1
                 && e.title == f.title && e.content == f.content && e.source == f.source
                 && e.path == (if f.path.Some? then f.path.value else was.path)
                 && e.reference == (if f.reference.Some? then f.reference.value else was.reference)
                 && e.arguments == (if f.arguments.Some? then f.arguments.value else was.arguments)
                 && e.metadata == (if f.metadata.Some? then f.metadata.value else was.metadata)
  {
    hide DecodeAll, ViewsOf, Applied, Writes, Written;
    r := writer.UpdateEntry(kind, id, f);
    writer.SharedIsOwnView();
    reader.SharedIsOwnView();
    seen := reader.GetEntry(kind, id);
  }

  /** Updating under the empty id: the entry that is found stays as it is, and another one is written. */
  method UpdateUnderEmptyId(slug: Slug, parseInt: string -> Option<int>, f: Fill)
    returns (state: HarnessState, r: Result<Entry>)
    ensures fresh(state) && state.Coherent() && r.Ok?
    ensures ("memory", "") in state.Shared() && state.Shared()[("memory", "")].version == 1
    ensures
      var key := ("memory", slug(f.title, "memory"));
      key != ("memory", "") && key in state.Shared() && state.Shared()[key] == r.value
  {
    var file := new DiskFile();
    var stored := Entry("", "memory", "a title", "some content", "general", Local, map[], map[], map[], "agent", 1);
    var store: Store := map[("memory", "") := stored];
    file.Write(EncodeAll(store));
    LoadOfSave(store, Local, parseInt);
    state := new HarnessState(file, Local, true, parseInt, slug);
    r := state.UpdateEntry("memory", "", f);
  }
}

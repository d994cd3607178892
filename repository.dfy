/** The file-backed repository. The whole table of long URLs to short codes (the
    manifest) is one JSON object in the file `<basePath>/db.txt`; every operation
    loads it afresh and `Create` rewrites the whole file. */
module Repository {

  import opened Results
  import opened ShortenedUrl

  /** The manifest: long URL to short code. */
  type Manifest = map<string, string>

  const EmptyMessage: string := "Shortened URL is empty"
  const ExistsMessage: string := "Shortened URL already exists"
  const NotCreatedMessage: string := "Shortened URL could not be created"
  const NotFoundMessage: string := "Shortened URL does not exist"
  const DbFileName: string := "/db.txt"
  /** The run-time error Go raises on an assignment into a nil map. */
  const NilMapPanic: string := "assignment to entry in nil map"

  /** Indexing a Go `map[string]string`: a missing key reads as the empty string,
      so an entry whose value is "" is indistinguishable from no entry. */
  function Lookup(m: Manifest, key: string): string
  {
    if key in m then m[key] else ""
  }

  /** What a file holds: something that cannot be read or parsed as a JSON
      object of strings; the JSON literal `null`, which `json.Unmarshal` accepts
      and decodes as a nil map; or a JSON object of strings. A path with no file
      is not in the disk's map at all. */
  datatype StoredFile = Unreadable | Null | Json(entries: Manifest)

  /** The local file system, the only state the repository touches. */
  class Disk {
    var files: map<string, StoredFile>

    constructor (files: map<string, StoredFile>)
      ensures this.files == files
    {
      this.files := files;
    }
  }

  /** `loadManifest`: the stored object, or the empty manifest when the file is
      missing, unreadable, not a JSON object of strings, or `null`. */
  function LoadManifest(files: map<string, StoredFile>, path: string): (m: Manifest)
    ensures path in files && files[path].Json? ==> m == files[path].entries
    ensures path !in files || !files[path].Json? ==> m == map[]
  {
    if path in files && files[path].Json? then files[path].entries else map[]
  }

  /** Whether `loadManifest` returns a nil map: only a file holding `null` does.
      Every other path returns a map literal or the decoded object, which can be
      written to. */
  predicate LoadsNil(files: map<string, StoredFile>, path: string)
  {
    path in files && files[path].Null?
  }

  /** `saveManifest`: overwrites the file with the whole manifest, or fails and
      leaves it as it was. Whether the write succeeds is up to the environment. */
  method SaveManifest(disk: Disk, path: string, data: Manifest) returns (saved: bool)
    modifies disk
    ensures saved ==> disk.files == old(disk.files)[path := Json(data)]
    ensures !saved ==> disk.files == old(disk.files)
  {
    saved :| true;
    if saved {
      disk.files := disk.files[path := Json(data)];
    }
  }

  /** A manifest that was saved is what the next load returns. */
  lemma SaveThenLoad(files: map<string, StoredFile>, path: string, data: Manifest)
    ensures LoadManifest(files[path := Json(data)], path) == data
  {
  }

  /** Saving under one path string does not change what any other path string
      loads. The disk keys files by their exact path string. */
  lemma SaveLeavesOtherPaths(files: map<string, StoredFile>, path: string, other: string, data: Manifest)
    requires other != path
    ensures LoadManifest(files[path := Json(data)], other) == LoadManifest(files, other)
  {
  }

  /** What `Create` does to a loaded manifest `m` (`isNil` when it is a nil
      map): reject the entity, insert it, or panic on the insertion into a nil
      map. */
  datatype CreatePlan = Reject(message: string) | Insert(manifest: Manifest) | Abort

  function PlanCreate(m: Manifest, isNil: bool, u: ShortenedURL): CreatePlan
  {
    if u.GetLong() == "" || u.GetShort() == "" then Reject(EmptyMessage)
    else if Lookup(m, u.GetLong()) != "" then Reject(ExistsMessage)
    else if isNil then Abort
    else Insert(m[u.GetLong() := u.GetShort()])
  }

  /** Create accepts exactly the entities with both fields non-empty whose long
      URL is not yet mapped to a non-empty code, provided the manifest is not a
      nil map; it reports which check failed, and panics only after both checks
      passed on a nil map. */
  lemma PlanCreateAccepts(m: Manifest, isNil: bool, u: ShortenedURL)
    ensures PlanCreate(m, isNil, u).Insert? <==> u.GetLong() != "" && u.GetShort() != "" && Lookup(m, u.GetLong()) == "" && !isNil
    ensures PlanCreate(m, isNil, u).Abort? <==> u.GetLong() != "" && u.GetShort() != "" && Lookup(m, u.GetLong()) == "" && isNil
    ensures u.GetLong() == "" || u.GetShort() == "" ==> PlanCreate(m, isNil, u) == Reject(EmptyMessage)
    ensures u.GetLong() != "" && u.GetShort() != "" && Lookup(m, u.GetLong()) != "" ==> PlanCreate(m, isNil, u) == Reject(ExistsMessage)
  {
  }

  /** An accepted entity is added under its long URL and every other entry is kept. */
  lemma PlanCreateFrame(m: Manifest, isNil: bool, u: ShortenedURL)
    requires PlanCreate(m, isNil, u).Insert?
    ensures var m' := PlanCreate(m, isNil, u).manifest;
      && m'.Keys == m.Keys + {u.GetLong()}
      && m'[u.GetLong()] == u.GetShort()
      && forall k :: k in m && k != u.GetLong() ==> m'[k] == m[k]
  {
  }

  /** The direct lookup by long URL that `Retrieve` tries first. */
  predicate FoundByLong(m: Manifest, long: string)
  {
    long != "" && Lookup(m, long) != ""
  }

  /** The outcomes `Retrieve` allows. A long URL mapped to a non-empty code wins
      and the short field is not consulted; otherwise a non-empty short code is
      looked for among the values, and since Go's map order is unspecified any
      entry holding it may be returned; otherwise the lookup fails. */
  predicate RetrieveAllows(m: Manifest, u: ShortenedURL, r: Result<ShortenedURL>)
  {
    if FoundByLong(m, u.GetLong()) then
      r == Ok(New(u.GetLong(), m[u.GetLong()]))
    else if u.GetShort() != "" && u.GetShort() in m.Values then
      && r.Ok?
      && r.value.GetShort() == u.GetShort()
      && r.value.GetLong() in m
      && m[r.value.GetLong()] == u.GetShort()
    else
      r == Err(NotFoundMessage)
  }

  /** The repository: Go's `FileSystem` struct, a value holding the base path. */
  datatype FileSystem = FileSystem(basePath: string) {

    /** `getPathToDbFile`: the file `db.txt` directly under the base path. */
    function DbPath(): (p: string)
      ensures |p| == |basePath| + |DbFileName|
      ensures p[..|basePath|] == basePath && p[|basePath|..] == DbFileName
    {
      basePath + DbFileName
    }

    /** `Create`: validate, load, refuse a long URL that is already mapped,
        insert, save. The insertion panics when the manifest is a nil map. */
    method Create(disk: Disk, u: ShortenedURL) returns (r: Outcome<Result<ShortenedURL>>)
      modifies disk
      ensures match PlanCreate(LoadManifest(old(disk.files), DbPath()), LoadsNil(old(disk.files), DbPath()), u)
        case Reject(message) =>
          r == Returned(Err(message)) && disk.files == old(disk.files)
        case Insert(m') =>
          || (r == Returned(Ok(u)) && disk.files == old(disk.files)[DbPath() := Json(m')])
          || (r == Returned(Err(NotCreatedMessage)) && disk.files == old(disk.files))
        case Abort =>
          r == Panicked(NilMapPanic) && disk.files == old(disk.files)
    {
      if u.GetLong() == "" || u.GetShort() == "" {
        return Returned(Err(EmptyMessage));
      }
      var path := DbPath();
      var m := LoadManifest(disk.files, path);
      if Lookup(m, u.GetLong()) != "" {
        return Returned(Err(ExistsMessage));
      }
      if LoadsNil(disk.files, path) {
        return Panicked(NilMapPanic);
      }
      m := m[u.GetLong() := u.GetShort()];
      var saved := SaveManifest(disk, path, m);
      if !saved {
        return Returned(Err(NotCreatedMessage));
      }
      return Returned(Ok(u));
    }

    /** `Retrieve`: direct lookup by long URL, then a scan of the manifest for
        the short code. */
    method Retrieve(disk: Disk, u: ShortenedURL) returns (r: Result<ShortenedURL>)
      ensures RetrieveAllows(LoadManifest(disk.files, DbPath()), u, r)
    {
      var m := LoadManifest(disk.files, DbPath());
      if u.GetLong() != "" && Lookup(m, u.GetLong()) != "" {
        return Ok(New(u.GetLong(), Lookup(m, u.GetLong())));
      }
      if u.GetShort() != "" {
        var unvisited := m.Keys;
        while unvisited != {}
          invariant unvisited <= m.Keys
          invariant forall long :: long in m && long !in unvisited ==> m[long] != u.GetShort()
          decreases unvisited
        {
          var long :| long in unvisited;
          var short := m[long];
          if u.GetShort() == short {
            return Ok(New(long, short));
          }
          unvisited := unvisited - {long};
        }
      }
      return Err(NotFoundMessage);
    }

    /** `RetrieveByLongURL` of the repository interface, as `Retrieve(New(l, ""))`:
        deterministic, since the empty short code never matches. */
    method RetrieveByLongURL(disk: Disk, l: string) returns (r: Result<ShortenedURL>)
      ensures var m := LoadManifest(disk.files, DbPath());
        r == if FoundByLong(m, l) then Ok(New(l, m[l])) else Err(NotFoundMessage)
    {
      r := Retrieve(disk, New(l, ""));
    }

    /** `RetrieveByShortCode` of the repository interface, as `Retrieve(New("", s))`:
        succeeds exactly when some entry holds the non-empty code `s`, and then
        returns such an entry. */
    method RetrieveByShortCode(disk: Disk, s: string) returns (r: Result<ShortenedURL>)
      ensures var m := LoadManifest(disk.files, DbPath());
        && (r.Ok? <==> s != "" && s in m.Values)
        && (r.Ok? ==> r.value.GetShort() == s && r.value.GetLong() in m && m[r.value.GetLong()] == s)
        && (r.Err? ==> r.message == NotFoundMessage)
    {
      r := Retrieve(disk, New("", s));
    }

    /** `Update` is an unimplemented stub: it returns its input and no error. */
    method Update(u: ShortenedURL) returns (r: Result<ShortenedURL>)
      ensures r == Ok(u)
    {
      return Ok(u);
    }

    /** `Delete` is an unimplemented stub: it returns its input and no error. */
    method Delete(u: ShortenedURL) returns (r: Result<ShortenedURL>)
      ensures r == Ok(u)
    {
      return Ok(u);
    }
  }

  /** `New(p)`: a repository rooted at `p`. */
  function NewFileSystem(p: string): (f: FileSystem)
    ensures f.basePath == p
  {
    FileSystem(p)
  }

  /** Two repositories have the same database path string exactly when their
      base path strings are equal. */
  lemma DbPathShape(f: FileSystem, g: FileSystem)
    ensures f.DbPath() == g.DbPath() <==> f.basePath == g.basePath
  {
    if f.DbPath() == g.DbPath() {
      assert |f.basePath| == |g.basePath|;
      assert f.basePath == f.DbPath()[..|f.basePath|];
      assert g.basePath == g.DbPath()[..|g.basePath|];
    }
  }

  /** After a successful `Create`, retrieval by the long URL returns exactly the
      created entity, and retrieval by its short code succeeds. The entity found
      by short code need not be the created one: nothing stops another long URL
      from holding the same code. */
  lemma CreatedIsRetrievable(m: Manifest, isNil: bool, u: ShortenedURL, r: Result<ShortenedURL>)
    requires PlanCreate(m, isNil, u).Insert?
    ensures var m' := PlanCreate(m, isNil, u).manifest;
      && FoundByLong(m', u.GetLong())
      && RetrieveAllows(m', New(u.GetLong(), ""), Ok(u))
      && (RetrieveAllows(m', New("", u.GetShort()), r) ==> r.Ok? && r.value.GetShort() == u.GetShort())
  {
    var m' := PlanCreate(m, isNil, u).manifest;
    assert m'[u.GetLong()] == u.GetShort();
    assert u.GetShort() in m'.Values;
  }
}

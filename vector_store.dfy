/**
  The registry of named vector stores of services/vector_store.py. Every store
  is a directory below the base directory DB_DIR, and the service learns which
  stores exist only by listing that directory. The listing is kept here as an
  abstract value (`Listing`) that the service's methods read and update; what
  Chroma writes inside a store's directory is not part of the model.
*/
module VectorStore {
  import opened Wrappers

  /** The Python value a validator receives: the validators test `isinstance(v, str)` and `isinstance(v, list)`. */
  datatype PyValue = Str(s: string) | List(items: seq<PyValue>) | Other

  /** The ValueError messages of the service, one constructor per message. */
  datatype StoreError =
    | NameNotString                         // "Store name must be a string."
    | EmptyName                             // "Store name cannot be empty."
    | ExistingNotStringList                 // "Existing stores must be a non-empty list of strings."
    | StoreMissing(store: PyValue)          // "Vector store '<name>' does not exist."
    | StoreAlreadyExists(name: string)      // "Vector store '<name>' already exists."
    | FileTypeNotString                     // "File type must be a string."
    | UnsupportedFileType(fileType: string) // "Unsupported file type: <type>."
    | DeleteFailed(name: string)            // "Failed to delete vector store '<name>': <OSError>"
    | PersistFailed(name: string)           // raised by Chroma, see OpenPersistDirectory

  /** The file types `_validate_file_type` accepts, in the order the source lists them. */
  const SupportedFileTypes: seq<string> := ["json", "pdf", "csv", "web"]

  // ---------------------------------------------------------------- validators

  /** `_validate_store_name`: a store name must be a non-empty string. */
  function ValidateStoreName(name: PyValue): (r: Outcome<StoreError>)
    ensures r.Pass? <==> name.Str? && name.s != ""
    ensures !name.Str? ==> r == Fail(NameNotString)
    ensures name == Str("") ==> r == Fail(EmptyName)
  {
    if !name.Str? then Fail(NameNotString)
    else if |name.s| == 0 then Fail(EmptyName)
    else Pass
  }

  /** True when every item of a Python list is a string. */
  predicate AllStrings(items: seq<PyValue>)
  {
    forall i | 0 <= i < |items| :: items[i].Str?
  }

  /**
    `_validate_store_exists`: `existing` must be a list of strings (it may be
    empty, whatever the message says) and must hold `name`.
  */
  function ValidateStoreExists(existing: PyValue, name: PyValue): (r: Outcome<StoreError>)
    ensures r.Pass? <==> existing.List? && AllStrings(existing.items) && name in existing.items
    ensures !existing.List? || !AllStrings(existing.items) ==> r == Fail(ExistingNotStringList)
    ensures existing.List? && AllStrings(existing.items) && name !in existing.items ==> r == Fail(StoreMissing(name))
  {
    if !existing.List? || !AllStrings(existing.items) then Fail(ExistingNotStringList)
    else if name !in existing.items then Fail(StoreMissing(name))
    else Pass
  }

  /** `_validate_file_type`: only the strings json, pdf, csv and web are accepted. */
  function ValidateFileType(fileType: PyValue): (r: Outcome<StoreError>)
    ensures r.Pass? <==> fileType == Str("json") || fileType == Str("pdf") || fileType == Str("csv") || fileType == Str("web")
    ensures !fileType.Str? ==> r == Fail(FileTypeNotString)
    ensures fileType.Str? && !r.Pass? ==> r == Fail(UnsupportedFileType(fileType.s))
  {
    if !fileType.Str? then Fail(FileTypeNotString)
    else if fileType.s !in SupportedFileTypes then Fail(UnsupportedFileType(fileType.s))
    else Pass
  }

  // ---------------------------------------------------------------- loading files

  /** The document loader `_load_file` constructs; what its `.load()` reads is not modelled. */
  datatype Loader =
    | JsonLoader(path: string, jqSchema: string, textContent: bool)
    | PyPdfLoader(path: string)
    | CsvLoader(path: string)
    | WebBaseLoader(path: string)
  {
    /** The file type this loader reads. */
    function Kind(): string
    {
      match this
      case JsonLoader(_, _, _) => "json"
      case PyPdfLoader(_) => "pdf"
      case CsvLoader(_) => "csv"
      case WebBaseLoader(_) => "web"
    }
  }

  /**
    The if/elif chain of `_load_file`. Python returns None when no branch
    matches; here that is `None`, and it happens for exactly the types that the
    validator rejects, so every accepted type has its own branch.
  */
  function Dispatch(path: string, fileType: string): (r: Option<Loader>)
    ensures r.Some? <==> fileType in SupportedFileTypes
    ensures r.Some? ==> r.value.Kind() == fileType && r.value.path == path
    ensures r == Some(JsonLoader(path, ".", false)) <==> fileType == "json"
  {
    if fileType == "json" then Some(JsonLoader(path, ".", false))
    else if fileType == "pdf" then Some(PyPdfLoader(path))
    else if fileType == "csv" then Some(CsvLoader(path))
    else if fileType == "web" then Some(WebBaseLoader(path))
    else None
  }

  /** `_load_file`: the file type is validated before the dispatch, so a loader is chosen iff the type is valid. */
  function LoadFile(path: string, fileType: PyValue): (r: Result<Loader, StoreError>)
    ensures r.Success? <==> ValidateFileType(fileType).Pass?
    ensures r.Failure? ==> Fail(r.error) == ValidateFileType(fileType)
    ensures r.Success? ==> fileType.Str? && r.value.Kind() == fileType.s && r.value.path == path
  {
    var checked := ValidateFileType(fileType);
    if checked.Fail? then Failure(checked.error)
    else match Dispatch(path, fileType.s)
      case Some(loader) => Success(loader)
      // the fall-through of the if/elif chain: the validation above rules it out
      case None => assert false; Failure(FileTypeNotString)
  }

  // ---------------------------------------------------------------- the directory listing

  /** One entry of `os.listdir(DB_DIR)`; `isDirectory` is what `os.path.isdir` says of it. */
  datatype Entry = Entry(name: string, isDirectory: bool)

  /** The contents of DB_DIR in listing order, or None when DB_DIR does not exist. */
  type Listing = Option<seq<Entry>>

  /** A directory never lists two entries under one name. */
  predicate DistinctNames(entries: seq<Entry>)
  {
    forall i, j | 0 <= i < j < |entries| :: entries[i].name != entries[j].name
  }

  /** `os.listdir` never returns an empty name. */
  predicate NonEmptyNames(entries: seq<Entry>)
  {
    forall e | e in entries :: e.name != ""
  }

  predicate WellFormed(listing: Listing)
  {
    listing.Some? ==> DistinctNames(listing.value) && NonEmptyNames(listing.value)
  }

  /** DB_DIR/name exists and is a directory. */
  predicate IsDirectory(listing: Listing, name: string)
  {
    listing.Some? && Entry(name, true) in listing.value
  }

  /** DB_DIR/name exists and is not a directory. */
  predicate IsPlainFile(listing: Listing, name: string)
  {
    listing.Some? && Entry(name, false) in listing.value
  }

  /** In a well-formed listing a name is a directory or a plain file, never both. */
  lemma DirectoryIsNotPlainFile(listing: Listing, name: string)
    requires WellFormed(listing) && IsDirectory(listing, name)
    ensures !IsPlainFile(listing, name)
  {
  }

  /** The list comprehension of `get_all`: the names of the entries that are directories, in listing order. */
  function DirectoryNames(entries: seq<Entry>): (r: seq<string>)
    ensures |r| <= |entries|
    ensures forall n :: n in r <==> Entry(n, true) in entries
  {
    if entries == [] then []
    else
      var rest := DirectoryNames(entries[1..]);
      assert forall e :: e in entries <==> e == entries[0] || e in entries[1..];
      if entries[0].isDirectory then [entries[0].name] + rest else rest
  }

  /** `get_all`: no store when DB_DIR is missing, otherwise exactly the sub-directories of DB_DIR. */
  function StoreNames(listing: Listing): (r: seq<string>)
    ensures listing.None? ==> r == []
    ensures forall n :: n in r <==> IsDirectory(listing, n)
  {
    match listing
    case None => []
    case Some(entries) => DirectoryNames(entries)
  }

  /** The list of Python strings `get_all` returns, as the value `_validate_store_exists` receives. */
  function PyStrings(names: seq<string>): (r: seq<PyValue>)
    ensures |r| == |names|
    ensures forall i | 0 <= i < |names| :: r[i] == Str(names[i])
  {
    seq(|names|, i requires 0 <= i < |names| => Str(names[i]))
  }

  /** `_validate_store_exists` on the result of `get_all` agrees with `exists`. */
  lemma ValidateStoreExistsAgreesWithListing(listing: Listing, name: PyValue)
    ensures ValidateStoreExists(List(PyStrings(StoreNames(listing))), name).Pass?
            <==> name.Str? && IsDirectory(listing, name.s)
  {
  }

  /** `os.path.join(a, b)` on POSIX: an absolute `b` replaces `a`, otherwise one separator joins them. */
  function JoinPath(a: string, b: string): (r: string)
    ensures |b| <= |r| && r[|r| - |b|..] == b
    ensures |b| > 0 && b[0] == '/' ==> r == b
    ensures !(|b| > 0 && b[0] == '/') ==> |a| + |b| <= |r| <= |a| + |b| + 1 && r[..|a|] == a
    ensures !(|b| > 0 && b[0] == '/') && a != "" ==> r[|r| - |b| - 1] == '/'
    ensures !(|b| > 0 && b[0] == '/') ==> (|r| == |a| + |b| <==> a == "" || a[|a| - 1] == '/')
  {
    if |b| > 0 && b[0] == '/' then b
    else if a == "" || a[|a| - 1] == '/' then a + b
    else a + "/" + b
  }

  /**
    ASSUMPTION ABOUT CHROMA, whose persistence is not part of this model:
    opening a Chroma store on the persist directory DB_DIR/name creates that
    directory (and DB_DIR) when missing, keeps an existing one, and fails when
    a plain file occupies the path. An empty name makes the path DB_DIR itself.
  */
  function OpenPersistDirectory(listing: Listing, name: string): (r: Result<Listing, StoreError>)
    ensures r.Failure? <==> name != "" && IsPlainFile(listing, name) && !IsDirectory(listing, name)
    ensures r.Failure? ==> r.error == PersistFailed(name)
    ensures r.Success? ==> r.value.Some?
    ensures r.Success? && name != "" ==> IsDirectory(r.value, name)
    ensures r.Success? && WellFormed(listing) ==> WellFormed(r.value)
    ensures r.Success? ==> forall n | n != name :: IsDirectory(r.value, n) <==> IsDirectory(listing, n)
    ensures r.Success? ==> forall n | n != name :: IsPlainFile(r.value, n) <==> IsPlainFile(listing, n)
    ensures IsDirectory(listing, name) ==> r == Success(listing)
  {
    if name == "" then Success(Some(if listing.Some? then listing.value else []))
    else if listing.None? then Success(Some([Entry(name, true)]))
    else if IsDirectory(listing, name) then Success(listing)
    else if IsPlainFile(listing, name) then Failure(PersistFailed(name))
    else
      var entries := listing.value;
      assert forall i | 0 <= i < |entries| :: entries[i].name != name by {
        forall i | 0 <= i < |entries| ensures entries[i].name != name {
          assert entries[i] in entries;
        }
      }
      Success(Some(entries + [Entry(name, true)]))
  }

  /** The listing after `shutil.rmtree(DB_DIR/name)` succeeded: every entry named `name` is gone, nothing else. */
  function Without(entries: seq<Entry>, name: string): (r: seq<Entry>)
    ensures forall e :: e in r <==> e in entries && e.name != name
    ensures DistinctNames(entries) ==> DistinctNames(r)
  {
    if entries == [] then []
    else
      var rest := Without(entries[1..], name);
      assert forall e :: e in entries <==> e == entries[0] || e in entries[1..];
      if entries[0].name == name then rest
      else
        assert DistinctNames(entries) ==> forall e | e in rest :: e.name != entries[0].name by {
          if DistinctNames(entries) {
            forall e | e in rest ensures e.name != entries[0].name {
              var j :| 0 <= j < |entries[1..]| && entries[1..][j] == e;
              assert entries[j + 1] == e;
            }
          }
        }
        [entries[0]] + rest
  }

  // ---------------------------------------------------------------- the service

  /** A Chroma store as the service opens it: collection name, embedding model and persist directory. */
  datatype Chroma = Chroma(collectionName: string, embeddingModel: string, persistDirectory: string)

  class VectorStoreService {
    /** DB_DIR, read from the environment by the constructor. */
    const baseDir: string
    /** EMBEDDING_MODEL, which the source reads from the environment whenever a store is opened; fixed here for the service's lifetime. */
    const embeddingModel: string
    /** The file system below DB_DIR, as far as the service looks at it. */
    var root: Listing

    ghost predicate Valid()
      reads this
    {
      WellFormed(root)
    }

    constructor (baseDir: string, embeddingModel: string, root: Listing)
      requires WellFormed(root)
      ensures Valid()
      ensures this.baseDir == baseDir && this.embeddingModel == embeddingModel && this.root == root
    {
      this.baseDir := baseDir;
      this.embeddingModel := embeddingModel;
      this.root := root;
    }

    /** The Chroma object the service opens for the store `name`. */
    function Handle(name: string): Chroma
    {
      Chroma(name, embeddingModel, JoinPath(baseDir, name))
    }

    /** `get_all`: nothing when DB_DIR is missing, otherwise the names of its sub-directories. */
    function GetAll(): (r: seq<string>)
      reads this
      ensures root.None? ==> r == []
      ensures forall n :: n in r <==> IsDirectory(root, n)
    {
      StoreNames(root)
    }

    /** `exists`: `name in get_all()`; only a string can equal a listed name. */
    function Exists(name: PyValue): (r: bool)
      reads this
      ensures r <==> name.Str? && IsDirectory(root, name.s)
    {
      name.Str? && name.s in GetAll()
    }

    /** `get`: opens an existing store; the name is validated first, then looked up. */
    method Get(name: PyValue) returns (r: Result<Chroma, StoreError>)
      ensures !name.Str? ==> r == Failure(NameNotString)
      ensures name == Str("") ==> r == Failure(EmptyName)
      ensures name.Str? && name.s != "" && !IsDirectory(root, name.s) ==> r == Failure(StoreMissing(name))
      ensures name.Str? && name.s != "" && IsDirectory(root, name.s) ==> r == Success(Handle(name.s))
    {
      var valid := ValidateStoreName(name);
      if valid.Fail? {
        return Failure(valid.error);
      }
      if !Exists(name) {
        return Failure(StoreMissing(name));
      }
      // opening Chroma on a directory that exists leaves the listing as it is (see OpenPersistDirectory)
      r := Success(Handle(name.s));
    }

    /**
      `create`: validates the name, refuses a name that already exists, and
      opens a new Chroma store. That the directory then appears is the
      assumption about Chroma stated at OpenPersistDirectory.
    */
    method Create(name: PyValue) returns (r: Result<Chroma, StoreError>)
      requires Valid()
      modifies this
      ensures Valid()
      ensures r.Failure? ==> root == old(root)
      ensures !name.Str? ==> r == Failure(NameNotString)
      ensures name == Str("") ==> r == Failure(EmptyName)
      ensures name.Str? && name.s != "" && IsDirectory(old(root), name.s) ==> r == Failure(StoreAlreadyExists(name.s))
      ensures name.Str? && name.s != "" && IsPlainFile(old(root), name.s) ==> r == Failure(PersistFailed(name.s))
      ensures r.Success? <==> name.Str? && name.s != "" && !IsDirectory(old(root), name.s) && !IsPlainFile(old(root), name.s)
      ensures r.Success? ==> r.value == Handle(name.s) && IsDirectory(root, name.s)
      ensures r.Success? ==> forall n | n != name.s :: IsDirectory(root, n) <==> IsDirectory(old(root), n)
      ensures r.Success? ==> forall n | n != name.s :: IsPlainFile(root, n) <==> IsPlainFile(old(root), n)
    {
      var valid := ValidateStoreName(name);
      if valid.Fail? {
        return Failure(valid.error);
      }
      if Exists(name) {
        DirectoryIsNotPlainFile(root, name.s);
        return Failure(StoreAlreadyExists(name.s));
      }
      var persisted := OpenPersistDirectory(root, name.s);
      if persisted.Failure? {
        return Failure(persisted.error);
      }
      root := persisted.value;
      r := Success(Handle(name.s));
    }

    /**
      `update`: loads the file with the loader for its type and adds its
      chunks to the store. The store name is neither validated nor looked up:
      Chroma creates a missing store (the assumption at OpenPersistDirectory).
    */
    method Update(file: string, storeName: string, fileType: PyValue) returns (r: Outcome<StoreError>)
      requires Valid()
      modifies this
      ensures Valid()
      ensures r.Fail? ==> root == old(root)
      ensures ValidateFileType(fileType).Fail? ==> r == ValidateFileType(fileType)
      ensures r.Pass? <==> ValidateFileType(fileType).Pass? && !(storeName != "" && IsPlainFile(old(root), storeName))
      ensures r.Pass? && storeName != "" ==> IsDirectory(root, storeName)
      ensures r.Pass? ==> forall n | n != storeName :: IsDirectory(root, n) <==> IsDirectory(old(root), n)
      ensures r.Pass? ==> forall n | n != storeName :: IsPlainFile(root, n) <==> IsPlainFile(old(root), n)
    {
      var docs := LoadFile(file, fileType);
      if docs.Failure? {
        return Fail(docs.error);
      }
      // splitting into chunks of 1000 characters with an overlap of 100, and embedding them, is not modelled
      var persisted := OpenPersistDirectory(root, storeName);
      if persisted.Failure? {
        return Fail(persisted.error);
      }
      root := persisted.value;
      r := Pass;
    }

    /**
      `delete`: refuses a store that does not exist, then removes its
      directory. `removalFails` stands for `shutil.rmtree` raising OSError;
      rmtree removes the top directory last, so the listing is then unchanged.
    */
    method Delete(name: PyValue, removalFails: bool) returns (r: Outcome<StoreError>)
      requires Valid()
      modifies this
      ensures Valid()
      ensures r.Fail? ==> root == old(root)
      ensures !(name.Str? && IsDirectory(old(root), name.s)) ==> r == Fail(StoreMissing(name))
      ensures name == Str("") ==> r == Fail(StoreMissing(name))
      ensures name.Str? && IsDirectory(old(root), name.s) && removalFails ==> r == Fail(DeleteFailed(name.s))
      ensures r.Pass? <==> name.Str? && IsDirectory(old(root), name.s) && !removalFails
      ensures r.Pass? ==> !IsDirectory(root, name.s)
      ensures r.Pass? ==> root.Some? && forall e :: e in root.value <==> e in old(root).value && e.name != name.s
    {
      if !Exists(name) {
        return Fail(StoreMissing(name));
      }
      if removalFails {
        return Fail(DeleteFailed(name.s));
      }
      root := Some(Without(root.value, name.s));
      r := Pass;
    }
  }

  /** A store that `create` has just made can be opened with `get` (under the assumption about Chroma). */
  method CreateThenGet(service: VectorStoreService, name: string) returns (created: Result<Chroma, StoreError>, got: Result<Chroma, StoreError>)
    requires service.Valid()
    modifies service
    ensures created.Success? ==> got == created
  {
    created := service.Create(Str(name));
    got := service.Get(Str(name));
  }

  /** `delete` is not idempotent: deleting the same store twice makes the second call fail. */
  method DeleteTwice(service: VectorStoreService, name: string) returns (first: Outcome<StoreError>, second: Outcome<StoreError>)
    requires service.Valid()
    modifies service
    ensures second == Fail(StoreMissing(Str(name)))
  {
    first := service.Delete(Str(name), false);
    second := service.Delete(Str(name), false);
  }
}

/**
 * `ParamsBag`: the store a request is assembled from. Three reserved
 * authorisation values (`login`, `password`, `domain`) have fields of their
 * own and every other authorisation pair goes to `authParams`; GET and POST
 * parameters are ordered string-keyed maps; a proxy and one staged file
 * complete it. The file system is a parameter of the operations that touch it.
 */
module Params {
  import opened Wrappers
  import opened Assoc
  import opened Php
  import opened Curl

  /** What `is_file`, `fopen(..., "rb")` and `filesize` see of one regular file. */
  datatype FileInfo = FileInfo(readable: bool, size: nat)

  /** The regular files of the file system, by path. */
  datatype FileSystem = FileSystem(files: map<string, FileInfo>)

  /** `is_file($path)`. */
  predicate IsFile(fs: FileSystem, path: string) { path in fs.files }

  /** `filesize($path)`: `false` (here `None`) when there is no such file. */
  function FileSize(fs: FileSystem, path: string): (r: Option<nat>)
    ensures r.Some? <==> IsFile(fs, path)
  {
    if path in fs.files then Some(fs.files[path].size) else None
  }

  /** `fopen($path, "rb")`: a stream on a readable file, `false` (here `None`) otherwise. */
  function Fopen(fs: FileSystem, path: string): (r: Option<Stream>)
    ensures r.Some? <==> IsFile(fs, path) && fs.files[path].readable
    ensures r.Some? ==> r.value.path == path
  {
    if path in fs.files && fs.files[path].readable then Some(Stream(path)) else None
  }

  /** The authorisation names `addAuth` keeps out of `authParams`. */
  predicate Reserved(name: string) { name == "login" || name == "password" || name == "domain" }

  predicate NoReserved(a: Assoc<string, Value>) { forall k | k in Keys(a) :: !Reserved(k) }

  /** `$a[$name]` read through `isset`: a missing or null entry reads as null. */
  function Lookup(a: Assoc<string, Value>, name: string): (r: Value)
    ensures r != Null <==> Find(a, name).Some? && Find(a, name).value != Null
    ensures r != Null ==> r == Find(a, name).value
  {
    match Find(a, name)
    case Some(v) => v
    case None => Null
  }

  /** The result of `getFileParams`: `["file name" => ..., "file size" => ...]`. */
  datatype FileParams = FileParams(name: string, size: Option<nat>)

  /** Everything a bag stores, as one value. */
  datatype Params = Params(
    auth: Assoc<string, Value>, domain: Value, login: Value, password: Value,
    get: Assoc<string, Value>, post: Assoc<string, Value>, proxy: Value, file: Option<string>)

  class ParamsBag {
    var authParams: Assoc<string, Value>
    var domain: Value
    var login: Value
    var password: Value
    var getParams: Assoc<string, Value>
    var postParams: Assoc<string, Value>
    var proxy: Value
    var file: Option<string>
    /** The stream of the last `openFile`; `None` for PHP's `null` and `false`. */
    var fileHandle: Option<Stream>

    /** PHP arrays have distinct keys, and `authParams` never holds a reserved name. */
    ghost predicate Valid()
      reads this
    {
      UniqueKeys(authParams) && UniqueKeys(getParams) && UniqueKeys(postParams) && NoReserved(authParams)
    }

    function View(): Params
      reads this
    {
      Params(authParams, domain, login, password, getParams, postParams, proxy, file)
    }

    constructor()
      ensures Valid()
      ensures View() == Params([], Null, Null, Null, [], [], Null, None) && fileHandle == None
    {
      authParams, domain, login, password := [], Null, Null, Null;
      getParams, postParams, proxy, file, fileHandle := [], [], Null, None, None;
    }

    /** `addProxy($proxy)`. */
    method AddProxy(p: Value)
      requires Valid()
      modifies this
      ensures Valid()
      ensures View() == old(View()).(proxy := p) && fileHandle == old(fileHandle)
      ensures HasProxy() <==> p.Str?
      ensures GetProxy() == p
    {
      proxy := p;
    }

    /** `addAuth($name, $value)`: the reserved names go to their own fields. */
    method AddAuth(name: string, value: Value)
      requires Valid()
      modifies this
      ensures Valid()
      ensures name == "login" ==> View() == old(View()).(login := value)
      ensures name == "password" ==> View() == old(View()).(password := value)
      ensures name == "domain" ==> View() == old(View()).(domain := value)
      ensures !Reserved(name) ==> View() == old(View()).(auth := Put(old(authParams), name, value))
      ensures fileHandle == old(fileHandle)
      ensures GetAuth(name) == value
      ensures forall n | n != name :: GetAuth(n) == old(GetAuth(n))
    {
      if name == "login" {
        login := value;
      } else if name == "password" {
        password := value;
      } else if name == "domain" {
        domain := value;
      } else {
        UniquePut(authParams, name, value);
        authParams := Put(authParams, name, value);
        forall n | n != name
          ensures Find(authParams, n) == old(Find(authParams, n))
        {
          FindPut(old(authParams), name, value, n);
        }
        FindPut(old(authParams), name, value, name);
      }
    }

    /** `getAuth($name)` with a name. */
    function GetAuth(name: string): (r: Value)
      reads this
      ensures name == "login" ==> r == login
      ensures name == "password" ==> r == password
      ensures name == "domain" ==> r == domain
      ensures !Reserved(name) ==> r == Lookup(authParams, name)
    {
      if name == "login" then login
      else if name == "password" then password
      else if name == "domain" then domain
      else Lookup(authParams, name)
    }

    /** `getAuth()` without a name: the free-form pairs, never a reserved name. */
    function GetAuthAll(): (r: Assoc<string, Value>)
      requires Valid()
      reads this
      ensures NoReserved(r) && UniqueKeys(r)
      ensures r == authParams
    {
      authParams
    }

    /** `addGet($array)`: `array_merge` of the stored and the given parameters. */
    method AddGetAll(m: Assoc<string, Value>)
      requires Valid() && UniqueKeys(m)
      modifies this
      ensures Valid()
      ensures View() == old(View()).(get := Merge(old(getParams), m)) && fileHandle == old(fileHandle)
      ensures ToMap(getParams) == ToMap(old(getParams)) + ToMap(m)
    {
      UniqueMerge(getParams, m);
      MergeIsOverride(getParams, m);
      getParams := Merge(getParams, m);
    }

    /** `addGet($name, $value)`: exactly one key is set. */
    method AddGet(name: string, value: Value)
      requires Valid()
      modifies this
      ensures Valid()
      ensures View() == old(View()).(get := Put(old(getParams), name, value)) && fileHandle == old(fileHandle)
      ensures Find(getParams, name) == Some(value)
      ensures forall k | k != name :: Find(getParams, k) == Find(old(getParams), k)
    {
      UniquePut(getParams, name, value);
      FindPut(getParams, name, value, name);
      forall k | k != name
        ensures Find(Put(getParams, name, value), k) == Find(getParams, k)
      {
        FindPut(getParams, name, value, k);
      }
      getParams := Put(getParams, name, value);
    }

    /** `getGet($name)`. */
    function GetGet(name: string): (r: Value)
      reads this
      ensures r != Null ==> Find(getParams, name) == Some(r)
      ensures Find(getParams, name).None? ==> r == Null
      ensures Find(getParams, name).Some? ==> r == Find(getParams, name).value
    {
      Lookup(getParams, name)
    }

    /** `getGet()`. */
    function GetGetAll(): Assoc<string, Value>
      reads this
    {
      getParams
    }

    /** `hasGet()`: `count($getParams)` is not zero. */
    function HasGet(): (r: bool)
      reads this
      ensures r <==> |getParams| > 0
    {
      getParams != []
    }

    /** `clearGet()`. */
    method ClearGet()
      requires Valid()
      modifies this
      ensures Valid()
      ensures View() == old(View()).(get := []) && fileHandle == old(fileHandle)
      ensures !HasGet()
    {
      getParams := [];
    }

    /** `addPost($array)`. */
    method AddPostAll(m: Assoc<string, Value>)
      requires Valid() && UniqueKeys(m)
      modifies this
      ensures Valid()
      ensures View() == old(View()).(post := Merge(old(postParams), m)) && fileHandle == old(fileHandle)
      ensures ToMap(postParams) == ToMap(old(postParams)) + ToMap(m)
    {
      UniqueMerge(postParams, m);
      MergeIsOverride(postParams, m);
      postParams := Merge(postParams, m);
    }

    /** `addPost($name, $value)`. */
    method AddPost(name: string, value: Value)
      requires Valid()
      modifies this
      ensures Valid()
      ensures View() == old(View()).(post := Put(old(postParams), name, value)) && fileHandle == old(fileHandle)
      ensures Find(postParams, name) == Some(value)
      ensures forall k | k != name :: Find(postParams, k) == Find(old(postParams), k)
    {
      UniquePut(postParams, name, value);
      FindPut(postParams, name, value, name);
      forall k | k != name
        ensures Find(Put(postParams, name, value), k) == Find(postParams, k)
      {
        FindPut(postParams, name, value, k);
      }
      postParams := Put(postParams, name, value);
    }

    /** `getPost($name)`. */
    function GetPost(name: string): (r: Value)
      reads this
      ensures r != Null ==> Find(postParams, name) == Some(r)
      ensures Find(postParams, name).None? ==> r == Null
      ensures Find(postParams, name).Some? ==> r == Find(postParams, name).value
    {
      Lookup(postParams, name)
    }

    /** `getPost()`. */
    function GetPostAll(): Assoc<string, Value>
      reads this
    {
      postParams
    }

    /** `hasPost()`. */
    function HasPost(): (r: bool)
      reads this
      ensures r <==> |postParams| > 0
    {
      postParams != []
    }

    /** `clearPost()`. */
    method ClearPost()
      requires Valid()
      modifies this
      ensures Valid()
      ensures View() == old(View()).(post := []) && fileHandle == old(fileHandle)
      ensures !HasPost()
    {
      postParams := [];
    }

    /** `getProxy()`. */
    function GetProxy(): Value
      reads this
    {
      proxy
    }

    /** `hasProxy()`: `is_string($proxy)`. */
    function HasProxy(): (r: bool)
      reads this
      ensures r <==> proxy.Str?
    {
      proxy.Str?
    }

    /**
     * `setFile($filename)`: checks that the path is a regular file and that it
     * opens for reading (the stream is closed again), then stages it.
     */
    method SetFile(fs: FileSystem, filename: string) returns (r: Result<()>)
      requires Valid()
      modifies this
      ensures Valid()
      ensures r.Ok? <==> IsFile(fs, filename) && fs.files[filename].readable
      ensures !IsFile(fs, filename) ==> r == Err(Exception("Файл " + filename + " не найден"))
      ensures IsFile(fs, filename) && !fs.files[filename].readable ==>
                r == Err(Exception("Не удалось открыть файл " + filename))
      ensures r.Err? ==> View() == old(View())
      ensures r.Ok? ==> View() == old(View()).(file := Some(filename)) && HasFile() && GetFilename() == Some(filename)
      ensures fileHandle == old(fileHandle)
    {
      if !IsFile(fs, filename) {
        return Err(Exception("Файл " + filename + " не найден"));
      }
      if Fopen(fs, filename).None? {
        return Err(Exception("Не удалось открыть файл " + filename));
      }
      file := Some(filename);
      r := Ok(());
    }

    /** `getFilename()`: the staged path, or null. */
    function GetFilename(): Option<string>
      reads this
    {
      file
    }

    /** `getFileParams()`: `false` (here `None`) exactly when no file is staged. */
    function GetFileParams(fs: FileSystem): (r: Option<FileParams>)
      reads this
      ensures r.None? <==> file.None?
      ensures r.Some? ==> r.value.name == file.value && r.value.size == FileSize(fs, file.value)
    {
      match file
      case None => None
      case Some(f) => Some(FileParams(f, FileSize(fs, f)))
    }

    /** `getFileSize()`: `filesize` of the staged path; `false` without one. */
    function GetFileSize(fs: FileSystem): (r: Option<nat>)
      reads this
      ensures r.Some? <==> file.Some? && IsFile(fs, file.value)
      ensures r.Some? ==> r.value == fs.files[file.value].size
    {
      match file
      case None => None
      case Some(f) => FileSize(fs, f)
    }

    /**
     * `openFile()`: opens the staged path for reading and keeps the stream.
     * Without a staged path `fopen` is given an empty path and raises.
     */
    method OpenFile(fs: FileSystem) returns (r: Result<Option<Stream>>)
      requires Valid()
      modifies this
      ensures Valid() && View() == old(View())
      ensures file.None? ==> r == Err(ValueError("Path cannot be empty")) && fileHandle == old(fileHandle)
      ensures file.Some? ==> r == Ok(Fopen(fs, file.value)) && fileHandle == Fopen(fs, file.value)
    {
      match file
      case None =>
        r := Err(ValueError("Path cannot be empty"));
      case Some(f) =>
        fileHandle := Fopen(fs, f);
        r := Ok(fileHandle);
    }

    /** `hasFile()`. */
    function HasFile(): (r: bool)
      reads this
      ensures r <==> file.Some?
    {
      file.Some?
    }
  }
}

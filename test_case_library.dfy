// Library of validated test cases (apitest/storage/test_case_library.py): one JSON file per
// test case in a library directory.
//
// The directory is a map from file names (relative to the library directory) to files; a
// file holds a JSON document, or None when its text is not valid JSON, and a modification
// time. The clock and the order in which the file system lists the directory are inputs.

module TestCaseLibrary {
  import opened Wrappers
  import opened Json
  import opened Strings
  import opened Sorting

  // ---------------------------------------------------------------------------
  // File names

  /** Each occurrence of `c` replaced by `rep`, one character at a time. */
  function MapChar(s: string, c: char, rep: string): (r: string)
    ensures c !in rep ==> c !in r
    ensures forall ch :: ch !in s && ch !in rep ==> ch !in r
  {
    if s == [] then [] else (if s[0] == c then rep else [s[0]]) + MapChar(s[1..], c, rep)
  }

  /** `s.replace(c, rep)` for a one-character pattern replaces each occurrence of the character. */
  lemma {:induction false} ReplaceOneChar(s: string, c: char, rep: string)
    ensures ReplaceAll(s, [c], rep) == MapChar(s, c, rep)
    decreases |s|
  {
    if s != [] {
      ReplaceOneChar(s[1..], c, rep);
      assert s[..1] == [s[0]];
    }
  }

  /** `path.replace('/', '_').replace('{', '').replace('}', '')`. */
  function SafePath(p: string): (r: string)
    ensures '/' !in r && '{' !in r && '}' !in r
  {
    var a := ReplaceAll(p, "/", "_");
    var b := ReplaceAll(a, "{", "");
    var c := ReplaceAll(b, "}", "");
    ReplaceOneChar(p, '/', "_");
    ReplaceOneChar(a, '{', "");
    ReplaceOneChar(b, '}', "");
    c
  }

  /** The last path component that is neither empty nor '.', or '' when there is none. */
  function LastComponent(parts: seq<string>): (r: string)
    ensures r == "" || r in parts
  {
    if parts == [] then ""
    else if parts[|parts| - 1] != "" && parts[|parts| - 1] != "." then parts[|parts| - 1]
    else LastComponent(parts[..|parts| - 1])
  }

  /** `Path(s).name`: the final component of a '/'-separated path. */
  function PathName(s: string): (r: string)
    ensures '/' !in r
  {
    var parts := Split(s, '/');
    var r := LastComponent(parts);
    assert r != "" ==> exists i :: 0 <= i < |parts| && parts[i] == r;
    r
  }

  /** The position of the last '.' in a name. */
  function LastDot(name: string): (r: Option<nat>)
    ensures r.Some? ==> r.value < |name| && name[r.value] == '.' && '.' !in name[r.value + 1..]
    ensures r.None? ==> '.' !in name
  {
    if name == [] then None
    else if name[|name| - 1] == '.' then Some(|name| - 1)
    else
      var r := LastDot(name[..|name| - 1]);
      SplitLast(name);
      if r.Some? then
        assert name[r.value + 1..] == name[..|name| - 1][r.value + 1..] + [name[|name| - 1]];
        r
      else None
  }

  /** Whether a name has a suffix: a last '.' that is neither its first nor its last character. */
  predicate HasSuffix(name: string) {
    var d := LastDot(name);
    d.Some? && 0 < d.value < |name| - 1
  }

  /** `PurePath.stem` of a name. */
  function Stem(name: string): string {
    if HasSuffix(name) then name[..LastDot(name).value] else name
  }

  /** `PurePath.suffix` of a name: from the last '.' on, or ''. */
  function Suffix(name: string): (r: string)
    ensures r == "" || (r[0] == '.' && '.' !in r[1..])
  {
    if HasSuffix(name) then name[LastDot(name).value..] else ""
  }

  /** A name is its stem followed by its suffix. */
  lemma StemSuffix(name: string)
    ensures Stem(name) + Suffix(name) == name
  {
  }

  /** The name of a test case's file when the caller gives none; None where Python raises. */
  function DefaultFilename(testCase: Entries): (r: Option<string>)
    ensures r.Some? ==> EndsWith(r.value, ".json")
    ensures r.Some? <==>
      (HasKey(testCase, "path") ==> Lookup(testCase, "path").value.Str?) &&
      (HasKey(testCase, "schema_file") && Lookup(testCase, "schema_file").value != Str("unknown") ==>
         Lookup(testCase, "schema_file").value.Str?)
  {
    var schemaFile := Lookup(testCase, "schema_file").GetOr(Str("unknown"));
    var httpMethod := Lookup(testCase, "method").GetOr(Str("UNKNOWN"));
    var path := Lookup(testCase, "path").GetOr(Str("unknown"));
    var version := Lookup(testCase, "version").GetOr(Int(1));
    // `path.replace` needs a string; `Path(schema_file)` needs one unless it is 'unknown'.
    if !path.Str? || (schemaFile != Str("unknown") && !schemaFile.Str?) then None
    else
      var safeSchema := if schemaFile != Str("unknown") then Stem(PathName(schemaFile.s)) else "unknown";
      var r := safeSchema + "_" + PyStr(httpMethod) + "_" + SafePath(path.s) + "_v" + PyStr(version) + ".json";
      assert r[|r| - 5..] == ".json";
      Some(r)
  }

  /** The generated name of a test case carries its sanitised path and its version. */
  lemma DefaultFilenameParts(testCase: Entries, path: string, version: int)
    requires Lookup(testCase, "path") == Some(Str(path)) && Lookup(testCase, "version") == Some(Int(version))
    requires !HasKey(testCase, "schema_file")
    ensures DefaultFilename(testCase) == Some("unknown" + "_" + PyStr(Lookup(testCase, "method").GetOr(Str("UNKNOWN")))
                                              + "_" + SafePath(path) + "_v" + IntText(version) + ".json")
  {
  }

  /** The `counter`-th alternative to a taken name: '<stem>_<counter><suffix>'. */
  function Candidate(filename: string, counter: nat): string {
    var name := PathName(filename);
    Stem(name) + "_" + NatToString(counter) + Suffix(name)
  }

  /** Different counters give different names, so the search for a free name moves on. */
  lemma CandidateInjective(filename: string, a: nat, b: nat)
    requires a != b
    ensures Candidate(filename, a) != Candidate(filename, b)
  {
    var name := PathName(filename);
    var x := Stem(name) + "_" + NatToString(a) + Suffix(name);
    var y := Stem(name) + "_" + NatToString(b) + Suffix(name);
    if x == y {
      var lo := |Stem(name)| + 1;
      assert |NatToString(a)| == |NatToString(b)|;
      assert x[lo..lo + |NatToString(a)|] == NatToString(a);
      assert y[lo..lo + |NatToString(b)|] == NatToString(b);
      ParseNatToString(a);
      ParseNatToString(b);
    }
  }

  // ---------------------------------------------------------------------------
  // Listing

  /** A file of the directory: its JSON document (None when the text does not parse) and its modification time. */
  datatype LibraryFile = LibraryFile(content: Option<Value>, mtime: int)

  /** The names `glob('*.json')` matches: files directly in the directory whose name ends in '.json'. */
  predicate IsJsonName(name: string) {
    EndsWith(name, ".json") && '/' !in name
  }

  /** The '.json' files in the order the file system lists them, with their times. */
  function JsonEntries(files: map<string, LibraryFile>, scanOrder: seq<string>): (r: seq<(string, int)>)
    ensures forall e :: e in r ==> e.0 in files && IsJsonName(e.0) && e.0 in scanOrder && e.1 == files[e.0].mtime
    ensures forall n :: n in scanOrder && n in files && IsJsonName(n) ==> exists e :: e in r && e.0 == n
  {
    if scanOrder == [] then []
    else
      var n := scanOrder[|scanOrder| - 1];
      var init := JsonEntries(files, scanOrder[..|scanOrder| - 1]);
      assert forall m :: m in scanOrder ==> m in scanOrder[..|scanOrder| - 1] || m == n;
      init + (if n in files && IsJsonName(n) then [(n, files[n].mtime)] else [])
  }

  /** `list_test_cases_in_library`: the '.json' files, newest first. */
  function Listing(files: map<string, LibraryFile>, scanOrder: seq<string>): (names: seq<string>)
  {
    var sorted := SortDescending(JsonEntries(files, scanOrder), Second);
    seq(|sorted|, i requires 0 <= i < |sorted| => sorted[i].0)
  }

  /** The listing holds exactly the '.json' files, with modification times never increasing. */
  lemma ListingSpec(files: map<string, LibraryFile>, scanOrder: seq<string>)
    requires forall n :: n in files ==> n in scanOrder
    ensures var names := Listing(files, scanOrder);
      (forall n :: n in names <==> n in files && IsJsonName(n)) &&
      (forall i, j :: 0 <= i < j < |names| ==> files[names[i]].mtime >= files[names[j]].mtime)
  {
    ListingMembers(files, scanOrder);
    ListingNewestFirst(files, scanOrder);
  }

  /** The names listed are exactly the '.json' files. */
  lemma ListingMembers(files: map<string, LibraryFile>, scanOrder: seq<string>)
    requires forall n :: n in files ==> n in scanOrder
    ensures forall n :: n in Listing(files, scanOrder) <==> n in files && IsJsonName(n)
  {
    ListingSound(files, scanOrder);
    ListingComplete(files, scanOrder);
  }

  /** Only '.json' files are listed. */
  lemma ListingSound(files: map<string, LibraryFile>, scanOrder: seq<string>)
    ensures forall n :: n in Listing(files, scanOrder) ==> n in files && IsJsonName(n)
  {
    var entries := JsonEntries(files, scanOrder);
    var sorted := SortDescending(entries, Second);
    var names := Listing(files, scanOrder);
    SortedMembers(entries, Second);
    forall n | n in names ensures n in files && IsJsonName(n) {
      var i :| 0 <= i < |names| && names[i] == n;
      assert sorted[i] in sorted;
    }
  }

  /** Every '.json' file the scan sees is listed. */
  lemma ListingComplete(files: map<string, LibraryFile>, scanOrder: seq<string>)
    requires forall n :: n in files ==> n in scanOrder
    ensures forall n :: n in files && IsJsonName(n) ==> n in Listing(files, scanOrder)
  {
    var entries := JsonEntries(files, scanOrder);
    var sorted := SortDescending(entries, Second);
    var names := Listing(files, scanOrder);
    SortedMembers(entries, Second);
    forall n | n in files && IsJsonName(n) ensures n in names {
      var e :| e in entries && e.0 == n;
      var i :| 0 <= i < |sorted| && sorted[i] == e;
      assert names[i] == n;
    }
  }

  /** The modification times of the names listed never increase. */
  lemma ListingNewestFirst(files: map<string, LibraryFile>, scanOrder: seq<string>)
    ensures var names := Listing(files, scanOrder);
      forall i, j :: 0 <= i < j < |names| ==>
        names[i] in files && names[j] in files && files[names[i]].mtime >= files[names[j]].mtime
  {
    var entries := JsonEntries(files, scanOrder);
    var sorted := SortDescending(entries, Second);
    var names := Listing(files, scanOrder);
    SortedMembers(entries, Second);
    forall i | 0 <= i < |sorted| ensures names[i] in files && files[names[i]].mtime == sorted[i].1 {
      assert sorted[i] in sorted;
    }
    forall i, j | 0 <= i < j < |names| ensures files[names[i]].mtime >= files[names[j]].mtime {
      assert Second(sorted[i]) >= Second(sorted[j]);
    }
  }

  // ---------------------------------------------------------------------------
  // Loading and filtering

  datatype LoadError = FileNotFound | DecodeError

  /** Whether a loaded test case is for the endpoint: equal schema file and path, method equal ignoring case. */
  predicate MatchesEndpoint(v: Value, schemaFile: string, httpMethod: string, path: string) {
    v.Dict? &&
    Lookup(v.entries, "schema_file") == Some(Str(schemaFile)) &&
    Lookup(v.entries, "method").GetOr(Str("")).Str? &&
    Upper(Lookup(v.entries, "method").GetOr(Str("")).s) == Upper(httpMethod) &&
    Lookup(v.entries, "path") == Some(Str(path))
  }

  /** The documents of the listed files that match the endpoint, in listing order; unreadable files are skipped. */
  function EndpointCases(files: map<string, LibraryFile>, names: seq<string>, schemaFile: string, httpMethod: string,
                         path: string): (r: seq<Value>)
    ensures forall v :: v in r ==> MatchesEndpoint(v, schemaFile, httpMethod, path)
    ensures |r| <= |names|
  {
    if names == [] then []
    else
      var n := names[|names| - 1];
      EndpointCases(files, names[..|names| - 1], schemaFile, httpMethod, path) +
        (if n in files && files[n].content.Some? && MatchesEndpoint(files[n].content.value, schemaFile, httpMethod, path)
         then [files[n].content.value] else [])
  }

  /** Every listed readable file that matches the endpoint is among the results. */
  lemma {:induction false} EndpointCasesComplete(files: map<string, LibraryFile>, names: seq<string>, schemaFile: string,
                                                 httpMethod: string, path: string, i: nat)
    requires i < |names| && names[i] in files && files[names[i]].content.Some?
    requires MatchesEndpoint(files[names[i]].content.value, schemaFile, httpMethod, path)
    ensures files[names[i]].content.value in EndpointCases(files, names, schemaFile, httpMethod, path)
  {
    if i < |names| - 1 {
      EndpointCasesComplete(files, names[..|names| - 1], schemaFile, httpMethod, path, i);
    }
  }

  class TestCaseLibrary {
    /** The library directory. */
    var files: map<string, LibraryFile>

    constructor (files: map<string, LibraryFile>)
      ensures this.files == files
    {
      this.files := files;
    }

    /** `load_test_case_from_library`. */
    function Load(filename: string): (r: Result<Value, LoadError>)
      reads this
      ensures r == Err(FileNotFound) <==> filename !in files
      ensures r == Err(DecodeError) <==> filename in files && files[filename].content.None?
    {
      if filename !in files then Err(FileNotFound)
      else if files[filename].content.None? then Err(DecodeError)
      else Ok(files[filename].content.value)
    }

    /**
     * The loop of `save_test_case_to_library` that finds a free name: the name itself when it
     * is free, else the first free '<stem>_<counter><suffix>' counting from 1.
     */
    method FreeName(original: string) returns (filePath: string)
      ensures filePath !in files
      ensures filePath == original ||
        (original in files &&
         exists c :: 1 <= c && filePath == Candidate(original, c) && forall j :: 1 <= j < c ==> Candidate(original, j) in files)
    {
      filePath := original;
      var counter: nat := 1;
      ghost var taken: set<string> := {};
      while filePath in files
        invariant counter >= 1
        invariant counter == 1 ==> filePath == original
        invariant counter > 1 ==> filePath == Candidate(original, counter - 1) && original in files
        invariant forall j :: 1 <= j < counter - 1 ==> Candidate(original, j) in files
        invariant taken <= files.Keys
        invariant forall j: nat :: counter - 1 <= j ==> Candidate(original, j) !in taken
        decreases |files.Keys - taken| + (if counter == 1 then 1 else 0)
      {
        if counter > 1 {
          forall j: nat | counter <= j ensures Candidate(original, j) != filePath {
            CandidateInjective(original, j, counter - 1);
          }
          assert files.Keys - (taken + {filePath}) == (files.Keys - taken) - {filePath};
          taken := taken + {filePath};
        }
        filePath := Candidate(original, counter);
        counter := counter + 1;
      }
    }

    /**
     * `save_test_case_to_library`: writes the test case under the given name, or the
     * generated one, moving to '<stem>_1<suffix>', '<stem>_2<suffix>', ... while the name is
     * taken. A new file is always created; loading it gives the test case back. Err is the
     * exception a non-string path or schema file raises while generating the name.
     */
    method Save(testCase: Entries, filename: Option<string>, now: int) returns (r: Result<string, ()>)
      modifies this
      ensures r.Err? <==> (filename.None? || filename.value == "") && DefaultFilename(testCase).None?
      ensures r.Err? ==> files == old(files)
      ensures r.Ok? ==> r.value !in old(files) && files == old(files)[r.value := LibraryFile(Some(Dict(testCase)), now)]
      ensures r.Ok? ==> Load(r.value) == Ok(Dict(testCase))
      ensures r.Ok? ==>
        var original := if filename.Some? && filename.value != "" then filename.value else DefaultFilename(testCase).value;
        r.value == original ||
        (original in old(files) &&
         exists c :: 1 <= c && r.value == Candidate(original, c) && forall j :: 1 <= j < c ==> Candidate(original, j) in old(files))
    {
      var name: string;
      if filename.Some? && filename.value != "" {
        name := filename.value;
      } else {
        var generated := DefaultFilename(testCase);
        if generated.None? {
          return Err(());
        }
        name := generated.value;
      }
      var filePath := FreeName(name);
      files := files[filePath := LibraryFile(Some(Dict(testCase)), now)];
      return Ok(filePath);
    }

    /** `delete_test_case_from_library`: true iff the file existed; afterwards it is gone. */
    method Delete(filename: string) returns (deleted: bool)
      modifies this
      ensures deleted <==> filename in old(files)
      ensures files == old(files) - {filename}
      ensures Load(filename) == Err(FileNotFound)
    {
      if filename in files {
        files := files - {filename};
        return true;
      }
      return false;
    }

    /**
     * `get_test_cases_by_endpoint`: loads every listed file, skipping any that fails to load
     * or is not a matching dict, and keeps the matches in listing order.
     */
    method GetTestCasesByEndpoint(scanOrder: seq<string>, schemaFile: string, httpMethod: string, path: string)
      returns (testCases: seq<Value>)
      ensures testCases == EndpointCases(files, Listing(files, scanOrder), schemaFile, httpMethod, path)
    {
      testCases := LoadMatching(Listing(files, scanOrder), schemaFile, httpMethod, path);
    }

    /** The loop of `get_test_cases_by_endpoint` over a listing. */
    method LoadMatching(names: seq<string>, schemaFile: string, httpMethod: string, path: string)
      returns (testCases: seq<Value>)
      ensures testCases == EndpointCases(files, names, schemaFile, httpMethod, path)
    {
      testCases := [];
      var i := 0;
      while i < |names|
        invariant 0 <= i <= |names|
        invariant testCases == EndpointCases(files, names[..i], schemaFile, httpMethod, path)
      {
        assert names[..i + 1][..i] == names[..i];
        var n := names[i];
        var loaded := Load(n);
        if loaded.Ok? && MatchesEndpoint(loaded.value, schemaFile, httpMethod, path) {
          testCases := testCases + [loaded.value];
        }
        assert EndpointCases(files, names[..i + 1], schemaFile, httpMethod, path)
            == EndpointCases(files, names[..i], schemaFile, httpMethod, path) +
               (if n in files && files[n].content.Some? && MatchesEndpoint(files[n].content.value, schemaFile, httpMethod, path)
                then [files[n].content.value] else []);
        i := i + 1;
      }
      assert names[..i] == names;
    }
  }
}

/**
  The class data store: a map from class names to file contents, overwritten file by file
  in place and swapped back to a copy when an update fails.
*/
module ClassData {
  import opened Text

  /** What the file system answers for one directory entry. */
  datatype EntryKind = StatFailed | Irregular | ReadFailed | File(data: string)

  datatype Entry = Entry(name: string, kind: EntryKind)

  datatype Listing = Unlisted | Listed(entries: seq<Entry>)

  datatype Error = DirectoryError | StatError(name: string) | ReadError(name: string) | NoData | ParseError(name: string)

  type Classes = map<string, string>

  predicate ReadableEntry(e: Entry) {
    e.kind.Irregular? || e.kind.File?
  }

  /** The directory lists, and every entry can be examined and, if regular, read. */
  predicate Readable(dir: Listing) {
    dir.Listed? && forall e :: e in dir.entries ==> ReadableEntry(e)
  }

  function Overlay(data: Classes, e: Entry): Classes {
    if e.kind.File? then data[e.name := e.kind.data] else data
  }

  /** The contents of the regular files. */
  function Files(entries: seq<Entry>): Classes {
    if entries == [] then map[] else Overlay(Files(entries[..|entries| - 1]), entries[|entries| - 1])
  }

  lemma NoFiles()
    ensures Files([]) == map[]
  {
  }

  lemma FilesStep(entries: seq<Entry>, i: nat)
    requires i < |entries|
    ensures Files(entries[..i + 1]) == Overlay(Files(entries[..i]), entries[i])
  {
    assert entries[..i + 1][..i] == entries[..i];
  }

  /** There is at least one class and each of them parses. */
  predicate Validated(data: Classes, parses: string -> bool) {
    data != map[] && forall k :: k in data ==> parses(data[k])
  }

  class DirectoryHandler {
    var data: Classes
    const parses: string -> bool

    constructor (parses: string -> bool)
      ensures data == map[] && this.parses == parses
    {
      data := map[];
      this.parses := parses;
    }

    static method NewDirectoryHandler(parses: string -> bool, dir: Listing)
      returns (handler: DirectoryHandler?, err: Option<Error>)
      ensures handler != null <==> err == None
      ensures handler != null <==>
        dir.Listed? && (forall e :: e in dir.entries ==> e.kind != StatFailed && e.kind != ReadFailed) &&
        Files(dir.entries) != map[] && forall k :: k in Files(dir.entries) ==> parses(Files(dir.entries)[k])
      ensures handler != null ==> fresh(handler) && handler.parses == parses && handler.data == Files(dir.entries)
    {
      handler := new DirectoryHandler(parses);
      err := handler.ReadClassData(dir);
      if err.Some? {
        return null, err;
      }
      assert handler.data == Files(dir.entries);
      err := handler.Validate();
      if err.Some? {
        return null, err;
      }
    }

    method GetDataForClass(name: string) returns (r: Option<string>)
      ensures r == if name in data then Some(data[name]) else None
    {
      if name in data {
        return Some(data[name]);
      }
      return None;
    }

    /** An update takes effect as a whole or, failing anywhere, not at all. */
    method Update(dir: Listing) returns (err: Option<Error>)
      modifies this
      ensures err == None <==>
        dir.Listed? && (forall e :: e in dir.entries ==> e.kind != StatFailed && e.kind != ReadFailed) &&
        old(data) + Files(dir.entries) != map[] &&
        forall k :: k in old(data) + Files(dir.entries) ==> parses((old(data) + Files(dir.entries))[k])
      ensures data == if err == None then old(data) + Files(dir.entries) else old(data)
    {
      var cp: Classes := map[];
      var rest := data.Keys;
      while rest != {}
        invariant rest <= data.Keys && cp.Keys == data.Keys - rest
        invariant forall k :: k in cp ==> cp[k] == data[k]
      {
        var k :| k in rest;
        cp := cp[k := data[k]];
        rest := rest - {k};
      }
      assert cp == data;
      err := ReadClassData(dir);
      if err.Some? {
        data := cp;
        return err;
      }
      err := Validate();
      if err.Some? {
        data := cp;
        return err;
      }
    }

    method Validate() returns (err: Option<Error>)
      ensures err == None <==> data != map[] && forall k :: k in data ==> parses(data[k])
      ensures err.Some? ==>
        (err.value == NoData && data == map[]) ||
        (err.value.ParseError? && err.value.name in data && !parses(data[err.value.name]))
    {
      if |data| == 0 {
        return Some(NoData);
      }
      var rest := data.Keys;
      while rest != {}
        invariant rest <= data.Keys
        invariant forall k :: k in data && k !in rest ==> parses(data[k])
      {
        var file :| file in rest;
        if !parses(data[file]) {
          return Some(ParseError(file));
        }
        rest := rest - {file};
      }
      return None;
    }

    /** Overwrites entry by entry; a failure leaves the files read before it in place. */
    method ReadClassData(dir: Listing) returns (err: Option<Error>)
      modifies this
      ensures err == None <==>
        dir.Listed? && forall e :: e in dir.entries ==> e.kind != StatFailed && e.kind != ReadFailed
      ensures err == None ==> data == old(data) + Files(dir.entries)
      ensures err.Some? ==> FirstFailure(dir, err.value)
    {
      hide Files;
      assert Files([]) == map[] by {
        NoFiles();
      }
      if dir.Unlisted? {
        return Some(DirectoryError);
      }
      var files := dir.entries;
      for i := 0 to |files|
        invariant data == old(data) + Files(files[..i])
        invariant forall j :: 0 <= j < i ==> files[j].kind != StatFailed && files[j].kind != ReadFailed
      {
        var file := files[i];
        FilesStep(files, i);
        match file.kind {
          case StatFailed => return Some(StatError(file.name));
          case ReadFailed => return Some(ReadError(file.name));
          case Irregular =>
          case File(contents) => data := data[file.name := contents];
        }
      }
      assert files[..|files|] == files;
      return None;
    }
  }

  /** What stops the reading of a directory: that it cannot be listed, or its first entry that fails. */
  ghost predicate FirstFailure(dir: Listing, err: Error) {
    if dir.Unlisted? then err == DirectoryError
    else
      exists i :: 0 <= i < |dir.entries| &&
        (forall j :: 0 <= j < i ==> dir.entries[j].kind != StatFailed && dir.entries[j].kind != ReadFailed) &&
        ((dir.entries[i].kind == StatFailed && err == StatError(dir.entries[i].name)) ||
         (dir.entries[i].kind == ReadFailed && err == ReadError(dir.entries[i].name)))
  }

  /** Entry i is the last regular file of that name. */
  predicate LastFile(entries: seq<Entry>, i: nat, name: string) {
    i < |entries| && entries[i].kind.File? && entries[i].name == name &&
    forall j :: i < j < |entries| ==> !(entries[j].kind.File? && entries[j].name == name)
  }

  /** Files holds exactly the regular files, the later of two with one name. */
  lemma {:induction false} FilesAreLatest(entries: seq<Entry>, name: string)
    ensures name in Files(entries) <==> exists i :: 0 <= i < |entries| && entries[i].kind.File? && entries[i].name == name
    ensures forall i: nat :: LastFile(entries, i, name) ==> name in Files(entries) && Files(entries)[name] == entries[i].kind.data
  {
    hide Files;
    if entries == [] {
      NoFiles();
    } else {
      var n := |entries| - 1;
      var front, last := entries[..n], entries[n];
      FilesAreLatest(front, name);
      FilesStep(entries, n);
      assert entries[..n + 1] == entries;
      assert forall i :: 0 <= i < n ==> entries[i] == front[i];
      if last.kind.File? && last.name == name {
        assert forall i: nat :: LastFile(entries, i, name) ==> i == n;
      } else {
        assert forall i: nat :: LastFile(entries, i, name) ==> LastFile(front, i, name);
        assert name in Files(entries) <==> name in Files(front);
      }
    }
  }
}

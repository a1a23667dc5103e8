/** CSV audit logging (job_applier/log.py): a file is a sequence of lines,
    the header is written only into an empty file, and each item becomes
    one row projected onto the header's keys. */
module CsvLog {
  import opened Values
  import opened Text

  /** One CSV line; a header line holds the column names as strings. */
  type Line = seq<Value>

  /** The files on disk, by path. An absent path is a missing file. */
  type FileMap = map<string, seq<Line>>

  /** What `log` can be handed: a mapping (anything with `keys()`), an
      instance of an annotated class with its `vars()`, or a plain value. */
  datatype Item =
    | Mapping(entries: Dict)
    | Instance(annotations: seq<string>, attrs: Dict)
    | Scalar(v: Value)

  /** `extract_keys`: mapping keys in order, else the class annotations,
      else nothing. */
  function ExtractKeys(item: Item): seq<string> {
    match item
    case Mapping(entries) => KeysOf(entries)
    case Instance(annotations, _) => annotations
    case Scalar(_) => []
  }

  function HeaderLine(keys: seq<string>): (l: Line)
    ensures |l| == |keys| && forall i | 0 <= i < |keys| :: l[i] == VStr(keys[i])
  {
    seq(|keys|, i requires 0 <= i < |keys| => VStr(keys[i]))
  }

  /** The attributes of an object whose name is a header key, in order. */
  function Project(attrs: Dict, keys: seq<string>): (d: Dict)
    ensures forall i | 0 <= i < |d| :: d[i].0 in keys
  {
    if attrs == [] then []
    else (if attrs[0].0 in keys then [attrs[0]] else []) + Project(attrs[1..], keys)
  }

  /** An object whose attributes are all header keys is written whole. */
  lemma {:induction false} ProjectKeeps(attrs: Dict, keys: seq<string>)
    requires forall i | 0 <= i < |attrs| :: attrs[i].0 in keys
    ensures Project(attrs, keys) == attrs
  {
    if attrs != [] {
      ProjectKeeps(attrs[1..], keys);
    }
  }

  /** The dict that `log` hands to `writerow`: a mapping as it is, an object
      projected onto the header; `vars()` of a plain value raises. */
  function RowDict(keys: seq<string>, item: Item): Result<Dict> {
    match item
    case Mapping(entries) => Ok(entries)
    case Instance(_, attrs) => Ok(Project(attrs, keys))
    case Scalar(_) => Err(TypeError)
  }

  function CellFor(d: Dict, key: string): Value {
    var v := Lookup(d, key);
    if v.Some? then v.value else VStr("")
  }

  /** `DictWriter.writerow`: a key outside the header raises; a header key
      missing from the dict is written as the empty string. */
  function WriteRow(keys: seq<string>, d: Dict): (r: Result<Line>)
    ensures r.Err? <==> exists i | 0 <= i < |d| :: d[i].0 !in keys
    ensures r.Ok? ==> |r.value| == |keys|
  {
    if exists i | 0 <= i < |d| :: d[i].0 !in keys then Err(ValueError("dict contains fields not in fieldnames"))
    else Ok(seq(|keys|, i requires 0 <= i < |keys| => CellFor(d, keys[i])))
  }

  function ItemLine(keys: seq<string>, item: Item): Result<Line> {
    var d := RowDict(keys, item);
    if d.Err? then Err(d.fault) else WriteRow(keys, d.value)
  }

  /** The rows written for `data`, stopping at the first item that raises. */
  function WriteRows(keys: seq<string>, data: seq<Item>): (seq<Line>, Outcome) {
    if data == [] then ([], Done)
    else
      var l := ItemLine(keys, data[0]);
      if l.Err? then ([], Raised(l.fault))
      else
        var rest := WriteRows(keys, data[1..]);
        ([l.value] + rest.0, rest.1)
  }

  function Existing(files: FileMap, path: string): seq<Line> {
    if path in files then files[path] else []
  }

  /** The effect of `log(filename, data)` on the files, and how it ends. */
  function LogEffect(files: FileMap, filename: Option<string>, data: seq<Item>): (r: (FileMap, Outcome))
    ensures !Truthy(filename) || data == [] ==> r == (files, Done)
    ensures Truthy(filename) && data != [] ==> r.0.Keys == files.Keys + {filename.value}
    ensures forall p | p in files && (!Truthy(filename) || p != filename.value) :: p in r.0 && r.0[p] == files[p]
  {
    if !Truthy(filename) || data == [] then (files, Done)
    else
      var path := filename.value;
      var keys := ExtractKeys(data[0]);
      var prior := Existing(files, path);
      var header := if prior == [] then [HeaderLine(keys)] else [];
      var rows := WriteRows(keys, data);
      (files[path := prior + header + rows.0], rows.1)
  }

  /** Each item yields exactly one row, in input order, unless one raises. */
  lemma {:induction false} OneRowPerItem(keys: seq<string>, data: seq<Item>)
    ensures WriteRows(keys, data).1 == Done <==> forall i | 0 <= i < |data| :: ItemLine(keys, data[i]).Ok?
    ensures WriteRows(keys, data).1 == Done ==>
      |WriteRows(keys, data).0| == |data| &&
      forall i | 0 <= i < |data| :: WriteRows(keys, data).0[i] == ItemLine(keys, data[i]).value
  {
    if data != [] {
      OneRowPerItem(keys, data[1..]);
      var l := ItemLine(keys, data[0]);
      if l.Ok? {
        var rest := WriteRows(keys, data[1..]);
        forall i | 0 <= i < |data| && rest.1 == Done
          ensures ([l.value] + rest.0)[i] == ItemLine(keys, data[i]).value
        {
          if i > 0 { assert data[1..][i - 1] == data[i]; }
        }
        if forall i | 0 <= i < |data| :: ItemLine(keys, data[i]).Ok? {
          assert forall i | 0 <= i < |data[1..]| :: ItemLine(keys, data[1..][i]).Ok? by {
            forall i | 0 <= i < |data[1..]| ensures ItemLine(keys, data[1..][i]).Ok? {
              assert data[1..][i] == data[i + 1];
            }
          }
        }
        if rest.1 == Done {
          forall i | 0 <= i < |data| ensures ItemLine(keys, data[i]).Ok? {
            if i > 0 { assert data[1..][i - 1] == data[i]; }
          }
        }
      }
    }
  }

  /** Rows of annotated objects never raise: they are projected onto the
      header before they are written. */
  lemma InstancesNeverRaise(keys: seq<string>, annotations: seq<string>, attrs: Dict)
    ensures ItemLine(keys, Instance(annotations, attrs)).Ok?
  {
    var d := Project(attrs, keys);
    assert !exists i | 0 <= i < |d| :: d[i].0 !in keys;
  }

  /** A mapping written under its own keys reads back as its values in
      order: pairing the header with the row gives the mapping again. */
  lemma MappingRoundTrip(entries: Dict)
    requires DistinctKeys(entries)
    ensures ItemLine(ExtractKeys(Mapping(entries)), Mapping(entries)).Ok?
    ensures var keys := ExtractKeys(Mapping(entries));
            var row := ItemLine(keys, Mapping(entries)).value;
            |keys| == |row| == |entries| &&
            forall i | 0 <= i < |entries| :: (keys[i], row[i]) == entries[i]
  {
    var keys := KeysOf(entries);
    assert forall i | 0 <= i < |entries| :: entries[i].0 in keys by {
      forall i | 0 <= i < |entries| ensures entries[i].0 in keys {
        assert keys[i] == entries[i].0;
      }
    }
    var row := WriteRow(keys, entries).value;
    forall i | 0 <= i < |entries| ensures row[i] == entries[i].1 {
      assert Lookup(entries, keys[i]) == Some(entries[i].1);
    }
  }

  /** A call with a name and data appends to the named file, with the
      header first when the file was empty or missing. */
  lemma LogAppends(files: FileMap, path: string, data: seq<Item>)
    requires path != "" && data != []
    ensures var keys := ExtractKeys(data[0]);
            var prior := Existing(files, path);
            LogEffect(files, Some(path), data).0
              == files[path := prior + (if prior == [] then [HeaderLine(keys)] else []) + WriteRows(keys, data).0]
  {
  }

  /** A file that already has lines gets no second header. */
  lemma NoHeaderWhenNonEmpty(files: FileMap, path: string, data: seq<Item>)
    requires path != "" && data != []
    requires Existing(files, path) != []
    ensures Existing(LogEffect(files, Some(path), data).0, path) == files[path] + WriteRows(ExtractKeys(data[0]), data).0
  {
    LogAppends(files, path, data);
    assert files[path] + [] == files[path];
  }

  /** The first call on an empty or missing file writes the header, then
      the rows. */
  lemma HeaderFirst(files: FileMap, path: string, data: seq<Item>)
    requires path != "" && data != []
    requires Existing(files, path) == []
    ensures Existing(LogEffect(files, Some(path), data).0, path)
              == [HeaderLine(ExtractKeys(data[0]))] + WriteRows(ExtractKeys(data[0]), data).0
  {
    LogAppends(files, path, data);
    assert [] + [HeaderLine(ExtractKeys(data[0]))] == [HeaderLine(ExtractKeys(data[0]))];
  }

  /** Two appends to an empty file leave one header, then the rows of the
      first call, then those of the second. */
  lemma HeaderWrittenOnce(files: FileMap, path: string, first: seq<Item>, second: seq<Item>)
    requires path != "" && first != [] && second != []
    requires Existing(files, path) == []
    ensures var once := LogEffect(files, Some(path), first).0;
            var twice := LogEffect(once, Some(path), second).0;
            Existing(twice, path) == [HeaderLine(ExtractKeys(first[0]))]
                                     + WriteRows(ExtractKeys(first[0]), first).0
                                     + WriteRows(ExtractKeys(second[0]), second).0
  {
    HeaderFirst(files, path, first);
    NoHeaderWhenNonEmpty(LogEffect(files, Some(path), first).0, path, second);
  }

  /** The row a dict is written as: its values, in key order. */
  function Cells(d: Dict): (l: Line)
    ensures |l| == |d| && forall i | 0 <= i < |d| :: l[i] == d[i].1
  {
    seq(|d|, i requires 0 <= i < |d| => d[i].1)
  }

  /** Logging one dict appends exactly one row, its values in key order,
      after a header of its keys when the file was empty or missing. */
  lemma OneDictLogged(files: FileMap, path: string, entries: Dict)
    requires path != ""
    requires DistinctKeys(entries)
    ensures var keys := KeysOf(entries);
            var prior := Existing(files, path);
            LogEffect(files, Some(path), [Mapping(entries)])
              == (files[path := prior + (if prior == [] then [HeaderLine(keys)] else []) + [Cells(entries)]], Done)
  {
    var keys := KeysOf(entries);
    var data := [Mapping(entries)];
    LogAppends(files, path, data);
    MappingRoundTrip(entries);
    var line := ItemLine(keys, Mapping(entries)).value;
    assert line == Cells(entries);
    assert data[0] == Mapping(entries) && data[1..] == [];
    assert WriteRows(keys, data[1..]) == ([], Done);
    assert [line] + [] == [line];
    assert WriteRows(keys, data) == ([line], Done);
  }

  /** One step of `WriteRows` at position `i`. */
  lemma StepRows(keys: seq<string>, data: seq<Item>, i: nat)
    requires i < |data|
    ensures ItemLine(keys, data[i]).Err? ==> WriteRows(keys, data[i..]) == ([], Raised(ItemLine(keys, data[i]).fault))
    ensures ItemLine(keys, data[i]).Ok? ==>
      WriteRows(keys, data[i..]) == ([ItemLine(keys, data[i]).value] + WriteRows(keys, data[i + 1..]).0, WriteRows(keys, data[i + 1..]).1)
  {
    assert data[i..][0] == data[i];
    assert data[i..][1..] == data[i + 1..];
  }

  /** The files the application writes. */
  class Files {
    var contents: FileMap

    constructor (initial: FileMap)
      ensures contents == initial
    {
      contents := initial;
    }

    /** `log(filename, data)` */
    method Log(filename: Option<string>, data: seq<Item>) returns (r: Outcome)
      modifies this
      ensures (contents, r) == LogEffect(old(contents), filename, data)
    {
      if !Truthy(filename) || data == [] {
        return Done;
      }
      var path := filename.value;
      var keys := ExtractKeys(data[0]);
      var prior := Existing(contents, path);
      var base := prior + (if prior == [] then [HeaderLine(keys)] else []);
      r := WriteAll(path, base, keys, data);
    }

    /** The header (if any) and then the row loop of `log`: `path` ends up
        holding `base` and the rows written before an item raised. */
    method WriteAll(path: string, base: seq<Line>, keys: seq<string>, data: seq<Item>) returns (r: Outcome)
      modifies this
      ensures contents == old(contents)[path := base + WriteRows(keys, data).0]
      ensures r == WriteRows(keys, data).1
    {
      ghost var all := WriteRows(keys, data);
      contents := contents[path := base];
      var written: seq<Line> := [];
      assert base + written == base;
      assert data[0..] == data;
      assert [] + all.0 == all.0;
      var i := 0;
      r := Done;
      while i < |data|
        invariant 0 <= i <= |data|
        invariant contents == old(contents)[path := base + written]
        invariant all == (written + WriteRows(keys, data[i..]).0, WriteRows(keys, data[i..]).1)
      {
        var line := ItemLine(keys, data[i]);
        StepRows(keys, data, i);
        if line.Err? {
          assert written + [] == written;
          return Raised(line.fault);
        }
        ghost var tail := WriteRows(keys, data[i + 1..]);
        assert written + ([line.value] + tail.0) == (written + [line.value]) + tail.0;
        written := written + [line.value];
        contents := contents[path := base + written];
        i := i + 1;
      }
      assert data[i..] == [];
      assert written + [] == written;
    }

    /** Opening `path` with mode "w": the file is created or truncated. */
    method Truncate(path: string)
      modifies this
      ensures contents == old(contents)[path := []]
    {
      contents := contents[path := []];
    }

    /** Writing lines at the end of `path`. */
    method Append(path: string, lines: seq<Line>)
      modifies this
      ensures contents == old(contents)[path := Existing(old(contents), path) + lines]
    {
      contents := contents[path := Existing(contents, path) + lines];
    }
  }
}

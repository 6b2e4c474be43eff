/** The mutable cells of the source: pointers to flat structs, and maps. A nil one is `null`. */
module GoHeap {
  import opened Wrappers
  import opened SpecValues

  /** A pointer to a value that itself holds no pointers. */
  class Ptr<T> {
    var value: T

    constructor (value: T)
      ensures this.value == value
    {
      this.value := value;
    }
  }

  /** `map[string]string`: a reference, shared by everyone it is assigned to. */
  class StringMap {
    var m: Properties

    constructor (m: Properties)
      ensures this.m == m
    {
      this.m := m;
    }
  }

  /** `map[string]map[string]string`. */
  class FileMap {
    var m: map<string, StringMap?>

    constructor (m: map<string, StringMap?>)
      ensures this.m == m
    {
      this.m := m;
    }
  }

  ghost function Deref<T>(p: Ptr?<T>): Option<T>
    reads p
  {
    if p == null then None else Some(p.value)
  }

  ghost function MapValue(p: StringMap?): Option<Properties>
    reads p
  {
    if p == null then None else Some(p.m)
  }

  /** The contents of a map of maps. */
  ghost function Values(files: map<string, StringMap?>): map<string, Option<Properties>>
    reads files.Values
  {
    map f | f in files :: MapValue(files[f])
  }

  ghost function FilesValue(p: FileMap?): Option<map<string, Option<Properties>>>
    reads p, if p == null then {} else p.m.Values
  {
    if p == null then None else Some(Values(p.m))
  }

  // ---------- copying ----------

  /** `*out = new(T); **out = **in`, or nil. */
  method CopyPtr<T>(p: Ptr?<T>) returns (c: Ptr?<T>)
    ensures Deref(c) == Deref(p)
    ensures c != null ==> fresh(c)
  {
    if p == null {
      return null;
    }
    c := new Ptr(p.value);
  }

  /** Copies a map of strings key by key, in any order. */
  method CopyMap(p: StringMap?) returns (c: StringMap?)
    ensures MapValue(c) == MapValue(p)
    ensures c != null ==> fresh(c)
  {
    if p == null {
      return null;
    }
    var copy := new StringMap(map[]);
    var todo := p.m.Keys;
    while todo != {}
      invariant todo <= p.m.Keys
      invariant copy.m == map key | key in p.m && key !in todo :: p.m[key]
    {
      var key :| key in todo;
      copy.m := copy.m[key := p.m[key]];
      todo := todo - {key};
    }
    assert copy.m == p.m;
    c := copy;
  }

  method CopyFiles(p: FileMap?) returns (c: FileMap?)
    ensures FilesValue(c) == FilesValue(p)
    ensures c != null ==> fresh(c)
    ensures c != null ==> forall f | f in c.m && c.m[f] != null :: fresh(c.m[f])
  {
    if p == null {
      return null;
    }
    var copy := new FileMap(map[]);
    var todo := p.m.Keys;
    while todo != {}
      invariant todo <= p.m.Keys
      invariant copy.m.Keys == p.m.Keys - todo
      invariant forall f | f in copy.m && copy.m[f] != null :: fresh(copy.m[f])
      invariant forall f | f in copy.m :: MapValue(copy.m[f]) == MapValue(p.m[f])
    {
      var f :| f in todo;
      var inner := CopyMap(p.m[f]);
      copy.m := copy.m[f := inner];
      todo := todo - {f};
    }
    assert Values(copy.m) == Values(p.m);
    c := copy;
  }
}

/** The Python values that probe results are made of, the insertion-ordered
    dictionaries that hold them, and the `str()` text the reports print. */
module Values {
  import Strings

  datatype Option<+T> = None | Some(value: T)

  datatype Result<+T, +E> = Ok(value: T) | Err(error: E)

  /** The outcome of a call into code outside the model (the network, the
      file system, an image library): a value, or an exception and its text. */
  datatype Attempt<+T> = Returned(value: T) | Raised(message: string)

  newtype byte = x: int | 0 <= x < 256

  /** A JSON-like Python value.  `Dict` keeps its entries in insertion order,
      as Python dictionaries do. */
  datatype Value =
    | Null
    | Bool(b: bool)
    | Int(i: int)
    | Str(s: string)
    | List(items: seq<Value>)
    | Dict(entries: seq<Entry>)

  datatype Entry = Entry(key: string, value: Value)

  /** A dictionary's entries, in insertion order. */
  type Record = seq<Entry>

  function Keys(r: Record): (ks: seq<string>)
    ensures |ks| == |r| && forall i :: 0 <= i < |r| ==> ks[i] == r[i].key
    decreases |r|
  {
    if r == [] then [] else [r[0].key] + Keys(r[1..])
  }

  lemma KeysAppend(a: Record, b: Record)
    ensures Keys(a + b) == Keys(a) + Keys(b)
  {
  }

  /** Python dictionaries never hold a key twice. */
  predicate DistinctKeys(r: Record) {
    forall i, j :: 0 <= i < j < |r| ==> r[i].key != r[j].key
  }

  predicate HasKey(r: Record, k: string) {
    exists i :: 0 <= i < |r| && r[i].key == k
  }

  /** `d.get(k)`: the value stored under `k`, if any. */
  function Get(r: Record, k: string): Option<Value>
    decreases |r|
  {
    if r == [] then None
    else if r[0].key == k then Some(r[0].value)
    else Get(r[1..], k)
  }

  /** `d.get(k)` finds a value exactly when `k` is a key, and the value is
      one stored under `k`. */
  lemma {:induction false} GetSome(r: Record, k: string)
    ensures Get(r, k).Some? <==> HasKey(r, k)
    ensures Get(r, k).Some? ==> exists i :: 0 <= i < |r| && r[i] == Entry(k, Get(r, k).value)
    decreases |r|
  {
    if r != [] && r[0].key != k {
      GetSome(r[1..], k);
      HasKeyTail(r, k);
      if Get(r, k).Some? {
        var i :| 0 <= i < |r[1..]| && r[1..][i] == Entry(k, Get(r, k).value);
        assert r[i + 1] == r[1..][i];
      }
    } else if r != [] {
      assert r[0] == Entry(k, r[0].value);
    }
  }

  lemma {:induction false} GetAt(r: Record, i: nat)
    requires DistinctKeys(r) && i < |r|
    ensures Get(r, r[i].key) == Some(r[i].value)
    decreases i
  {
    if i > 0 {
      assert DistinctKeys(r[1..]);
      GetAt(r[1..], i - 1);
    }
  }

  /** `d[k] = v`: an existing key keeps its position and takes the new
      value; a new key goes to the end. */
  function Set(r: Record, k: string, v: Value): (r': Record)
    ensures |r'| == if HasKey(r, k) then |r| else |r| + 1
    decreases |r|
  {
    if r == [] then [Entry(k, v)]
    else if r[0].key == k then [Entry(k, v)] + r[1..]
    else
      assert HasKey(r, k) <==> HasKey(r[1..], k) by { HasKeyTail(r, k); }
      [r[0]] + Set(r[1..], k, v)
  }

  lemma HasKeyTail(r: Record, k: string)
    requires r != [] && r[0].key != k
    ensures HasKey(r, k) <==> HasKey(r[1..], k)
  {
    if HasKey(r, k) {
      var i :| 0 <= i < |r| && r[i].key == k;
      assert r[1..][i - 1].key == k;
    }
    if HasKey(r[1..], k) {
      var i :| 0 <= i < |r[1..]| && r[1..][i].key == k;
      assert r[i + 1].key == k;
    }
  }

  /** After `d[k] = v` the key order is unchanged, or `k` is appended. */
  lemma {:induction false} SetKeys(r: Record, k: string, v: Value)
    ensures Keys(Set(r, k, v)) == if HasKey(r, k) then Keys(r) else Keys(r) + [k]
    decreases |r|
  {
    if r != [] && r[0].key != k {
      HasKeyTail(r, k);
      SetKeys(r[1..], k, v);
      var t := Set(r[1..], k, v);
      assert ([r[0]] + t)[1..] == t;
    } else if r != [] {
      assert HasKey(r, k);
      assert ([Entry(k, v)] + r[1..])[1..] == r[1..];
    }
  }

  /** After `d[k] = v`, `d[k]` is `v` and every other key reads as before. */
  lemma {:induction false} SetGet(r: Record, k: string, v: Value, k': string)
    ensures Get(Set(r, k, v), k') == if k' == k then Some(v) else Get(r, k')
    decreases |r|
  {
    if r != [] && r[0].key != k {
      SetGet(r[1..], k, v, k');
    }
  }

  /** `d.get(k)` finds the first entry under `k`. */
  lemma {:induction false} GetFirst(r: Record, i: nat)
    requires i < |r| && forall j :: 0 <= j < i ==> r[j].key != r[i].key
    ensures Get(r, r[i].key) == Some(r[i].value)
    decreases i
  {
    if i > 0 {
      GetFirst(r[1..], i - 1);
    }
  }

  /** `d[k] = v` where `k` is already the key at position `i`: that entry
      alone takes the new value. */
  lemma {:induction false} SetExisting(r: Record, i: nat, v: Value)
    requires i < |r| && forall j :: 0 <= j < i ==> r[j].key != r[i].key
    ensures Set(r, r[i].key, v) == r[i := Entry(r[i].key, v)]
    decreases i
  {
    if i > 0 {
      SetExisting(r[1..], i - 1, v);
      assert [r[0]] + r[1..][i - 1 := Entry(r[i].key, v)] == r[i := Entry(r[i].key, v)];
    }
  }

  /** `d[k] = v` for a new key `k` appends the entry. */
  lemma {:induction false} SetNew(r: Record, k: string, v: Value)
    requires forall j :: 0 <= j < |r| ==> r[j].key != k
    ensures Set(r, k, v) == r + [Entry(k, v)]
    decreases |r|
  {
    if r != [] {
      SetNew(r[1..], k, v);
      assert [r[0]] + (r[1..] + [Entry(k, v)]) == r + [Entry(k, v)];
    }
  }

  /** The exceptions that subscripting a value, or asking it for a method
      it does not have, raises. */
  datatype Failure = TypeError(item: Value) | KeyError(key: string) | AttributeError(item: Value, name: string)

  /** `v[k]` for a string key: the value under `k` of a dictionary, a
      KeyError when it has none, a TypeError for a value that is not a
      dictionary. */
  function Lookup(v: Value, k: string): Result<Value, Failure> {
    if !v.Dict? then Err(TypeError(v))
    else
      match Get(v.entries, k)
      case Some(x) => Ok(x)
      case None => Err(KeyError(k))
  }

  /** `k in v` for a string `k`: a key of a dictionary, a substring of a
      string, an element of a list; a TypeError for anything else. */
  function Member(k: string, v: Value): Result<bool, Failure> {
    match v
    case Dict(entries) => Ok(HasKey(entries, k))
    case Str(s) => Ok(Strings.Contains(s, k))
    case List(items) => Ok(Str(k) in items)
    case _ => Err(TypeError(v))
  }

  /** Python truth value: None, False, 0, "" and empty containers are false. */
  predicate Truthy(v: Value) {
    match v
    case Null => false
    case Bool(b) => b
    case Int(i) => i != 0
    case Str(s) => s != ""
    case List(items) => items != []
    case Dict(entries) => entries != []
  }

  /** `str(v)`: strings print as themselves, everything else as `repr`. */
  function Show(v: Value): string
    decreases v, 0
  {
    match v
    case Null => "None"
    case Bool(b) => if b then "True" else "False"
    case Int(i) => Strings.IntToString(i)
    case Str(s) => s
    case List(items) => "[" + ReprItems(items) + "]"
    case Dict(entries) => "{" + ReprEntries(entries) + "}"
  }

  /** `repr(v)`: as `str`, except that a string is quoted. */
  function Repr(v: Value): string
    decreases v, 1
  {
    match v
    case Str(s) => "'" + s + "'"
    case _ => Show(v)
  }

  function ReprItems(items: seq<Value>): string
    decreases items, 2
  {
    if items == [] then ""
    else if |items| == 1 then Repr(items[0])
    else Repr(items[0]) + ", " + ReprItems(items[1..])
  }

  function ReprEntries(entries: seq<Entry>): string
    decreases entries, 2
  {
    if entries == [] then ""
    else
      var first := "'" + entries[0].key + "': " + Repr(entries[0].value);
      if |entries| == 1 then first else first + ", " + ReprEntries(entries[1..])
  }

  /** The text value of a string, and of nothing else. */
  function AsString(v: Value): Option<string> {
    if v.Str? then Some(v.s) else None
  }

  /** A Python string or None, as an optional string. */
  function OptStr(s: Option<string>): Value {
    if s.Some? then Str(s.value) else Null
  }
}

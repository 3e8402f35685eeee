/*
 * Python values as the configuration code sees them: what yaml loading
 * produces (None, bools, ints, floats, strings, lists, dicts), the Path
 * objects and enumeration members the code puts in their place, Python's
 * truthiness, str() and repr(), the dict operations the code uses
 * (get, item assignment, pop), and the element-wise parse of a list.
 *
 * A dict is a list of entries in insertion order, as Python keeps it:
 * assigning to a present key keeps its position, a new key goes last.
 */
module Values {
  import opened Python
  import opened Enums

  datatype Value =
    | VNone
    | VBool(b: bool)
    | VInt(i: int)
      /** A float: its value and the text repr() gives it. */
    | VFloat(x: real, text: string)
    | VStr(s: string)
    | VList(items: seq<Value>)
    | VDict(entries: seq<(string, Value)>)
      /** A pathlib.Path, by its (normalised) text. */
    | VPath(path: string)
    | VEnum(member: Member)

  type Dict = seq<(string, Value)>

  /** `bool(v)` */
  predicate Truthy(v: Value) {
    match v
    case VNone => false
    case VBool(b) => b
    case VInt(i) => i != 0
    case VFloat(x, _) => x != 0.0
    case VStr(s) => s != ""
    case VList(items) => items != []
    case VDict(entries) => entries != []
    case VPath(_) => true
    case VEnum(_) => true
  }

  // ------------------------------------------------------------------- dicts

  function Keys(d: Dict): (r: seq<string>)
    ensures |r| == |d| && forall i :: 0 <= i < |d| ==> r[i] == d[i].0
  {
    seq(|d|, i requires 0 <= i < |d| => d[i].0)
  }

  /** The position of `k` in `ks`, or -1. */
  function IndexOf(ks: seq<string>, k: string): (r: int)
    ensures -1 <= r < |ks|
    ensures r >= 0 ==> ks[r] == k
    ensures forall j :: 0 <= j < |ks| && (r < 0 || j < r) ==> ks[j] != k
  {
    if ks == [] then -1
    else if ks[0] == k then 0
    else
      var j := IndexOf(ks[1..], k);
      if j < 0 then -1 else j + 1
  }

  lemma IndexOfFirst(ks: seq<string>, k: string, j: nat)
    requires j < |ks| && ks[j] == k && forall m :: 0 <= m < j ==> ks[m] != k
    ensures IndexOf(ks, k) == j
  {
  }

  lemma IndexOfAbsent(ks: seq<string>, k: string)
    requires k !in ks
    ensures IndexOf(ks, k) == -1
  {
  }

  /** The position of `k` in `d`, or -1. */
  function Find(d: Dict, k: string): int {
    IndexOf(Keys(d), k)
  }

  /** `d.get(k)`, telling an absent key apart from a None value. */
  function Get(d: Dict, k: string): (r: Option<Value>)
    ensures r.Some? <==> k in Keys(d)
  {
    var i := Find(d, k);
    if i < 0 then None else Some(d[i].1)
  }

  /** `d.get(k, default)` */
  function GetOr(d: Dict, k: string, default: Value): Value {
    match Get(d, k)
    case None => default
    case Some(v) => v
  }

  /** `d[k] = v` */
  function Set(d: Dict, k: string, v: Value): (r: Dict)
    ensures Keys(r) == if k in Keys(d) then Keys(d) else Keys(d) + [k]
  {
    var i := Find(d, k);
    if i < 0 then d + [(k, v)] else d[i := (k, v)]
  }

  /** `d.pop(k)` for a key that is present (the result is the dict afterwards). */
  function Pop(d: Dict, k: string): (r: Dict)
    requires k in Keys(d)
    ensures Keys(r) == Keys(d)[..Find(d, k)] + Keys(d)[Find(d, k) + 1..]
  {
    var i := Find(d, k);
    d[..i] + d[i + 1..]
  }

  /** After `d[k] = v`, `k` reads `v` and every other key reads what it did. */
  lemma GetSet(d: Dict, k: string, v: Value, k': string)
    ensures Get(Set(d, k, v), k') == if k' == k then Some(v) else Get(d, k')
  {
    var e := Set(d, k, v);
    var j := Find(d, k');
    if k !in Keys(d) {
      if k' == k {
        IndexOfFirst(Keys(e), k, |d|);
      } else if j >= 0 {
        IndexOfFirst(Keys(e), k', j);
      } else {
        IndexOfAbsent(Keys(e), k');
      }
    }
  }

  /** No key occurs twice, as in every Python dict. */
  predicate DistinctKeys(d: Dict) {
    forall a, b :: 0 <= a < b < |d| ==> d[a].0 != d[b].0
  }

  lemma SameKeysDistinct(d: Dict, e: Dict)
    requires Keys(d) == Keys(e) && DistinctKeys(d)
    ensures DistinctKeys(e)
  {
    forall a, b | 0 <= a < b < |e| ensures e[a].0 != e[b].0 {
      assert Keys(e)[a] == d[a].0 && Keys(e)[b] == d[b].0;
    }
  }

  /** `d[k] = v` keeps the keys distinct. */
  lemma SetDistinct(d: Dict, k: string, v: Value)
    requires DistinctKeys(d)
    ensures DistinctKeys(Set(d, k, v))
  {
    var e := Set(d, k, v);
    forall a, b | 0 <= a < b < |e| ensures e[a].0 != e[b].0 {
      assert Keys(e)[a] == e[a].0 && Keys(e)[b] == e[b].0;
      if b == |d| {
        assert k !in Keys(d) && e[b].0 == k;
        assert e[a].0 == Keys(d)[a];
      } else {
        assert Keys(e)[a] == Keys(d)[a] && Keys(e)[b] == Keys(d)[b];
      }
    }
  }

  /** `d.pop(k)` keeps the keys distinct. */
  lemma PopDistinct(d: Dict, k: string)
    requires k in Keys(d) && DistinctKeys(d)
    ensures DistinctKeys(Pop(d, k))
  {
    var i := Find(d, k);
    var f := Pop(d, k);
    forall a, b | 0 <= a < b < |f| ensures f[a].0 != f[b].0 {
      assert f[a] == (if a < i then d[a] else d[a + 1]);
      assert f[b] == (if b < i then d[b] else d[b + 1]);
    }
  }

  /** After `d.pop(k)` the key is gone and every other key reads what it did (keys of a loaded dict are distinct). */
  lemma GetPop(d: Dict, k: string, k': string)
    requires k in Keys(d)
    requires DistinctKeys(d)
    ensures Get(Pop(d, k), k') == if k' == k then None else Get(d, k')
  {
    var i := Find(d, k);
    var e := Pop(d, k);
    assert forall m :: 0 <= m < |e| ==> e[m] == if m < i then d[m] else d[m + 1];
    var j := Find(d, k');
    if k' == k || j < 0 {
      IndexOfAbsent(Keys(e), k');
    } else if j < i {
      IndexOfFirst(Keys(e), k', j);
    } else {
      IndexOfFirst(Keys(e), k', j - 1);
    }
  }

  // ------------------------------------------------------------ str / repr

  /** str(v); for the values whose str and repr agree it is their common text. */
  function Str(v: Value): string
    decreases v, 2
  {
    match v
    case VStr(s) => s
    case VPath(p) => p
    case VEnum(m) => m.ToString()
    case VList(_) => Repr(v)
    case VDict(_) => Repr(v)
    case _ => ScalarText(v)
  }

  /** The text of None, a bool, an int or a float, which str and repr share. */
  function ScalarText(v: Value): string {
    match v
    case VNone => "None"
    case VBool(b) => if b then "True" else "False"
    case VInt(i) => IntToString(i)
    case VFloat(_, text) => text
    case _ => ""
  }

  /** repr(v) */
  function Repr(v: Value): string
    decreases v, 1
  {
    match v
    case VStr(s) => ReprStr(s)
    case VPath(p) => "PosixPath(" + ReprStr(p) + ")"
    case VEnum(m) => m.Repr()
    case VList(items) => "[" + ReprItems(v, 0) + "]"
    case VDict(entries) => "{" + ReprEntries(v, 0) + "}"
    case _ => ScalarText(v)
  }

  /** The reprs of a list's items from position `from`, separated by ", ". */
  function ReprItems(v: Value, from: nat): string
    requires v.VList?
    decreases v, 0, |v.items| - from
  {
    if from >= |v.items| then ""
    else if from == |v.items| - 1 then Repr(v.items[from])
    else Repr(v.items[from]) + ", " + ReprItems(v, from + 1)
  }

  /** The "key: value" reprs of a dict's entries from position `from`, separated by ", ". */
  function ReprEntries(v: Value, from: nat): string
    requires v.VDict?
    decreases v, 0, |v.entries| - from
  {
    if from >= |v.entries| then ""
    else
      var e := ReprStr(v.entries[from].0) + ": " + Repr(v.entries[from].1);
      if from == |v.entries| - 1 then e else e + ", " + ReprEntries(v, from + 1)
  }

  /** repr of a str: double quotes when the text has a single quote and no double quote, single quotes otherwise. */
  function ReprStr(s: string): (r: string)
    ensures |r| >= 2 && r[0] == r[|r| - 1] && (r[0] == '\'' || r[0] == '"')
  {
    var q := if '\'' in s && '"' !in s then '"' else '\'';
    [q] + Escape(s, q) + [q]
  }

  /** The body of a str's repr: backslash, the quote in use and \n, \r, \t escaped. */
  function Escape(s: string, q: char): string {
    if s == [] then ""
    else
      var c := s[0];
      var e := if c == '\\' then "\\\\"
        else if c == q then ['\\', q]
        else if c == '\n' then "\\n"
        else if c == '\r' then "\\r"
        else if c == '\t' then "\\t"
        else [c];
      e + Escape(s[1..], q)
  }

  /** The text `str(x).lower()` gives for a one-element list holding a bool: the brackets stay. */
  lemma LoweredSingletonBool(b: bool)
    ensures Lower(Str(VList([VBool(b)]))) == if b then "[true]" else "[false]"
  {
    var v := VList([VBool(b)]);
    assert ReprItems(v, 0) == Str(VBool(b));
    assert Str(v) == "[" + Str(VBool(b)) + "]";
  }

  // -------------------------------------------------- element-wise parsing

  datatype OneOrMany<T> = One(one: T) | Many(many: seq<T>)

  /** A parser that calls .lower() on its argument: anything but a str raises AttributeError. */
  function ParseItem<T>(v: Value, parse: string -> Result<T>): (r: Result<T>)
    ensures !v.VStr? ==> r == Err(AttributeError)
    ensures v.VStr? ==> r == parse(v.s)
  {
    if v.VStr? then parse(v.s) else Err(AttributeError)
  }

  /** `[parse(v) for v in items]`: every item parsed in order; the first failure is raised. */
  function ParseAll<T>(items: seq<Value>, parse: string -> Result<T>): (r: Result<seq<T>>)
    ensures r.Ok? <==> forall i :: 0 <= i < |items| ==> ParseItem(items[i], parse).Ok?
    ensures r.Ok? ==> |r.value| == |items| && forall i :: 0 <= i < |items| ==> r.value[i] == ParseItem(items[i], parse).value
    ensures r.Err? ==> FirstError(items, parse, r.error)
  {
    if items == [] then Ok([])
    else
      var head := ParseItem(items[0], parse);
      if head.Err? then
        assert FirstErrorAt(items, parse, head.error, 0);
        Err(head.error)
      else
        var tail := ParseAll(items[1..], parse);
        if tail.Err? then
          var j :| 0 <= j < |items[1..]| && FirstErrorAt(items[1..], parse, tail.error, j);
          assert FirstErrorAt(items, parse, tail.error, j + 1);
          Err(tail.error)
        else
          Ok([head.value] + tail.value)
  }

  /** `e` is what parsing the item at `j` raises, and every item before it parses. */
  predicate FirstErrorAt<T>(items: seq<Value>, parse: string -> Result<T>, e: Error, j: nat) {
    && j < |items|
    && ParseItem(items[j], parse) == Err(e)
    && forall i :: 0 <= i < j ==> ParseItem(items[i], parse).Ok?
  }

  predicate FirstError<T>(items: seq<Value>, parse: string -> Result<T>, e: Error) {
    exists j :: 0 <= j < |items| && FirstErrorAt(items, parse, e, j)
  }
}

/** Python values as the two catalog scripts see them: the cells of a CSV row
    (read with pandas) and the nodes of the hardware-specification JSON
    document (read with json.load). Only the operations the scripts use are
    defined: truthiness, `or`, `dict.get`, `in`, `len`, and the few `str`
    methods they call. */
module PyValues {

  datatype Option<+T> = None | Some(value: T)

  /** A Python value. `Null` is Python's None (JSON null). A dict keeps its
      entries in insertion order; its keys are strings, as in JSON. A Python
      dict holds each key once, but the type does not enforce it: on a
      repeated key, `Get` and `HasKey` see the first entry, and a loop over
      the entries visits each copy. */
  datatype Value =
    | Null
    | Bool(b: bool)
    | Int(i: int)
    | Real(r: real)
    | Str(s: string)
    | List(items: seq<Value>)
    | Dict(entries: seq<Entry>)

  datatype Entry = Entry(key: string, value: Value)

  /** A record read with `.get`: a CSV row or a JSON object's entries */
  type Row = seq<Entry>

  /** Python's truth value of `v` (`bool(v)`) */
  predicate Truthy(v: Value) {
    match v
    case Null => false
    case Bool(b) => b
    case Int(i) => i != 0
    case Real(r) => r != 0.0
    case Str(s) => s != ""
    case List(xs) => xs != []
    case Dict(es) => es != []
  }

  /** Python's `a or b` */
  function Or(a: Value, b: Value): (r: Value)
    ensures Truthy(r) <==> Truthy(a) || Truthy(b)
    ensures Truthy(a) ==> r == a
  {
    if Truthy(a) then a else b
  }

  predicate IsScalar(v: Value) {
    !v.List? && !v.Dict?
  }

  /** A row of a CSV sheet holds only scalar cells */
  predicate CsvRow(row: Row) {
    forall k | 0 <= k < |row| :: IsScalar(row[k].value)
  }

  /** Values that Python orders with `<`, `<=` against numbers (bool is an int) */
  predicate IsNumber(v: Value) {
    v.Bool? || v.Int? || v.Real?
  }

  /** The numeric value of a number; 0 for anything else (callers only use it
      on numbers) */
  function NumValue(v: Value): (x: real) {
    match v
    case Bool(b) => if b then 1.0 else 0.0
    case Int(i) => i as real
    case Real(r) => r
    case _ => 0.0
  }

  /** A falsy value, or a number: what `x or d` leaves comparable with numbers */
  predicate Orderable(v: Value) {
    !Truthy(v) || IsNumber(v)
  }

  /** `d.get(key, default)` on a dict with entries `es` */
  function Get(es: seq<Entry>, key: string, default: Value): (value: Value)
    decreases |es|
  {
    if es == [] then default
    else if es[0].key == key then es[0].value
    else Get(es[1..], key, default)
  }

  /** `key in d` on a dict with entries `es` */
  predicate HasKey(es: seq<Entry>, key: string)
    decreases |es|
  {
    es != [] && (es[0].key == key || HasKey(es[1..], key))
  }

  /** Values with a length and an `in` test: str, list, dict */
  predicate Sized(v: Value) {
    v.Str? || v.List? || v.Dict?
  }

  /** Python's `key in v` for a string `key`; false on a value without
      `in` (where Python raises TypeError, which callers rule out) */
  predicate In(key: string, v: Value) {
    match v
    case Str(s) => Contains(s, key)
    case List(xs) => Str(key) in xs
    case Dict(es) => HasKey(es, key)
    case _ => false
  }

  /** Python's `len(v)`; 0 on a value without a length (callers rule it out) */
  function Len(v: Value): (n: nat) {
    match v
    case Str(s) => |s|
    case List(xs) => |xs|
    case Dict(es) => |es|
    case _ => 0
  }

  // ---------------------------------------------------------------------
  // Sequences

  /** `[f(x) for x in s]` */
  function MapSeq<A, B>(s: seq<A>, f: A -> B): (r: seq<B>)
    ensures |r| == |s| && forall k | 0 <= k < |s| :: r[k] == f(s[k])
    decreases |s|
  {
    if s == [] then [] else MapSeq(s[..|s| - 1], f) + [f(s[|s| - 1])]
  }

  lemma MapSeqAppend<A, B>(s: seq<A>, x: A, f: A -> B)
    ensures MapSeq(s + [x], f) == MapSeq(s, f) + [f(x)]
  {
    assert (s + [x])[..|s|] == s;
  }

  /** Through an injective `f`, `f(a)` is listed iff `a` is */
  lemma MapSeqMember<A, B>(s: seq<A>, f: A -> B, a: A)
    requires forall x, y :: f(x) == f(y) ==> x == y
    ensures f(a) in MapSeq(s, f) <==> a in s
  {
    if a in s {
      var k :| 0 <= k < |s| && s[k] == a;
      assert MapSeq(s, f)[k] == f(a);
    }
    if f(a) in MapSeq(s, f) {
      var k :| 0 <= k < |s| && MapSeq(s, f)[k] == f(a);
      assert s[k] == a;
    }
  }

  // ---------------------------------------------------------------------
  // Strings

  predicate IsPrefix(p: string, s: string) {
    |p| <= |s| && s[..|p|] == p
  }

  /** Python's `p in s` for strings */
  predicate Contains(s: string, p: string)
    decreases |s|
  {
    IsPrefix(p, s) || (s != [] && Contains(s[1..], p))
  }

  /** Python's `s.replace(p, '')`: every non-overlapping occurrence of `p`,
      scanning left to right, removed */
  function RemoveAll(s: string, p: string): (stripped: string)
    requires p != []
    decreases |s|
  {
    if s == [] then []
    else if IsPrefix(p, s) then RemoveAll(s[|p|..], p)
    else [s[0]] + RemoveAll(s[1..], p)
  }

  function UpperChar(c: char): (upper: char) {
    if 'a' <= c <= 'z' then (c as int - 32) as char else c
  }

  /** Python's `s.upper()` on ASCII letters */
  function Upper(s: string): (upper: string) {
    seq(|s|, k requires 0 <= k < |s| => UpperChar(s[k]))
  }

  /** Number of occurrences of `c` in `s` */
  function CountChar(s: string, c: char): (count: nat)
    decreases |s|
  {
    if s == [] then 0 else (if s[0] == c then 1 else 0) + CountChar(s[1..], c)
  }

  /** Python's `s.split(c)` for a one-character separator */
  function Split(s: string, c: char): (parts: seq<string>)
    ensures |parts| == CountChar(s, c) + 1
    decreases |s|
  {
    if s == [] then [[]]
    else
      var rest := Split(s[1..], c);
      if s[0] == c then [[]] + rest
      else [[s[0]] + rest[0]] + rest[1..]
  }

  // ---------------------------------------------------------------------
  // Facts about the helpers above

  lemma {:induction false} GetAbsent(es: seq<Entry>, key: string, default: Value)
    requires !HasKey(es, key)
    ensures Get(es, key, default) == default
    decreases |es|
  {
    if es != [] {
      GetAbsent(es[1..], key, default);
    }
  }

  lemma {:induction false} GetPresent(es: seq<Entry>, key: string, d1: Value, d2: Value)
    requires HasKey(es, key)
    ensures Get(es, key, d1) == Get(es, key, d2)
    decreases |es|
  {
    if es[0].key != key {
      GetPresent(es[1..], key, d1, d2);
    }
  }

  lemma {:induction false} GetScalar(row: Row, key: string, default: Value)
    requires CsvRow(row) && IsScalar(default)
    ensures IsScalar(Get(row, key, default))
    decreases |row|
  {
    if row != [] && row[0].key != key {
      GetScalar(row[1..], key, default);
    }
  }

  lemma {:induction false} ContainsSuffix(a: string, p: string)
    ensures Contains(a + p, p)
    decreases |a|
  {
    if a != [] {
      assert (a + p)[1..] == a[1..] + p;
      ContainsSuffix(a[1..], p);
    } else {
      assert a + p == p;
    }
  }

  lemma {:induction false} NotContainsWithoutHead(s: string, p: string)
    requires p != [] && p[0] !in s
    ensures !Contains(s, p)
    decreases |s|
  {
    if s != [] {
      NotContainsWithoutHead(s[1..], p);
    }
  }

  lemma {:induction false} RemoveAllAfterFree(a: string, b: string, p: string)
    requires p != [] && p[0] !in a
    ensures RemoveAll(a + b, p) == a + RemoveAll(b, p)
    decreases |a|
  {
    if a != [] {
      assert (a + b)[0] == a[0];
      assert !IsPrefix(p, a + b);
      assert (a + b)[1..] == a[1..] + b;
      RemoveAllAfterFree(a[1..], b, p);
    } else {
      assert a + b == b;
    }
  }

  lemma RemoveAllSelf(p: string)
    requires p != []
    ensures RemoveAll(p, p) == []
  {
    assert IsPrefix(p, p);
    assert p[|p|..] == [];
  }

  lemma UpperAppend(a: string, b: string)
    ensures Upper(a + b) == Upper(a) + Upper(b)
  {
  }

  lemma {:induction false} CountCharAppend(a: string, b: string, c: char)
    ensures CountChar(a + b, c) == CountChar(a, c) + CountChar(b, c)
    decreases |a|
  {
    if a != [] {
      assert (a + b)[1..] == a[1..] + b;
      CountCharAppend(a[1..], b, c);
    } else {
      assert a + b == b;
    }
  }

  lemma {:induction false} CountCharAbsent(s: string, c: char)
    requires c !in s
    ensures CountChar(s, c) == 0
    decreases |s|
  {
    if s != [] {
      CountCharAbsent(s[1..], c);
    }
  }

  lemma {:induction false} SplitWithout(s: string, c: char)
    requires c !in s
    ensures Split(s, c) == [s]
    decreases |s|
  {
    if s != [] {
      SplitWithout(s[1..], c);
      assert [s[0]] + s[1..] == s;
    }
  }

  /** Splitting `a + [c] + b` at `c`, where `a` holds no `c` */
  lemma {:induction false} SplitAt(a: string, b: string, c: char)
    requires c !in a
    ensures Split(a + [c] + b, c) == [a] + Split(b, c)
    decreases |a|
  {
    if a == [] {
      assert a + [c] + b == [c] + b;
      assert ([c] + b)[1..] == b;
    } else {
      assert (a + [c] + b)[1..] == a[1..] + [c] + b;
      SplitAt(a[1..], b, c);
      assert [a[0]] + a[1..] == a;
    }
  }
}

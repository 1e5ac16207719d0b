/**
 * The PHP values the server side of the plugin handles, PHP's notion of an
 * "empty" value, its default trim() and its ordered arrays.
 */
module Php {
  import opened Wrappers
  import Strings

  /** A PHP array key. */
  datatype Key = IntKey(n: int) | StrKey(s: string)

  /**
   * A PHP value. Arrays are ordered maps: a sequence of key/value entries.
   * Floats and objects are not modelled.
   */
  datatype Value = Null | Bool(b: bool) | Int(i: int) | Str(s: string) | Arr(entries: seq<(Key, Value)>)

  /** The string test of PHP's empty(): "" and "0" are empty. */
  predicate EmptyString(s: string) {
    s == "" || s == "0"
  }

  /** PHP's empty(): null, false, 0, "", "0" and [] are empty; also the falsy test of `?:`. */
  predicate Empty(v: Value) {
    match v
    case Null => true
    case Bool(b) => !b
    case Int(i) => i == 0
    case Str(s) => EmptyString(s)
    case Arr(e) => e == []
  }

  /** The characters PHP's trim() removes by default: space, \t, \n, \r, \0 and \x0B. */
  predicate IsTrimSpace(c: char) {
    c == ' ' || c == '\t' || c == '\n' || c == '\r' || c == '\0' || c as int == 11
  }

  /** PHP's trim() with its default character list. */
  function Trim(s: string): string {
    Strings.Trim(s, IsTrimSpace)
  }

  /**
   * The string a scalar converts to (what trim() and esc_*() receive).
   * An array converts to "" here: PHP 7 makes trim() of an array return
   * null with a warning.
   */
  function ToStr(v: Value): string {
    match v
    case Null => ""
    case Bool(b) => if b then "1" else ""
    case Int(i) => Strings.IntString(i)
    case Str(s) => s
    case Arr(_) => ""
  }

  /** PHP's ctype_digit() on a string: non-empty and only ASCII digits. */
  predicate CtypeDigit(s: string) {
    s != [] && Strings.AllDigits(s)
  }

  /** get_option(name, default) over an option table. */
  function GetOption(options: map<string, Value>, name: string, default: Value): (v: Value)
    ensures name in options ==> v == options[name]
    ensures name !in options ==> v == default
  {
    if name in options then options[name] else default
  }

  // ---------------------------------------------------------------------
  // Ordered arrays: `$a[$k] = $v` and `unset($a[$k])` over key/value lists.
  // ---------------------------------------------------------------------

  function KeySeq<K, V>(a: seq<(K, V)>): (r: seq<K>)
    ensures |r| == |a| && forall i :: 0 <= i < |a| ==> r[i] == a[i].0
  {
    if a == [] then [] else [a[0].0] + KeySeq(a[1..])
  }

  predicate HasKey<K(==), V>(a: seq<(K, V)>, k: K) {
    exists i :: 0 <= i < |a| && a[i].0 == k
  }

  predicate UniqueKeys<K(==), V>(a: seq<(K, V)>) {
    forall i, j :: 0 <= i < j < |a| ==> a[i].0 != a[j].0
  }

  /** `$a[$k]`: the value of the first entry with key k. */
  function Get<K(==), V>(a: seq<(K, V)>, k: K): (r: Option<V>)
    ensures r.Some? <==> HasKey(a, k)
    ensures r.Some? ==> exists i :: 0 <= i < |a| && a[i] == (k, r.value)
  {
    if a == [] then None
    else if a[0].0 == k then Some(a[0].1)
    else
      var r := Get(a[1..], k);
      assert HasKey(a[1..], k) ==> HasKey(a, k) by {
        if HasKey(a[1..], k) {
          var i :| 0 <= i < |a[1..]| && a[1..][i].0 == k;
          assert a[i + 1].0 == k;
        }
      }
      assert r.Some? ==> exists i :: 0 <= i < |a| && a[i] == (k, r.value) by {
        if r.Some? {
          var i :| 0 <= i < |a[1..]| && a[1..][i] == (k, r.value);
          assert a[i + 1] == (k, r.value);
        }
      }
      r
  }

  /** `$a[$k] = $v`: replaces the value in place when the key exists, otherwise appends. */
  function Set<K(==), V>(a: seq<(K, V)>, k: K, v: V): (r: seq<(K, V)>)
    ensures HasKey(a, k) ==> |r| == |a| && KeySeq(r) == KeySeq(a)
    ensures !HasKey(a, k) ==> r == a + [(k, v)]
  {
    if a == [] then [(k, v)]
    else if a[0].0 == k then [(k, v)] + a[1..]
    else
      assert HasKey(a, k) <==> HasKey(a[1..], k) by {
        if HasKey(a, k) {
          var i :| 0 <= i < |a| && a[i].0 == k;
          assert a[1..][i - 1].0 == k;
        }
        if HasKey(a[1..], k) {
          var i :| 0 <= i < |a[1..]| && a[1..][i].0 == k;
          assert a[i + 1].0 == k;
        }
      }
      [a[0]] + Set(a[1..], k, v)
  }

  /** `unset($a[$k])`: removes the entries with key k, keeping the order of the others. */
  function Unset<K(==), V>(a: seq<(K, V)>, k: K): (r: seq<(K, V)>)
    ensures !HasKey(r, k)
    ensures |r| <= |a|
  {
    if a == [] then []
    else if a[0].0 == k then Unset(a[1..], k)
    else
      var t := Unset(a[1..], k);
      var r := [a[0]] + t;
      assert forall i :: 1 <= i < |r| ==> r[i] == t[i - 1];
      r
  }

  /** The entries whose key is not in ks, in their original order: what a run of unsets leaves. */
  function Drop<K(==), V>(a: seq<(K, V)>, ks: set<K>): (r: seq<(K, V)>)
    ensures forall i :: 0 <= i < |r| ==> r[i].0 !in ks
  {
    if a == [] then []
    else
      var t := Drop(a[1..], ks);
      if a[0].0 in ks then t
      else
        var r := [a[0]] + t;
        assert forall i :: 1 <= i < |r| ==> r[i] == t[i - 1];
        r
  }

  lemma {:induction false} DropNothing<K, V>(a: seq<(K, V)>)
    ensures Drop(a, {}) == a
  {
    if a != [] {
      DropNothing(a[1..]);
    }
  }

  /** One more unset after a run of them drops one more key, and keeps the order of the rest. */
  lemma {:induction false} UnsetDrop<K, V>(a: seq<(K, V)>, ks: set<K>, k: K)
    ensures Unset(Drop(a, ks), k) == Drop(a, ks + {k})
  {
    if a != [] {
      UnsetDrop(a[1..], ks, k);
      var t := Drop(a[1..], ks);
      if a[0].0 !in ks {
        assert ([a[0]] + t)[1..] == t;
      }
    }
  }

  /** `$a[k1] = v1; $a[k2] = v2; ...`: the assignments of kvs, applied in order. */
  function SetAll<K(==), V>(a: seq<(K, V)>, kvs: seq<(K, V)>): seq<(K, V)>
    decreases |kvs|
  {
    if kvs == [] then a else SetAll(Set(a, kvs[0].0, kvs[0].1), kvs[1..])
  }

  /** The value the last assignment to k in kvs gives it, if there is one. */
  function LastAssigned<K(==), V>(kvs: seq<(K, V)>, k: K): Option<V> {
    if kvs == [] then None
    else match LastAssigned(kvs[1..], k)
      case Some(v) => Some(v)
      case None => if kvs[0].0 == k then Some(kvs[0].1) else None
  }

  function KeysOf<K, V>(kvs: seq<(K, V)>): set<K> {
    set i | 0 <= i < |kvs| :: kvs[i].0
  }

  /** After a run of assignments, a key holds its last assigned value, or what it held before. */
  lemma {:induction false} GetSetAll<K, V>(a: seq<(K, V)>, kvs: seq<(K, V)>, k: K)
    ensures Get(SetAll(a, kvs), k) == if LastAssigned(kvs, k).Some? then LastAssigned(kvs, k) else Get(a, k)
    decreases |kvs|
  {
    if kvs != [] {
      GetSetAll(Set(a, kvs[0].0, kvs[0].1), kvs[1..], k);
      GetSet(a, kvs[0].0, kvs[0].1, k);
    }
  }

  predicate DistinctKeys<K(==), V>(kvs: seq<(K, V)>) {
    forall i, j :: 0 <= i < j < |kvs| ==> kvs[i].0 != kvs[j].0
  }

  /** With distinct keys, each key ends up with the one value assigned to it. */
  lemma {:induction false} LastAssignedDistinct<K, V>(kvs: seq<(K, V)>, i: nat)
    requires DistinctKeys(kvs) && i < |kvs|
    ensures LastAssigned(kvs, kvs[i].0) == Some(kvs[i].1)
  {
    var k := kvs[i].0;
    if i == 0 {
      assert forall j :: 0 <= j < |kvs[1..]| ==> kvs[1..][j].0 == kvs[j + 1].0 != k;
      NotAssigned(kvs[1..], k);
    } else {
      assert kvs[1..][i - 1] == kvs[i];
      LastAssignedDistinct(kvs[1..], i - 1);
    }
  }

  /** A key no assignment names is not assigned. */
  lemma {:induction false} NotAssigned<K, V>(kvs: seq<(K, V)>, k: K)
    requires k !in KeysOf(kvs)
    ensures LastAssigned(kvs, k).None?
  {
    if kvs != [] {
      assert KeysOf(kvs[1..]) <= KeysOf(kvs) by {
        forall x | x in KeysOf(kvs[1..]) ensures x in KeysOf(kvs) {
          var i :| 0 <= i < |kvs[1..]| && kvs[1..][i].0 == x;
          assert kvs[i + 1].0 == x;
        }
      }
      NotAssigned(kvs[1..], k);
      assert kvs[0].0 in KeysOf(kvs);
    }
  }

  /** A run of assignments keeps the existing keys in place and appends only assigned keys, at most one per assignment. */
  lemma {:induction false} SetAllExtends<K, V>(a: seq<(K, V)>, kvs: seq<(K, V)>)
    ensures Extends(a, SetAll(a, kvs), KeysOf(kvs), |kvs|)
    decreases |kvs|
  {
    if kvs != [] {
      var b := Set(a, kvs[0].0, kvs[0].1);
      SetExtends(a, kvs[0].0, kvs[0].1);
      SetAllExtends(b, kvs[1..]);
      ExtendsTrans(a, b, SetAll(b, kvs[1..]), {kvs[0].0}, KeysOf(kvs[1..]), 1, |kvs| - 1);
      assert {kvs[0].0} + KeysOf(kvs[1..]) == KeysOf(kvs) by {
        forall x | x in KeysOf(kvs[1..]) ensures x in KeysOf(kvs) {
          var i :| 0 <= i < |kvs[1..]| && kvs[1..][i].0 == x;
          assert kvs[i + 1].0 == x;
        }
        forall x | x in KeysOf(kvs) ensures x in {kvs[0].0} + KeysOf(kvs[1..]) {
          var i :| 0 <= i < |kvs| && kvs[i].0 == x;
          if i > 0 {
            assert kvs[1..][i - 1].0 == x;
          }
        }
      }
    }
  }

  /** Four unsets in a row keep exactly the entries whose key is none of the four, in order. */
  lemma UnsetFour<K, V>(a: seq<(K, V)>, k1: K, k2: K, k3: K, k4: K)
    ensures Unset(Unset(Unset(Unset(a, k1), k2), k3), k4) == Drop(a, {k1, k2, k3, k4})
  {
    DropNothing(a);
    UnsetDrop(a, {}, k1);
    UnsetDrop(a, {k1}, k2);
    UnsetDrop(a, {k1, k2}, k3);
    UnsetDrop(a, {k1, k2, k3}, k4);
    assert {} + {k1} == {k1} && {k1} + {k2} == {k1, k2} && {k1, k2} + {k3} == {k1, k2, k3};
    assert {k1, k2, k3} + {k4} == {k1, k2, k3, k4};
  }

  lemma {:induction false} GetSet<K, V>(a: seq<(K, V)>, k: K, v: V, k': K)
    ensures Get(Set(a, k, v), k') == if k' == k then Some(v) else Get(a, k')
  {
    if a != [] && a[0].0 != k {
      GetSet(a[1..], k, v, k');
    }
  }

  lemma {:induction false} GetUnset<K, V>(a: seq<(K, V)>, k: K, k': K)
    ensures Get(Unset(a, k), k') == if k' == k then None else Get(a, k')
  {
    if a != [] {
      GetUnset(a[1..], k, k');
    }
  }

  /** Unset keeps exactly the entries whose key differs from k, in order. */
  lemma {:induction false} UnsetKeys<K, V>(a: seq<(K, V)>, k: K)
    ensures KeySeq(Unset(a, k)) == Without(KeySeq(a), k)
  {
    if a != [] {
      UnsetKeys(a[1..], k);
      assert KeySeq(a)[1..] == KeySeq(a[1..]);
    }
  }

  /** The sequence s without the occurrences of x. */
  function Without<K(==)>(s: seq<K>, x: K): (r: seq<K>)
    ensures x !in r && |r| <= |s|
    ensures forall i :: 0 <= i < |s| && s[i] != x ==> s[i] in r
    ensures forall i :: 0 <= i < |r| ==> r[i] in s
  {
    if s == [] then [] else (if s[0] == x then [] else [s[0]]) + Without(s[1..], x)
  }

  lemma {:induction false} SetPreservesUnique<K, V>(a: seq<(K, V)>, k: K, v: V)
    requires UniqueKeys(a)
    ensures UniqueKeys(Set(a, k, v))
  {
    var r := Set(a, k, v);
    if HasKey(a, k) {
      assert forall i :: 0 <= i < |r| ==> r[i].0 == KeySeq(r)[i] == KeySeq(a)[i] == a[i].0;
    }
  }

  /** An entry appended under another key is invisible to `$a[$k']`. */
  lemma {:induction false} GetAppendOther<K, V>(a: seq<(K, V)>, k: K, v: V, k': K)
    requires k' != k
    ensures Get(a + [(k, v)], k') == Get(a, k')
  {
    if a != [] {
      assert (a + [(k, v)])[1..] == a[1..] + [(k, v)];
      GetAppendOther(a[1..], k, v, k');
    }
  }

  /** What `$a[$k] = $v` does, for every key at once: k maps to v, other keys keep their value. */
  /** Setting a key the list does not hold appends it. */
  lemma SetAbsent<K, V>(a: seq<(K, V)>, k: K, v: V)
    requires forall i :: 0 <= i < |a| ==> a[i].0 != k
    ensures Set(a, k, v) == a + [(k, v)]
  {
  }

  /** Setting two distinct keys the list does not hold appends both, in order. */
  lemma SetAbsentTwice<K, V>(a: seq<(K, V)>, k: K, v: V, k': K, v': V)
    requires k != k'
    requires forall i :: 0 <= i < |a| ==> a[i].0 != k && a[i].0 != k'
    ensures Set(Set(a, k, v), k', v') == a + [(k, v)] + [(k', v')]
  {
    SetAbsent(a, k, v);
    AppendAbsent(a, (k, v), k');
    SetAbsent(a + [(k, v)], k', v');
  }

  /** Appending a pair under another key keeps a key absent. */
  lemma AppendAbsent<K, V>(a: seq<(K, V)>, p: (K, V), k: K)
    requires p.0 != k
    requires forall i :: 0 <= i < |a| ==> a[i].0 != k
    ensures forall i :: 0 <= i < |a + [p]| ==> (a + [p])[i].0 != k
  {
    forall i | 0 <= i < |a + [p]|
      ensures (a + [p])[i].0 != k
    {
      if i < |a| {
        assert (a + [p])[i] == a[i];
      }
    }
  }

  lemma SetFacts<K, V>(a: seq<(K, V)>, k: K, v: V)
    ensures forall k' :: Get(Set(a, k, v), k') == if k' == k then Some(v) else Get(a, k')
  {
    forall k' {
      GetSet(a, k, v, k');
    }
  }

  /** r keeps a's keys in place and appends at most n entries, whose keys lie in ks. */
  predicate Extends<K, V>(a: seq<(K, V)>, r: seq<(K, V)>, ks: set<K>, n: nat) {
    && |a| <= |r| <= |a| + n
    && (forall i :: 0 <= i < |a| ==> r[i].0 == a[i].0)
    && (forall i :: |a| <= i < |r| ==> r[i].0 in ks)
  }

  /** `$a[$k] = $v` keeps the existing keys in place and adds at most k, at the end. */
  lemma SetExtends<K, V>(a: seq<(K, V)>, k: K, v: V)
    ensures Extends(a, Set(a, k, v), {k}, 1)
  {
    var r := Set(a, k, v);
    if HasKey(a, k) {
      assert forall i :: 0 <= i < |a| ==> r[i].0 == KeySeq(r)[i] == KeySeq(a)[i];
    }
  }

  lemma ExtendsTrans<K, V>(a: seq<(K, V)>, b: seq<(K, V)>, c: seq<(K, V)>, ks: set<K>, ks': set<K>, n: nat, n': nat)
    requires Extends(a, b, ks, n) && Extends(b, c, ks', n')
    ensures Extends(a, c, ks + ks', n + n')
  {
  }

  /** What `unset($a[$k])` does, for every key at once. */
  lemma UnsetFacts<K, V>(a: seq<(K, V)>, k: K)
    ensures forall k' :: Get(Unset(a, k), k') == if k' == k then None else Get(a, k')
  {
    forall k' {
      GetUnset(a, k, k');
    }
  }

  /** A list: an array whose keys are 0, 1, ..., n - 1 in order. */
  function List(items: seq<Value>): (v: Value)
    ensures v.Arr? && |v.entries| == |items|
    ensures forall i :: 0 <= i < |items| ==> v.entries[i] == (IntKey(i), items[i])
  {
    Arr(seq(|items|, i requires 0 <= i < |items| => (IntKey(i), items[i])))
  }

  /** The values of an array in order (what array_merge and json_encode see of a list). */
  function Values(entries: seq<(Key, Value)>): (r: seq<Value>)
    ensures |r| == |entries| && forall i :: 0 <= i < |r| ==> r[i] == entries[i].1
  {
    seq(|entries|, i requires 0 <= i < |entries| => entries[i].1)
  }

  lemma ValuesOfList(items: seq<Value>)
    ensures Values(List(items).entries) == items
  {
  }
}

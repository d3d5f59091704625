/** Values as the Python code sees them after `json.loads`, and the
  * dictionary operations the code applies to them. A dictionary is a
  * sequence of (key, value) entries in insertion order, which is the
  * iteration order the code observes. */
module JsonValues {
  import opened Common

  datatype Value =
    | Null
    | Bool(b: bool)
    | Int(i: int)
    | Str(s: string)
    | List(items: seq<Value>)
    | Dict(entries: seq<(string, Value)>)

  /** Python truthiness: None, False, 0, '' and empty containers are
    * false. */
  predicate PyTruthy(v: Value)
  {
    match v
    case Null => false
    case Bool(b) => b
    case Int(i) => i != 0
    case Str(s) => s != ""
    case List(xs) => xs != []
    case Dict(es) => es != []
  }

  /** The keys of a dictionary, in order. */
  function KeysOf<V>(es: seq<(string, V)>): (r: seq<string>)
    ensures |r| == |es|
    ensures forall i :: 0 <= i < |es| ==> r[i] == es[i].0
  {
    if es == [] then [] else [es[0].0] + KeysOf(es[1..])
  }

  /** No key occurs twice: what a Python dict always satisfies. */
  predicate UniqueKeys<V>(es: seq<(string, V)>)
  {
    forall i, j :: 0 <= i < j < |es| ==> es[i].0 != es[j].0
  }

  predicate HasKey<V>(es: seq<(string, V)>, k: string)
  {
    exists i :: 0 <= i < |es| && es[i].0 == k
  }

  /** `d.get(k)`: the value of the first entry with key `k`. */
  function Get<V>(es: seq<(string, V)>, k: string): (r: Option<V>)
    ensures r.Some? <==> HasKey(es, k)
  {
    if es == [] then None
    else if es[0].0 == k then Some(es[0].1)
    else
      var r := Get(es[1..], k);
      assert HasKey(es, k) <==> HasKey(es[1..], k) by {
        if HasKey(es[1..], k) {
          var i :| 0 <= i < |es[1..]| && es[1..][i].0 == k;
          assert es[i + 1].0 == k;
        }
        if HasKey(es, k) {
          var i :| 0 <= i < |es| && es[i].0 == k;
          assert i > 0 && es[1..][i - 1].0 == k;
        }
      }
      r
  }

  /** `d.get(k, default)`. */
  function GetOr<V>(es: seq<(string, V)>, k: string, default: V): V
  {
    match Get(es, k)
    case Some(v) => v
    case None => default
  }

  /** `d[k] = v`: an existing key keeps its position and takes the new
    * value; a new key is appended. */
  function Put<V>(es: seq<(string, V)>, k: string, v: V): (r: seq<(string, V)>)
    ensures Get(r, k) == Some(v)
    ensures forall j :: j != k ==> Get(r, j) == Get(es, j)
    ensures HasKey(es, k) ==> KeysOf(r) == KeysOf(es)
    ensures !HasKey(es, k) ==> KeysOf(r) == KeysOf(es) + [k]
  {
    if es == [] then
      ConsEntry((k, v), []);
      [(k, v)]
    else
      ConsEntry(es[0], es[1..]);
      assert [es[0]] + es[1..] == es;
      if es[0].0 == k then
        ConsEntry((k, v), es[1..]);
        [(k, v)] + es[1..]
      else
        var rest := Put(es[1..], k, v);
        ConsEntry(es[0], rest);
        [es[0]] + rest
  }

  /** Lookups in a dictionary with one more entry in front. */
  lemma ConsEntry<V>(e: (string, V), rest: seq<(string, V)>)
    ensures forall j :: Get([e] + rest, j) == if e.0 == j then Some(e.1) else Get(rest, j)
    ensures forall j :: HasKey([e] + rest, j) <==> e.0 == j || HasKey(rest, j)
    ensures KeysOf([e] + rest) == [e.0] + KeysOf(rest)
  {
    var r := [e] + rest;
    assert r[1..] == rest;
    forall j | HasKey(r, j) && e.0 != j ensures HasKey(rest, j) {
      var i :| 0 <= i < |r| && r[i].0 == j;
      assert rest[i - 1].0 == j;
    }
    forall j | HasKey(rest, j) ensures HasKey(r, j) {
      var i :| 0 <= i < |rest| && rest[i].0 == j;
      assert r[i + 1].0 == j;
    }
    assert r[0].0 == e.0;
  }

  /** Each entry after a put is the new one or the entry that was there. */
  lemma {:induction false} PutEntries<V>(es: seq<(string, V)>, k: string, v: V, i: int)
    requires 0 <= i < |Put(es, k, v)|
    ensures Put(es, k, v)[i] == (k, v) || (i < |es| && Put(es, k, v)[i] == es[i])
  {
    if es != [] && es[0].0 != k && i > 0 {
      PutEntries(es[1..], k, v, i - 1);
    }
  }

  /** Putting into a dictionary keeps its keys unique. */
  /** A dictionary with no key is empty. */
  lemma NoKeysMeansEmpty<V>(es: seq<(string, V)>)
    requires forall k :: !HasKey(es, k)
    ensures es == []
  {
    if es != [] {
      assert HasKey(es, es[0].0);
    }
  }

  lemma PutKeepsKeysUnique<V>(es: seq<(string, V)>, k: string, v: V)
    requires UniqueKeys(es)
    ensures UniqueKeys(Put(es, k, v))
  {
    var r := Put(es, k, v);
    forall i, j | 0 <= i < j < |r| ensures r[i].0 != r[j].0 {
      assert KeysOf(r)[i] == r[i].0 && KeysOf(r)[j] == r[j].0;
      if j < |es| {
        assert KeysOf(es)[i] == es[i].0 && KeysOf(es)[j] == es[j].0;
      } else {
        assert KeysOf(es)[i] == es[i].0;
      }
    }
  }

  /** `d.pop(k)`: the dictionary without the entry for `k`, or None when
    * there is no such entry (KeyError). */
  function Pop<V>(es: seq<(string, V)>, k: string): (r: Option<seq<(string, V)>>)
    ensures r.None? <==> !HasKey(es, k)
    ensures r.Some? && UniqueKeys(es) ==> !HasKey(r.value, k)
    ensures r.Some? ==> forall j :: j != k ==> Get(r.value, j) == Get(es, j)
    ensures r.Some? ==> |r.value| == |es| - 1
  {
    if es == [] then None
    else if es[0].0 == k then
      assert HasKey(es, k);
      assert UniqueKeys(es) ==> !HasKey(es[1..], k) by {
        if UniqueKeys(es) {
          forall i | 0 <= i < |es[1..]| ensures es[1..][i].0 != k {
            assert es[1..][i] == es[i + 1];
          }
        }
      }
      Some(es[1..])
    else
      var rest := Pop(es[1..], k);
      assert HasKey(es, k) <==> HasKey(es[1..], k) by {
        if HasKey(es[1..], k) {
          var i :| 0 <= i < |es[1..]| && es[1..][i].0 == k;
          assert es[i + 1].0 == k;
        }
        if HasKey(es, k) {
          var i :| 0 <= i < |es| && es[i].0 == k;
          assert i > 0 && es[1..][i - 1].0 == k;
        }
      }
      assert UniqueKeys(es) ==> UniqueKeys(es[1..]) by {
        if UniqueKeys(es) {
          forall i, j | 0 <= i < j < |es[1..]| ensures es[1..][i].0 != es[1..][j].0 {
            assert es[1..][i] == es[i + 1] && es[1..][j] == es[j + 1];
          }
        }
      }
      match rest
      case None => None
      case Some(t) =>
        var r := [es[0]] + t;
        assert r[1..] == t;
        assert !HasKey(t, k) ==> !HasKey(r, k) by {
          if HasKey(r, k) {
            var i :| 0 <= i < |r| && r[i].0 == k;
            assert i > 0 && t[i - 1].0 == k;
          }
        }
        Some(r)
  }

  /** `d.update(e)`: each entry of `e` put into `d` in order. */
  function Update<V>(es: seq<(string, V)>, other: seq<(string, V)>): (r: seq<(string, V)>)
    ensures forall j :: !HasKey(other, j) ==> Get(r, j) == Get(es, j)
    ensures UniqueKeys(es) ==> UniqueKeys(r)
    ensures forall j :: HasKey(es, j) || HasKey(other, j) ==> HasKey(r, j)
    ensures |other| == 1 ==> r == Put(es, other[0].0, other[0].1)
    decreases |other|
  {
    if other == [] then es
    else
      UpdateStep(es, other);
      Update(Put(es, other[0].0, other[0].1), other[1..])
  }

  /** What one step of `Update` keeps: unique keys, and the keys the rest
    * of `other` does not touch. */
  lemma UpdateStep<V>(es: seq<(string, V)>, other: seq<(string, V)>)
    requires other != []
    ensures UniqueKeys(es) ==> UniqueKeys(Put(es, other[0].0, other[0].1))
    ensures forall j :: !HasKey(other, j) ==> !HasKey(other[1..], j) && j != other[0].0
    ensures forall j :: HasKey(other, j) ==> j == other[0].0 || HasKey(other[1..], j)
  {
    if UniqueKeys(es) { PutKeepsKeysUnique(es, other[0].0, other[0].1); }
    forall j | HasKey(other, j) && j != other[0].0 ensures HasKey(other[1..], j) {
      var i :| 0 <= i < |other| && other[i].0 == j;
      assert other[1..][i - 1].0 == j;
    }
    forall j | HasKey(other[1..], j) ensures HasKey(other, j) {
      var i :| 0 <= i < |other[1..]| && other[1..][i].0 == j;
      assert other[i + 1].0 == j;
    }
  }

  /** The dictionary built from `pairs` by `d[k] = v` in order. */
  function FromPairs<V>(pairs: seq<(string, V)>): seq<(string, V)>
  {
    Update([], pairs)
  }

  /** Putting a key that is already present, with its present value,
    * changes nothing. */
  lemma {:induction false} PutPresent<V>(es: seq<(string, V)>, k: string)
    requires HasKey(es, k)
    ensures Put(es, k, Get(es, k).value) == es
  {
    if es[0].0 != k {
      assert HasKey(es[1..], k) by {
        var i :| 0 <= i < |es| && es[i].0 == k;
        assert i > 0 && es[1..][i - 1].0 == k;
      }
      PutPresent(es[1..], k);
      assert [es[0]] + es[1..] == es;
    } else {
      assert [(k, es[0].1)] + es[1..] == es;
    }
  }
}

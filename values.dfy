/** JSON-like JavaScript values and plain objects as ordered property lists.

    A plain object is a sequence of entries in property order.  Assigning a
    property (`o[k] = v`) keeps the position of an existing key and appends a
    new one; lodash's `extend(target, src)` assigns the properties of `src`
    to `target` one after the other. */
module JsValues {
  import opened Wrappers

  datatype Value =
    | Nil                    // null or undefined
    | Str(s: string)
    | Num(n: int)
    | Bool(b: bool)
    | Date(time: int)
    | RegExp(pattern: string)
    | Func(name: string)
    | Arr(items: seq<Value>)
    | Obj(entries: seq<Entry>)

  datatype Entry = Entry(key: string, val: Value)

  /** The set of property names of an object. */
  function KeySet(es: seq<Entry>): set<string>
  {
    set i | 0 <= i < |es| :: es[i].key
  }

  lemma KeySetConcat(a: seq<Entry>, b: seq<Entry>)
    ensures KeySet(a + b) == KeySet(a) + KeySet(b)
  {
    var ab := a + b;
    forall x | x in KeySet(a) ensures x in KeySet(ab) {
      var i :| 0 <= i < |a| && a[i].key == x;
      assert ab[i] == a[i];
    }
    forall x | x in KeySet(b) ensures x in KeySet(ab) {
      var i :| 0 <= i < |b| && b[i].key == x;
      assert ab[|a| + i] == b[i];
    }
  }

  /** Every property name occurs once: what a JavaScript object guarantees. */
  ghost predicate UniqueKeys(es: seq<Entry>)
  {
    forall i, j :: 0 <= i < j < |es| ==> es[i].key != es[j].key
  }

  /** Property read `o[k]`: the value of the first entry named `k`. */
  function Get(es: seq<Entry>, k: string): (r: Option<Value>)
    ensures r.Some? <==> k in KeySet(es)
  {
    if es == [] then None
    else if es[0].key == k then Some(es[0].val)
    else
      KeySetConcat([es[0]], es[1..]);
      assert es == [es[0]] + es[1..];
      assert KeySet([es[0]]) == {es[0].key};
      Get(es[1..], k)
  }

  /** The value of the last entry named `k`: what wins when a list of
      assignments names `k` more than once. */
  function GetLast(es: seq<Entry>, k: string): Option<Value>
    decreases |es|
  {
    if es == [] then None
    else if es[|es| - 1].key == k then Some(es[|es| - 1].val)
    else GetLast(es[..|es| - 1], k)
  }

  /** Property assignment `o[k] = v`. */
  function Put(es: seq<Entry>, k: string, v: Value): seq<Entry>
  {
    if es == [] then [Entry(k, v)]
    else if es[0].key == k then [Entry(k, v)] + es[1..]
    else [es[0]] + Put(es[1..], k, v)
  }

  /** Assignment position by position: an entry named `k` is overwritten in
      place, every other entry is untouched, and one entry is appended
      exactly when no entry was named `k`. */
  lemma {:induction false} PutPositions(es: seq<Entry>, k: string, v: Value)
    ensures var r := Put(es, k, v);
      && (|r| == |es| || |r| == |es| + 1)
      && (|r| == |es| + 1 <==> forall i :: 0 <= i < |es| ==> es[i].key != k)
      && (forall i :: 0 <= i < |es| ==> r[i].key == es[i].key)
      && (forall i :: 0 <= i < |es| && es[i].key != k ==> r[i] == es[i])
      && (|r| == |es| + 1 ==> r[|es|] == Entry(k, v))
    decreases |es|
  {
    if es != [] && es[0].key != k {
      var tail := Put(es[1..], k, v);
      PutPositions(es[1..], k, v);
      var r := Put(es, k, v);
      assert r == [es[0]] + tail;
      forall i | 0 < i < |es| ensures r[i] == tail[i - 1] && es[i] == es[1..][i - 1] {}
      if |r| != |es| + 1 {
        var j :| 0 <= j < |es[1..]| && es[1..][j].key == k;
        assert es[j + 1].key == k;
      }
    }
  }

  /** The property names after `o[k] = v` are the old ones and `k`. */
  lemma PutKeySet(es: seq<Entry>, k: string, v: Value)
    ensures KeySet(Put(es, k, v)) == KeySet(es) + {k}
  {
    var r := Put(es, k, v);
    PutPositions(es, k, v);
    forall x | x in KeySet(r) ensures x in KeySet(es) + {k} {
      var i :| 0 <= i < |r| && r[i].key == x;
      if i < |es| { assert es[i].key == x; }
    }
    forall x | x in KeySet(es) + {k} ensures x in KeySet(r) {
      if x in KeySet(es) {
        var i :| 0 <= i < |es| && es[i].key == x;
        assert r[i].key == x;
      } else {
        assert r[|es|].key == x;
      }
    }
  }

  /** Assignment keeps every existing property in its place, overwrites the
      value of `k` if present and appends `k` otherwise. */
  lemma PutShape(es: seq<Entry>, k: string, v: Value)
    ensures var r := Put(es, k, v);
      && |r| == (if k in KeySet(es) then |es| else |es| + 1)
      && (forall i :: 0 <= i < |es| ==> r[i].key == es[i].key)
      && (forall i :: 0 <= i < |es| && es[i].key != k ==> r[i] == es[i])
      && (k !in KeySet(es) ==> r[|es|] == Entry(k, v))
      && KeySet(r) == KeySet(es) + {k}
      && (UniqueKeys(es) ==> UniqueKeys(r))
  {
    PutPositions(es, k, v);
    PutKeySet(es, k, v);
  }

  /** After `o[k] = v`, reading `k` gives `v` and reading any other key gives
      what it gave before. */
  lemma {:induction false} PutGet(es: seq<Entry>, k: string, v: Value, j: string)
    ensures Get(Put(es, k, v), j) == if j == k then Some(v) else Get(es, j)
    decreases |es|
  {
    if es != [] && es[0].key != k {
      var r := Put(es, k, v);
      assert r[1..] == Put(es[1..], k, v);
      PutGet(es[1..], k, v, j);
    } else if es != [] {
      var r := Put(es, k, v);
      assert r[1..] == es[1..];
    }
  }

  /** lodash `extend(target, src)`: the properties of `src` assigned in order. */
  function Extend(target: seq<Entry>, src: seq<Entry>): seq<Entry>
    decreases |src|
  {
    if src == [] then target
    else Put(Extend(target, src[..|src| - 1]), src[|src| - 1].key, src[|src| - 1].val)
  }

  /** Extending keeps the keys of `target` in their positions and keeps
      property names unique. */
  lemma {:induction false} ExtendPositions(target: seq<Entry>, src: seq<Entry>)
    ensures var r := Extend(target, src);
      && |r| >= |target|
      && (forall i :: 0 <= i < |target| ==> r[i].key == target[i].key)
      && (UniqueKeys(target) ==> UniqueKeys(r))
    decreases |src|
  {
    if src != [] {
      var init := src[..|src| - 1];
      var last := src[|src| - 1];
      ExtendPositions(target, init);
      PutShape(Extend(target, init), last.key, last.val);
    }
  }

  /** The property names after extending are those of `target` and `src`. */
  lemma {:induction false} ExtendKeySet(target: seq<Entry>, src: seq<Entry>)
    ensures KeySet(Extend(target, src)) == KeySet(target) + KeySet(src)
    decreases |src|
  {
    if src != [] {
      var init := src[..|src| - 1];
      var last := src[|src| - 1];
      ExtendKeySet(target, init);
      PutKeySet(Extend(target, init), last.key, last.val);
      assert src == init + [last];
      KeySetConcat(init, [last]);
      assert KeySet([last]) == {last.key};
    }
  }

  /** Both halves together: the shape of an extended object. */
  lemma ExtendShape(target: seq<Entry>, src: seq<Entry>)
    ensures var r := Extend(target, src);
      && |r| >= |target|
      && (forall i :: 0 <= i < |target| ==> r[i].key == target[i].key)
      && KeySet(r) == KeySet(target) + KeySet(src)
      && (UniqueKeys(target) ==> UniqueKeys(r))
  {
    ExtendPositions(target, src);
    ExtendKeySet(target, src);
  }

  /** Right-biased union: a key of `src` takes the value `src` gives it last;
      every other key keeps its value in `target`. */
  lemma {:induction false} ExtendGet(target: seq<Entry>, src: seq<Entry>, k: string)
    ensures Get(Extend(target, src), k) == if GetLast(src, k).Some? then GetLast(src, k) else Get(target, k)
    decreases |src|
  {
    if src != [] {
      var init := src[..|src| - 1];
      var last := src[|src| - 1];
      ExtendGet(target, init, k);
      PutGet(Extend(target, init), last.key, last.val, k);
    }
  }

  /** With unique keys the last and the first entry named `k` agree. */
  lemma {:induction false} GetLastUnique(es: seq<Entry>, k: string)
    requires UniqueKeys(es)
    ensures GetLast(es, k) == Get(es, k)
    decreases |es|
  {
    if es != [] {
      var init := es[..|es| - 1];
      GetLastUnique(init, k);
      GetOfPrefix(es, k);
      if es[|es| - 1].key == k {
        assert k !in KeySet(init);
      }
    }
  }

  /** Reading from a non-empty object agrees with reading from it without its
      last entry, unless the key occurs only in that last entry. */
  lemma {:induction false} GetOfPrefix(es: seq<Entry>, k: string)
    requires es != []
    ensures k in KeySet(es[..|es| - 1]) ==> Get(es, k) == Get(es[..|es| - 1], k)
    ensures k !in KeySet(es[..|es| - 1]) && es[|es| - 1].key == k ==> Get(es, k) == Some(es[|es| - 1].val)
    decreases |es|
  {
    if es[0].key != k && |es| > 1 {
      assert es[1..][..|es[1..]| - 1] == es[..|es| - 1][1..];
      assert KeySet(es[..|es| - 1]) == {es[0].key} + KeySet(es[1..][..|es[1..]| - 1]);
      GetOfPrefix(es[1..], k);
    }
  }

  /** Extending a fresh object by one with unique keys copies it exactly. */
  lemma {:induction false} ExtendFresh(src: seq<Entry>)
    requires UniqueKeys(src)
    ensures Extend([], src) == src
    decreases |src|
  {
    if src != [] {
      var init := src[..|src| - 1];
      var last := src[|src| - 1];
      ExtendFresh(init);
      assert src == init + [last];
      KeySetConcat(init, [last]);
      assert last.key !in KeySet(init);
      PutShape(init, last.key, last.val);
      assert Put(init, last.key, last.val) == init + [last];
    }
  }

  /** The header the request builders default and the request interceptor
      inspects. Headers are a map from names to values. */
  const ContentTypeHeader: string := "Content-Type"
}

/** The helpers of `utils/index.ts`: the key-casing transcoder shared by
    `toCamleObject` and `toSnakeObject`, the `asArray` normaliser and the
    `useID` counter. */
module Utils {
  import opened Wrappers
  import opened JsValues

  /** lodash's `camelCase` and `snakeCase`, taken as given key renamings. */
  datatype Casing = Casing(camel: string -> string, snake: string -> string)

  /** Keys starting with `@` are never renamed. */
  predicate IsReserved(k: string)
  {
    |k| > 0 && k[0] == '@'
  }

  function RenameKey(rename: string -> string, k: string): string
  {
    if IsReserved(k) then k else rename(k)
  }

  /** Scalars the transcoder returns as they are: nil, strings, numbers,
      regular expressions, dates and functions (not booleans). */
  predicate IsPassThrough(v: Value)
  {
    v.Nil? || v.Str? || v.Num? || v.RegExp? || v.Date? || v.Func?
  }

  /** The recursive walk without a target: nested values always land in
      fresh objects. */
  function Transcode(rename: string -> string, v: Value): Value
    decreases v, 1
  {
    match v
    case Arr(items) => Arr(seq(|items|, i requires 0 <= i < |items| => Transcode(rename, items[i])))
    case Obj(_) => Obj(Extend([], TranscodeEntries(rename, v)))
    case Bool(_) => Obj([])   // for..in over a boolean visits no property
    case _ => v
  }

  /** The assignments the for..in loop makes, in source property order. */
  function TranscodeEntries(rename: string -> string, v: Value): seq<Entry>
    requires v.Obj?
    decreases v, 0
  {
    seq(|v.entries|, i requires 0 <= i < |v.entries| =>
      var e := v.entries[i];
      assert e in v.entries;
      Entry(RenameKey(rename, e.key), Transcode(rename, e.val)))
  }

  /** `toCamleObject(source, target)` / `toSnakeObject(source, target)`:
      a supplied `target` receives the top-level properties in place. */
  function TranscodeInto(rename: string -> string, v: Value, target: Option<seq<Entry>>): (r: Value)
    ensures IsPassThrough(v) ==> r == v
    ensures v.Arr? ==> r.Arr? && |r.items| == |v.items|
    ensures v.Arr? ==> forall i :: 0 <= i < |v.items| ==> r.items[i] == Transcode(rename, v.items[i])
    ensures v.Bool? ==> r == Obj(TargetOrFresh(target))
    ensures v.Obj? || v.Bool? ==> r.Obj?
    ensures target.None? ==> r == Transcode(rename, v)
  {
    var base := TargetOrFresh(target);
    match v
    case Obj(_) => Obj(Extend(base, TranscodeEntries(rename, v)))
    case Bool(_) => Obj(base)
    case _ => Transcode(rename, v)
  }

  /** The top-level call: the for..in loop assigns each renamed property into
      `target` (or a fresh object); nested values go through `Transcode`. */
  method TranscodeObject(rename: string -> string, source: Value, target: Option<seq<Entry>>) returns (r: Value)
    ensures r == TranscodeInto(rename, source, target)
  {
    if IsPassThrough(source) || source.Arr? {
      return Transcode(rename, source);
    }
    var res := TargetOrFresh(target);
    if source.Obj? {
      ghost var writes := TranscodeEntries(rename, source);
      ghost var base := res;
      var es := source.entries;
      var i := 0;
      while i < |es|
        invariant 0 <= i <= |es|
        invariant res == Extend(base, writes[..i])
      {
        var key := if IsReserved(es[i].key) then es[i].key else rename(es[i].key);
        res := Put(res, key, Transcode(rename, es[i].val));
        i := i + 1;
        assert writes[..i][..i - 1] == writes[..i - 1];
      }
      assert writes[..i] == writes;
    }
    r := Obj(res);
  }

  method ToCamelObject(casing: Casing, source: Value, target: Option<seq<Entry>>) returns (r: Value)
    ensures r == TranscodeInto(casing.camel, source, target)
  {
    r := TranscodeObject(casing.camel, source, target);
  }

  method ToSnakeObject(casing: Casing, source: Value, target: Option<seq<Entry>>) returns (r: Value)
    ensures r == TranscodeInto(casing.snake, source, target)
  {
    r := TranscodeObject(casing.snake, source, target);
  }

  /** The last entry named `es[i].key` is `es[i]` when no later entry shares its name. */
  lemma {:induction false} GetLastAt(es: seq<Entry>, i: nat)
    requires i < |es|
    requires forall j :: i < j < |es| ==> es[j].key != es[i].key
    ensures GetLast(es, es[i].key) == Some(es[i].val)
    decreases |es|
  {
    if i < |es| - 1 {
      var init := es[..|es| - 1];
      assert init[i] == es[i];
      GetLastAt(init, i);
    }
  }

  lemma {:induction false} GetLastAbsent(es: seq<Entry>, k: string)
    requires k !in KeySet(es)
    ensures GetLast(es, k) == None
    decreases |es|
  {
    if es != [] {
      var init := es[..|es| - 1];
      KeySetConcat(init, [es[|es| - 1]]);
      assert es == init + [es[|es| - 1]];
      GetLastAbsent(init, k);
    }
  }

  /** The names the source's properties are assigned under. */
  function RenamedKeys(rename: string -> string, es: seq<Entry>): set<string>
  {
    set i | 0 <= i < |es| :: RenameKey(rename, es[i].key)
  }

  function TargetOrFresh(target: Option<seq<Entry>>): seq<Entry>
  {
    if target.Some? then target.value else []
  }

  lemma WritesKeys(rename: string -> string, es: seq<Entry>)
    ensures KeySet(TranscodeEntries(rename, Obj(es))) == RenamedKeys(rename, es)
  {
    var writes := TranscodeEntries(rename, Obj(es));
    forall x | x in RenamedKeys(rename, es) ensures x in KeySet(writes) {
      var i :| 0 <= i < |es| && RenameKey(rename, es[i].key) == x;
      assert writes[i].key == x;
    }
  }

  /** The object case keeps the target: its properties stay where they were
      and every source property adds its renamed key (an `@` key verbatim). */
  lemma TranscodeKeepsTarget(rename: string -> string, es: seq<Entry>, target: Option<seq<Entry>>)
    ensures var base := TargetOrFresh(target);
      var r := TranscodeInto(rename, Obj(es), target);
      && r.Obj?
      && |r.entries| >= |base|
      && (forall i :: 0 <= i < |base| ==> r.entries[i].key == base[i].key)
      && KeySet(r.entries) == KeySet(base) + RenamedKeys(rename, es)
      && (forall i :: 0 <= i < |es| && IsReserved(es[i].key) ==> es[i].key in KeySet(r.entries))
  {
    var base := TargetOrFresh(target);
    var writes := TranscodeEntries(rename, Obj(es));
    assert TranscodeInto(rename, Obj(es), target) == Obj(Extend(base, writes));
    ExtendShape(base, writes);
    WritesKeys(rename, es);
    forall i | 0 <= i < |es| && IsReserved(es[i].key) ensures es[i].key in RenamedKeys(rename, es) {
      assert RenameKey(rename, es[i].key) == es[i].key;
    }
  }

  /** Each source property lands under its renamed key with its transcoded
      value, unless a later property renames to the same key and overwrites it. */
  lemma TranscodeLaterWins(rename: string -> string, es: seq<Entry>, target: Option<seq<Entry>>, i: nat)
    requires i < |es|
    requires forall j :: i < j < |es| ==> RenameKey(rename, es[j].key) != RenameKey(rename, es[i].key)
    ensures var r := TranscodeInto(rename, Obj(es), target);
      r.Obj? && Get(r.entries, RenameKey(rename, es[i].key)) == Some(Transcode(rename, es[i].val))
  {
    var base := TargetOrFresh(target);
    var writes := TranscodeEntries(rename, Obj(es));
    assert TranscodeInto(rename, Obj(es), target) == Obj(Extend(base, writes));
    GetLastAt(writes, i);
    ExtendGet(base, writes, RenameKey(rename, es[i].key));
  }

  /** A key no source property renames to keeps the target's value. */
  lemma TranscodeOtherKeys(rename: string -> string, es: seq<Entry>, target: Option<seq<Entry>>, k: string)
    requires k !in RenamedKeys(rename, es)
    ensures var r := TranscodeInto(rename, Obj(es), target);
      r.Obj? && Get(r.entries, k) == Get(TargetOrFresh(target), k)
  {
    var base := TargetOrFresh(target);
    var writes := TranscodeEntries(rename, Obj(es));
    assert TranscodeInto(rename, Obj(es), target) == Obj(Extend(base, writes));
    WritesKeys(rename, es);
    GetLastAbsent(writes, k);
    ExtendGet(base, writes, k);
  }

  /** The values on which a snake-then-camel round trip is lossless: no
      booleans, unique keys, and every renamable key is restored by
      `camel(snake(k))` without turning into an `@` key. */
  ghost predicate RoundTrips(c: Casing, v: Value)
    decreases v
  {
    match v
    case Bool(_) => false
    case Arr(items) => forall i :: 0 <= i < |items| ==> RoundTrips(c, items[i])
    case Obj(es) =>
      && UniqueKeys(es)
      && (forall i :: 0 <= i < |es| ==>
            IsReserved(es[i].key) || (!IsReserved(c.snake(es[i].key)) && c.camel(c.snake(es[i].key)) == es[i].key))
      && (forall i :: 0 <= i < |es| ==> var e := es[i]; assert e in es; RoundTrips(c, e.val))
    case _ => true
  }

  /** Converting to wire casing and back restores the value exactly, at every depth. */
  lemma {:induction false} TranscodeRoundTrip(c: Casing, v: Value)
    requires RoundTrips(c, v)
    ensures Transcode(c.camel, Transcode(c.snake, v)) == v
    decreases v
  {
    match v
    case Arr(items) =>
      var mid := Transcode(c.snake, v);
      forall i | 0 <= i < |items| ensures Transcode(c.camel, mid.items[i]) == items[i] {
        TranscodeRoundTrip(c, items[i]);
      }
    case Obj(es) =>
      var e1 := TranscodeEntries(c.snake, v);
      forall i, j | 0 <= i < j < |es| ensures e1[i].key != e1[j].key {
        assert es[i].key != es[j].key;
      }
      ExtendFresh(e1);
      var mid := Obj(e1);
      assert Transcode(c.snake, v) == mid;
      var e2 := TranscodeEntries(c.camel, mid);
      forall i | 0 <= i < |es| ensures e2[i] == es[i] {
        var e := es[i];
        assert e in es;
        TranscodeRoundTrip(c, e.val);
      }
      assert e2 == es;
      ExtendFresh(es);
    case _ =>
  }

  /** `T | T[]` with nil: what `asArray` accepts. */
  datatype OneOrMany<T> = Absent | One(item: T) | Many(items: seq<T>)

  /** `asArray`: nil gives the empty list, a list is returned as it is,
      anything else becomes a one-element list. */
  function AsArray<T>(v: OneOrMany<T>): (r: seq<T>)
    ensures v.Absent? ==> r == []
    ensures v.Many? ==> r == v.items
    ensures v.One? ==> r == [v.item]
  {
    match v
    case Absent => []
    case One(x) => [x]
    case Many(xs) => xs
  }

  /** Membership after normalising: what `indexOf(x) >= 0` asks of the result. */
  lemma AsArrayContains<T>(v: OneOrMany<T>, x: T)
    ensures x in AsArray(v) <==> (v.One? && v.item == x) || (v.Many? && x in v.items)
  {
  }

  /** The decimal digits of a natural number, as `String(n)` writes them. */
  function Decimal(n: nat): (s: string)
    ensures |s| > 0
    ensures forall i :: 0 <= i < |s| ==> '0' <= s[i] <= '9'
    decreases n
  {
    if n < 10 then ["0123456789"[n]]
    else Decimal(n / 10) + ["0123456789"[n % 10]]
  }

  /** Reading a string of decimal digits back. */
  function ParseDecimal(s: string): nat
    decreases |s|
  {
    if s == [] then 0
    else
      var d := s[|s| - 1] as int - '0' as int;
      ParseDecimal(s[..|s| - 1]) * 10 + (if 0 <= d <= 9 then d else 0)
  }

  lemma {:induction false} DecimalRoundTrip(n: nat)
    ensures ParseDecimal(Decimal(n)) == n
    decreases n
  {
    if n >= 10 {
      var s := Decimal(n);
      assert s[..|s| - 1] == Decimal(n / 10);
      DecimalRoundTrip(n / 10);
    }
  }

  /** Two ids with the same prefix are equal only when their counters are. */
  lemma IdStringsDistinct(prefix: string, m: nat, n: nat)
    requires m != n
    ensures prefix + Decimal(m) != prefix + Decimal(n)
  {
    if prefix + Decimal(m) == prefix + Decimal(n) {
      assert Decimal(m) == (prefix + Decimal(m))[|prefix|..];
      assert Decimal(n) == (prefix + Decimal(n))[|prefix|..];
      DecimalRoundTrip(m);
      DecimalRoundTrip(n);
    }
  }

  /** The module-level counter behind `useID`. */
  class IdCounter {
    var id: nat

    constructor ()
      ensures id == 1
    {
      id := 1;
    }

    /** `useID(prefix)`: pre-increments the counter and appends it to the prefix. */
    method UseID(prefix: Option<string>) returns (s: string)
      modifies this
      ensures id == old(id) + 1
      ensures s == (if prefix.Some? then prefix.value else "") + Decimal(id)
    {
      id := id + 1;
      s := (if prefix.Some? then prefix.value else "") + Decimal(id);
    }
  }

  /** The first two ids a fresh counter hands out are "2" and "dino-3". */
  method FirstIds() returns (a: string, b: string)
    ensures a == "2" && b == "dino-3"
  {
    var counter := new IdCounter();
    a := counter.UseID(None);
    b := counter.UseID(Some("dino-"));
  }
}

/** `defineInterceptorManager`: an ordered list of handlers, each tagged with
    an id written onto the handler itself, executed one after the other,
    either chained (each handler sees the previous output) or unchained
    (each handler sees the original argument). Awaiting a handler is a
    sequential step here; a rejected promise is a `Failure`. */
module Interceptor {
  import opened Wrappers

  /** A handler function together with the `__id` property the manager
      writes onto it. Tag 0 stands for "no `__id` yet"; the ids the manager
      hands out start at 1, so an untagged handler never matches one. */
  class Handler<A, C, E> {
    const run: (A, C) -> Result<A, E>
    var tag: nat

    constructor (run: (A, C) -> Result<A, E>)
      ensures this.run == run && tag == 0
    {
      this.run := run;
      tag := 0;
    }
  }

  /** `Array.prototype.findIndex` over the tags: the first position holding
      `t`, or -1. */
  function FindIndex(tags: seq<nat>, t: nat): (r: int)
    ensures -1 <= r < |tags|
    ensures r == -1 <==> t !in tags
    ensures r >= 0 ==> tags[r] == t && forall j :: 0 <= j < r ==> tags[j] != t
    decreases |tags|
  {
    if tags == [] then -1
    else if tags[0] == t then 0
    else
      var r := FindIndex(tags[1..], t);
      if r == -1 then -1 else r + 1
  }

  /** What `execute` computes: each handler in turn receives `arg` (the
      previous output when chained, the original argument otherwise); the
      first rejection is the result, otherwise the last output is. */
  function Run<A, C, E>(fs: seq<(A, C) -> Result<A, E>>, chain: bool, arg: A, result: A, ctx: C): Result<A, E>
    decreases |fs|
  {
    if fs == [] then Success(result)
    else match fs[0](arg, ctx)
      case Failure(e) => Failure(e)
      case Success(out) => Run(fs[1..], chain, if chain then out else arg, out, ctx)
  }

  /** The arguments the handlers actually receive, in the order they run;
      handlers after a rejection receive nothing. */
  function Received<A, C, E>(fs: seq<(A, C) -> Result<A, E>>, chain: bool, arg: A, ctx: C): seq<A>
    decreases |fs|
  {
    if fs == [] then []
    else [arg] + match fs[0](arg, ctx)
      case Failure(_) => []
      case Success(out) => Received(fs[1..], chain, if chain then out else arg, ctx)
  }

  /** Reference definition of the chained mode: the left fold of the
      handlers, written from the last handler backwards. */
  function Fold<A, C, E>(fs: seq<(A, C) -> Result<A, E>>, arg: A, ctx: C): Result<A, E>
    decreases |fs|
  {
    if fs == [] then Success(arg)
    else match Fold(fs[..|fs| - 1], arg, ctx)
      case Failure(e) => Failure(e)
      case Success(x) => fs[|fs| - 1](x, ctx)
  }

  /** Folding a non-empty list starts with the first handler. */
  lemma {:induction false} FoldFirst<A, C, E>(fs: seq<(A, C) -> Result<A, E>>, arg: A, ctx: C)
    requires fs != []
    ensures Fold(fs, arg, ctx) == match fs[0](arg, ctx)
      case Failure(e) => Failure(e)
      case Success(x) => Fold(fs[1..], x, ctx)
    decreases |fs|
  {
    if |fs| > 1 {
      var init := fs[..|fs| - 1];
      FoldFirst(init, arg, ctx);
      assert init[1..] == fs[1..][..|fs[1..]| - 1];
      assert init[0] == fs[0];
    }
  }

  /** Chained mode is the left fold of the handlers. */
  lemma {:induction false} ChainedIsFold<A, C, E>(fs: seq<(A, C) -> Result<A, E>>, arg: A, ctx: C)
    ensures Run(fs, true, arg, arg, ctx) == Fold(fs, arg, ctx)
    decreases |fs|
  {
    if fs != [] {
      FoldFirst(fs, arg, ctx);
      match fs[0](arg, ctx)
      case Failure(e) =>
      case Success(out) => ChainedIsFold(fs[1..], out, ctx);
    }
  }

  /** Unchained mode, every handler resolving: the result is the last
      handler's output on the original argument. */
  lemma {:induction false} UnchainedIsLast<A, C, E>(fs: seq<(A, C) -> Result<A, E>>, arg: A, result: A, ctx: C)
    requires forall i :: 0 <= i < |fs| ==> fs[i](arg, ctx).Success?
    ensures Run(fs, false, arg, result, ctx) == if fs == [] then Success(result) else fs[|fs| - 1](arg, ctx)
    decreases |fs|
  {
    if fs != [] {
      assert fs[0](arg, ctx).Success?;
      UnchainedIsLast(fs[1..], arg, fs[0](arg, ctx).value, ctx);
    }
  }

  /** Either mode: the first rejecting handler decides the result. */
  lemma {:induction false} FirstRejectionWins<A, C, E>(fs: seq<(A, C) -> Result<A, E>>, chain: bool, arg: A, result: A, ctx: C, k: nat)
    requires k < |Received(fs, chain, arg, ctx)| && k < |fs|
    requires fs[k](Received(fs, chain, arg, ctx)[k], ctx).Failure?
    ensures Run(fs, chain, arg, result, ctx) == fs[k](Received(fs, chain, arg, ctx)[k], ctx)
    decreases |fs|
  {
    if k > 0 {
      match fs[0](arg, ctx)
      case Failure(_) =>
      case Success(out) =>
        FirstRejectionWins(fs[1..], chain, if chain then out else arg, out, ctx, k - 1);
    }
  }

  /** Each handler after the first received the previous handler's output
      in chained mode and the original argument otherwise. */
  ghost predicate PassedOn<A, C, E>(fs: seq<(A, C) -> Result<A, E>>, chain: bool, arg: A, ctx: C, rs: seq<A>)
  {
    forall j :: 1 <= j < |rs| && j <= |fs| && fs[j - 1](rs[j - 1], ctx).Success? ==>
      rs[j] == if chain then fs[j - 1](rs[j - 1], ctx).value else arg
  }

  /** Handlers run once each in list order and stop at the first rejection:
      every handler that ran before the last one resolved, and the run
      covers all handlers exactly when none rejected. */
  lemma {:induction false} ReceivedSpec<A, C, E>(fs: seq<(A, C) -> Result<A, E>>, chain: bool, arg: A, result: A, ctx: C)
    ensures var rs := Received(fs, chain, arg, ctx);
      && |rs| <= |fs|
      && (fs != [] ==> |rs| > 0 && rs[0] == arg)
      && (forall i :: 0 <= i < |rs| - 1 ==> fs[i](rs[i], ctx).Success?)
      && PassedOn(fs, chain, arg, ctx, rs)
      && (Run(fs, chain, arg, result, ctx).Success? <==>
            |rs| == |fs| && (rs == [] || fs[|rs| - 1](rs[|rs| - 1], ctx).Success?))
    decreases |fs|
  {
    if fs != [] {
      match fs[0](arg, ctx)
      case Failure(_) =>
      case Success(out) =>
        var next := if chain then out else arg;
        ReceivedSpec(fs[1..], chain, next, out, ctx);
        var tail := Received(fs[1..], chain, next, ctx);
        var rs := Received(fs, chain, arg, ctx);
        assert rs == [arg] + tail;
        forall i | 0 <= i < |rs| - 1 ensures fs[i](rs[i], ctx).Success? {
          if i > 0 { assert rs[i] == tail[i - 1] && fs[i] == fs[1..][i - 1]; }
        }
        forall j | 1 <= j < |rs| && j <= |fs| && fs[j - 1](rs[j - 1], ctx).Success?
          ensures rs[j] == if chain then fs[j - 1](rs[j - 1], ctx).value else arg
        {
          assert rs[j] == tail[j - 1];
          if j > 1 {
            assert rs[j - 1] == tail[j - 2] && fs[j - 1] == fs[1..][j - 2];
          } else {
            assert tail[0] == next && rs[0] == arg;
          }
        }
        if tail != [] {
          assert fs[|rs| - 1] == fs[1..][|tail| - 1];
        }
    }
  }

  /** The list without position `i`; unchanged when `i` is not a position. */
  function RemoveAt<T>(s: seq<T>, i: int): (r: seq<T>)
    ensures 0 <= i < |s| ==> |r| == |s| - 1 && forall k :: 0 <= k < |r| ==> r[k] == s[if k < i then k else k + 1]
    ensures !(0 <= i < |s|) ==> r == s
  {
    if 0 <= i < |s| then s[..i] + s[i + 1..] else s
  }

  /** Removing one position removes one copy of its element. */
  lemma RemoveAtMultiset<T>(s: seq<T>, i: int)
    requires 0 <= i < |s|
    ensures multiset(RemoveAt(s, i)) == multiset(s) - multiset{s[i]}
  {
    var front, back := s[..i], s[i + 1..];
    assert s == front + [s[i]] + back;
    assert RemoveAt(s, i) == front + back;
  }

  /** Removing the first occurrence of `t` removes one copy of `t`, if it
      occurred at all, and nothing else. */
  lemma RemoveFirstCount(tags: seq<nat>, t: nat)
    ensures var rest := RemoveAt(tags, FindIndex(tags, t));
      multiset(rest) == if t in tags then multiset(tags) - multiset{t} else multiset(tags)
  {
    var i := FindIndex(tags, t);
    if i != -1 {
      RemoveAtMultiset(tags, i);
    }
  }

  /** A canceller whose id tags at most one entry removes nothing when it is
      called again. */
  lemma CancelAgainNothing(tags: seq<nat>, t: nat)
    requires multiset(tags)[t] <= 1
    ensures var once := RemoveAt(tags, FindIndex(tags, t));
      t !in once && RemoveAt(once, FindIndex(once, t)) == once
  {
    RemoveFirstCount(tags, t);
  }

  /** When every handler carrying `h`'s tag is `h` itself, the tag occurs
      in the tag list exactly as often as `h` occurs in the handler list. */
  lemma {:induction false} TagCount<A, C, E>(s: seq<Handler<A, C, E>>, tags: seq<nat>, h: Handler<A, C, E>)
    requires |tags| == |s| && forall i :: 0 <= i < |s| ==> tags[i] == s[i].tag
    requires forall g :: g in s && g.tag == h.tag ==> g == h
    ensures multiset(tags)[h.tag] == multiset(s)[h]
    decreases |s|
  {
    if s != [] {
      TagCount(s[1..], tags[1..], h);
      assert s == [s[0]] + s[1..];
      assert tags == [tags[0]] + tags[1..];
    }
  }

  class InterceptorManager<A, C, E> {
    const chain: bool
    var handlers: seq<Handler<A, C, E>>
    var id: nat

    /** Every listed handler carries an id already handed out, and two list
        positions share a tag only when they hold the same handler. */
    ghost predicate Valid()
      reads this, handlers
    {
      && (forall h :: h in handlers ==> 1 <= h.tag <= id)
      && (forall g, h :: g in handlers && h in handlers && g.tag == h.tag ==> g == h)
    }

    /** The tags of the listed handlers, in list order. */
    function Tags(): seq<nat>
      reads this, handlers
    {
      seq(|handlers|, i reads this, handlers requires 0 <= i < |handlers| => handlers[i].tag)
    }

    /** In a valid manager a handler listed once has the only entry with
        its tag, so its canceller removes it and a second call of the
        canceller removes nothing. */
    lemma CancelOnceListed(h: Handler<A, C, E>)
      requires Valid() && multiset(handlers)[h] == 1
      ensures multiset(Tags())[h.tag] == 1
      ensures var once := RemoveAt(Tags(), FindIndex(Tags(), h.tag));
        h.tag !in once && RemoveAt(once, FindIndex(once, h.tag)) == once
    {
      TagCount(handlers, Tags(), h);
      CancelAgainNothing(Tags(), h.tag);
    }

    /** The handler functions, in list order. */
    function Fns(): (r: seq<(A, C) -> Result<A, E>>)
      reads this
      ensures |r| == |handlers| && forall i :: 0 <= i < |handlers| ==> r[i] == handlers[i].run
    {
      seq(|handlers|, i reads this requires 0 <= i < |handlers| => handlers[i].run)
    }

    /** `defineInterceptorManager(chain)`; the default mode is chained. */
    constructor (chain: bool)
      ensures Valid()
      ensures this.chain == chain && handlers == [] && id == 0
    {
      this.chain := chain;
      handlers := [];
      id := 0;
    }

    /** `use(handler)`: the next id is written onto the handler, the handler
        is appended, and the id is returned; calling `Cancel` with it is the
        returned canceller. */
    method Use(h: Handler<A, C, E>) returns (curId: nat)
      requires Valid()
      modifies this, h
      ensures Valid()
      ensures id == old(id) + 1 && curId == id
      ensures handlers == old(handlers) + [h]
      ensures h.tag == curId
    {
      id := id + 1;
      curId := id;
      h.tag := curId;
      handlers := handlers + [h];
    }

    /** The canceller returned by `use`: removes the first handler tagged
        `curId`, if any, and leaves the rest in their relative order. */
    method Cancel(curId: nat)
      requires Valid()
      modifies this
      ensures Valid()
      ensures id == old(id)
      ensures handlers == RemoveAt(old(handlers), FindIndex(old(Tags()), curId))
      ensures Tags() == RemoveAt(old(Tags()), FindIndex(old(Tags()), curId))
    {
      var index := FindIndex(Tags(), curId);
      ghost var tags := Tags();
      ghost var before := handlers;
      if index != -1 {
        handlers := RemoveAt(handlers, index);
        assert forall h :: h in handlers ==> h in before;
        assert Tags() == RemoveAt(tags, index) by {
          var now := Tags();
          var want := RemoveAt(tags, index);
          forall k | 0 <= k < |now| ensures now[k] == want[k] {
            var j := if k < index then k else k + 1;
            assert handlers[k] == before[j];
            assert now[k] == handlers[k].tag && want[k] == tags[j] == before[j].tag;
          }
        }
      }
    }

    /** `clear()`: the list is emptied; the id counter is not reset. */
    method Clear()
      requires Valid()
      modifies this
      ensures Valid()
      ensures handlers == [] && id == old(id)
    {
      handlers := [];
    }

    /** `execute(arg, context)`: the handlers in list order, chained or not. */
    method Execute(arg: A, ctx: C) returns (r: Result<A, E>)
      ensures r == Run(Fns(), chain, arg, arg, ctx)
      ensures handlers == [] ==> r == Success(arg)
    {
      var fs := Fns();
      var result := arg;
      var i := 0;
      while i < |handlers|
        invariant 0 <= i <= |handlers|
        invariant Run(fs, chain, arg, arg, ctx) == Run(fs[i..], chain, if chain then result else arg, result, ctx)
      {
        var out := handlers[i].run(if chain then result else arg, ctx);
        assert fs[i..][1..] == fs[i + 1..];
        if out.Failure? {
          return Failure(out.error);
        }
        result := out.value;
        i := i + 1;
      }
      r := Success(result);
    }
  }

  /** A chained manager holding three fresh handlers, registered in order. */
  method RegisterThree<A, C, E>(f1: (A, C) -> Result<A, E>, f2: (A, C) -> Result<A, E>, f3: (A, C) -> Result<A, E>)
    returns (m: InterceptorManager<A, C, E>, id2: nat)
    ensures fresh(m) && m.Valid() && m.chain
    ensures m.Fns() == [f1, f2, f3] && m.Tags() == [1, 2, 3] && id2 == 2
  {
    m := new InterceptorManager<A, C, E>(true);
    var h1 := new Handler(f1);
    var h2 := new Handler(f2);
    var h3 := new Handler(f3);
    var id1 := m.Use(h1);
    id2 := m.Use(h2);
    var id3 := m.Use(h3);
    assert m.handlers == [h1, h2, h3];
    assert h1.tag == 1 && h2.tag == 2 && h3.tag == 3;
    assert m.Tags() == [1, 2, 3];
    assert m.Fns() == [f1, f2, f3];
  }

  /** Registering H1, H2, H3, cancelling H2 and executing runs exactly H1
      then H3. */
  method CancelOneOfThree<A, C, E>(f1: (A, C) -> Result<A, E>, f2: (A, C) -> Result<A, E>, f3: (A, C) -> Result<A, E>, arg: A, ctx: C)
    returns (r: Result<A, E>)
    ensures r == Fold([f1, f3], arg, ctx)
  {
    var m, id2 := RegisterThree(f1, f2, f3);
    assert FindIndex([1, 2, 3], 2) == 1;
    ghost var fs := m.Fns();
    m.Cancel(id2);
    assert m.Fns() == [f1, f3] by {
      assert m.Fns() == fs[..1] + fs[2..];
    }
    ChainedIsFold([f1, f3], arg, ctx);
    r := m.Execute(arg, ctx);
  }

  /** A chained manager holding one handler registered twice: both entries
      carry the newer id. */
  method RegisterSameTwice<A, C, E>(f: (A, C) -> Result<A, E>)
    returns (m: InterceptorManager<A, C, E>, first: nat, second: nat)
    ensures fresh(m) && m.Valid()
    ensures |m.handlers| == 2 && m.Tags() == [2, 2] && first == 1 && second == 2
  {
    m := new InterceptorManager<A, C, E>(true);
    var h := new Handler(f);
    first := m.Use(h);
    second := m.Use(h);
    assert m.handlers == [h, h] && h.tag == 2;
    assert m.Tags() == [2, 2];
  }

  /** Registering the same handler twice retags it: the first canceller then
      removes nothing, while the second removes one copy per call. */
  method RegisterTwice<A, C, E>(f: (A, C) -> Result<A, E>) returns (afterFirst: nat, afterSecond: nat, afterThird: nat)
    ensures afterFirst == 2 && afterSecond == 1 && afterThird == 0
  {
    var m, first, second := RegisterSameTwice(f);
    assert FindIndex([2, 2], 1) == -1;
    m.Cancel(first);
    afterFirst := |m.handlers|;
    assert FindIndex([2, 2], 2) == 0;
    m.Cancel(second);
    afterSecond := |m.handlers|;
    assert m.Tags() == [2];
    assert FindIndex([2], 2) == 0;
    m.Cancel(second);
    afterThird := |m.handlers|;
  }
}

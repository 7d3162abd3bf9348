/** List comprehensions with a condition and first-match searches, the two
    shapes every lookup of the pipeline is made of. */
module Seqs {
  import opened Wrappers

  /** `[x for x in xs if p(x)]`. */
  function Filter<T>(p: T -> bool, xs: seq<T>): (r: seq<T>)
    ensures |r| <= |xs|
    ensures forall i :: 0 <= i < |r| ==> r[i] in xs && p(r[i])
    ensures forall i :: 0 <= i < |xs| && p(xs[i]) ==> xs[i] in r
  {
    if |xs| == 0 then []
    else if p(xs[0]) then [xs[0]] + Filter(p, xs[1..])
    else Filter(p, xs[1..])
  }

  /** Filtering a concatenation filters each part, keeping their order. */
  lemma {:induction false} FilterAppend<T>(p: T -> bool, xs: seq<T>, ys: seq<T>)
    ensures Filter(p, xs + ys) == Filter(p, xs) + Filter(p, ys)
  {
    if |xs| > 0 {
      assert (xs + ys)[1..] == xs[1..] + ys;
      FilterAppend(p, xs[1..], ys);
    } else {
      assert xs + ys == ys;
    }
  }

  /** Nothing is dropped when every element qualifies. */
  lemma {:induction false} FilterAll<T>(p: T -> bool, xs: seq<T>)
    requires forall i :: 0 <= i < |xs| ==> p(xs[i])
    ensures Filter(p, xs) == xs
  {
    if |xs| > 0 {
      FilterAll(p, xs[1..]);
    }
  }

  /** The conjunction of two conditions. */
  function Both<T>(p: T -> bool, q: T -> bool): T -> bool
  {
    x => p(x) && q(x)
  }

  /** Filtering twice keeps the elements meeting both conditions. */
  lemma {:induction false} FilterFilter<T>(p: T -> bool, q: T -> bool, xs: seq<T>)
    ensures Filter(q, Filter(p, xs)) == Filter(Both(p, q), xs)
  {
    if |xs| > 0 {
      FilterFilter(p, q, xs[1..]);
    }
  }

  /** The first element satisfying `p`: `next((x for x in xs if p(x)), None)`. */
  function First<T>(p: T -> bool, xs: seq<T>): (r: Option<T>)
    ensures r.None? <==> forall i :: 0 <= i < |xs| ==> !p(xs[i])
    ensures r.Some? ==> p(r.value) && r.value in xs
  {
    if |xs| == 0 then None
    else if p(xs[0]) then Some(xs[0])
    else First(p, xs[1..])
  }

  /** The first match sits at an index before which nothing matches. */
  lemma {:induction false} FirstIndex<T>(p: T -> bool, xs: seq<T>)
    requires First(p, xs).Some?
    ensures exists i :: 0 <= i < |xs| && xs[i] == First(p, xs).value
                        && forall j :: 0 <= j < i ==> !p(xs[j])
  {
    if !p(xs[0]) {
      FirstIndex(p, xs[1..]);
      var i :| 0 <= i < |xs[1..]| && xs[1..][i] == First(p, xs[1..]).value
               && forall j :: 0 <= j < i ==> !p(xs[1..][j]);
      assert xs[i + 1] == First(p, xs).value;
      assert forall j :: 0 < j < i + 1 ==> !p(xs[j]) by {
        forall j | 0 < j < i + 1 ensures !p(xs[j]) {
          assert xs[j] == xs[1..][j - 1];
        }
      }
    } else {
      assert xs[0] == First(p, xs).value;
    }
  }

  /** An element before which nothing matches, and which matches, is the
      first match. */
  lemma {:induction false} FirstAt<T>(p: T -> bool, xs: seq<T>, i: nat)
    requires i < |xs| && p(xs[i]) && forall j :: 0 <= j < i ==> !p(xs[j])
    ensures First(p, xs) == Some(xs[i])
  {
    if i > 0 {
      assert forall j :: 0 <= j < i - 1 ==> !p(xs[1..][j]) by {
        forall j | 0 <= j < i - 1 ensures !p(xs[1..][j]) {
          assert xs[1..][j] == xs[j + 1];
        }
      }
      FirstAt(p, xs[1..], i - 1);
    }
  }

  /** The first match in `xs + ys` is the first in `xs`, or else the
      first in `ys`. */
  lemma {:induction false} FirstAppend<T>(p: T -> bool, xs: seq<T>, ys: seq<T>)
    ensures First(p, xs + ys) == if First(p, xs).Some? then First(p, xs) else First(p, ys)
  {
    if |xs| > 0 {
      assert (xs + ys)[1..] == xs[1..] + ys;
      FirstAppend(p, xs[1..], ys);
    } else {
      assert xs + ys == ys;
    }
  }

  /** The head of the filtered list is the first match. */
  lemma {:induction false} FilterHead<T>(p: T -> bool, xs: seq<T>)
    ensures |Filter(p, xs)| > 0 <==> First(p, xs).Some?
    ensures |Filter(p, xs)| > 0 ==> Filter(p, xs)[0] == First(p, xs).value
  {
    if |xs| > 0 && !p(xs[0]) {
      FilterHead(p, xs[1..]);
    }
  }

  /** `[f(x) for x in xs]` where `f` may raise: every result in order, or
      the exception of the first element that raises. */
  function MapResult<A, B>(f: A -> Result<B>, xs: seq<A>): (r: Result<seq<B>>)
    ensures r.Ok? <==> forall i :: 0 <= i < |xs| ==> f(xs[i]).Ok?
    ensures r.Ok? ==> |r.value| == |xs| && forall i :: 0 <= i < |xs| ==> f(xs[i]) == Ok(r.value[i])
  {
    if |xs| == 0 then Ok([])
    else
      var init :- MapResult(f, xs[..|xs| - 1]);
      var last :- f(xs[|xs| - 1]);
      Ok(init + [last])
  }

  /** The loop `for x in xs: ys.append(f(x))`, stopping at the first
      exception. */
  method MapEach<A, B>(f: A -> Result<B>, xs: seq<A>) returns (r: Result<seq<B>>)
    ensures r == MapResult(f, xs)
  {
    var ys: seq<B> := [];
    for i := 0 to |xs|
      invariant MapResult(f, xs[..i]) == Ok(ys)
    {
      assert xs[..i + 1][..i] == xs[..i];
      var y := f(xs[i]);
      if y.Err? {
        MapResultPrefixError(f, xs, i + 1);
        return Err(y.error);
      }
      ys := ys + [y.value];
    }
    assert xs[..|xs|] == xs;
    return Ok(ys);
  }

  /** One more element of `MapResult`: an exception ends the whole list,
      a value is appended. */
  lemma MapResultNext<A, B>(f: A -> Result<B>, xs: seq<A>, i: nat, ys: seq<B>)
    requires i < |xs| && MapResult(f, xs[..i]) == Ok(ys)
    ensures f(xs[i]).Err? ==> MapResult(f, xs) == Err(f(xs[i]).error)
    ensures f(xs[i]).Ok? ==> MapResult(f, xs[..i + 1]) == Ok(ys + [f(xs[i]).value])
  {
    assert xs[..i + 1][..i] == xs[..i];
    if f(xs[i]).Err? {
      MapResultPrefixError(f, xs, i + 1);
    }
  }

  /** The exception `MapResult` reports is that of the first element whose
      `f` raises. */
  lemma {:induction false} MapResultFirstError<A, B>(f: A -> Result<B>, xs: seq<A>)
    requires MapResult(f, xs).Err?
    ensures exists i :: 0 <= i < |xs| && f(xs[i]) == Err(MapResult(f, xs).error)
                        && forall j :: 0 <= j < i ==> f(xs[j]).Ok?
  {
    var init := xs[..|xs| - 1];
    if MapResult(f, init).Err? {
      MapResultFirstError(f, init);
      var i :| 0 <= i < |init| && f(init[i]) == Err(MapResult(f, init).error)
               && forall j :: 0 <= j < i ==> f(init[j]).Ok?;
      assert xs[i] == init[i];
      assert forall j :: 0 <= j < i ==> xs[j] == init[j];
    } else {
      assert forall j :: 0 <= j < |xs| - 1 ==> xs[j] == init[j];
    }
  }

  /** Once a prefix raises, the whole list raises the same exception. */
  lemma {:induction false} MapResultPrefixError<A, B>(f: A -> Result<B>, xs: seq<A>, n: nat)
    requires n <= |xs| && MapResult(f, xs[..n]).Err?
    ensures MapResult(f, xs) == MapResult(f, xs[..n])
  {
    if n < |xs| {
      var init := xs[..|xs| - 1];
      assert init[..n] == xs[..n];
      MapResultPrefixError(f, init, n);
    } else {
      assert xs[..n] == xs;
    }
  }

  /** `for x in xs: state = step(state, x)`, stopping at the first
      exception. */
  function FoldResult<S, A>(step: (S, A) -> Result<S>, init: S, xs: seq<A>): Result<S>
  {
    if |xs| == 0 then Ok(init)
    else
      var s :- FoldResult(step, init, xs[..|xs| - 1]);
      step(s, xs[|xs| - 1])
  }

  /** One more element: the fold of a prefix continues with `step`. */
  lemma FoldResultNext<S, A>(step: (S, A) -> Result<S>, init: S, xs: seq<A>, i: nat, s: S)
    requires i < |xs| && FoldResult(step, init, xs[..i]) == Ok(s)
    ensures FoldResult(step, init, xs[..i + 1]) == step(s, xs[i])
  {
    assert xs[..i + 1][..i] == xs[..i];
  }

  /** Once a prefix raises, the whole fold raises the same exception. */
  lemma {:induction false} FoldResultPrefixError<S, A>(step: (S, A) -> Result<S>, init: S, xs: seq<A>, n: nat)
    requires n <= |xs| && FoldResult(step, init, xs[..n]).Err?
    ensures FoldResult(step, init, xs) == FoldResult(step, init, xs[..n])
  {
    if n < |xs| {
      var prefix := xs[..|xs| - 1];
      assert prefix[..n] == xs[..n];
      FoldResultPrefixError(step, init, prefix, n);
    } else {
      assert xs[..n] == xs;
    }
  }

  /** The step of `for x in xs: table[id(x)] = f(x)`, where computing
      `f(x)` may raise. */
  function KeyedStep<A, V>(f: A -> Result<V>, id: A -> string): (map<string, V>, A) -> Result<map<string, V>>
  {
    (table: map<string, V>, a: A) => if f(a).Err? then Err(f(a).error) else Ok(table[id(a) := f(a).value])
  }

  /** One more element of the keyed fold. */
  lemma KeyedFoldStep<A, V>(f: A -> Result<V>, id: A -> string, xs: seq<A>, i: nat, table: map<string, V>)
    requires i < |xs| && FoldResult(KeyedStep(f, id), map[], xs[..i]) == Ok(table)
    ensures FoldResult(KeyedStep(f, id), map[], xs[..i + 1])
            == if f(xs[i]).Err? then Err(f(xs[i]).error) else Ok(table[id(xs[i]) := f(xs[i]).value])
  {
    assert xs[..i + 1][..i] == xs[..i];
  }

  /** A table built without exception has a key per element and nothing
      else, and under each key the value of the last element with that
      key. */
  lemma KeyedFoldEntries<A, V>(f: A -> Result<V>, id: A -> string, xs: seq<A>)
    requires FoldResult(KeyedStep(f, id), map[], xs).Ok?
    ensures var r := FoldResult(KeyedStep(f, id), map[], xs).value;
            (forall k :: k in r ==> exists i :: 0 <= i < |xs| && id(xs[i]) == k)
            && forall i :: 0 <= i < |xs| && (forall j :: i < j < |xs| ==> id(xs[j]) != id(xs[i])) ==>
                 id(xs[i]) in r && f(xs[i]) == Ok(r[id(xs[i])])
  {
    KeyedFoldKeys(f, id, xs);
    KeyedFoldLast(f, id, xs);
  }

  /** The last step of a keyed fold that succeeds. */
  lemma KeyedFoldSnoc<A, V>(f: A -> Result<V>, id: A -> string, xs: seq<A>)
    requires |xs| > 0 && FoldResult(KeyedStep(f, id), map[], xs).Ok?
    ensures var prefix, last := xs[..|xs| - 1], xs[|xs| - 1];
            FoldResult(KeyedStep(f, id), map[], prefix).Ok? && f(last).Ok?
            && FoldResult(KeyedStep(f, id), map[], xs).value
               == FoldResult(KeyedStep(f, id), map[], prefix).value[id(last) := f(last).value]
  {
  }

  lemma {:induction false} KeyedFoldKeys<A, V>(f: A -> Result<V>, id: A -> string, xs: seq<A>)
    requires FoldResult(KeyedStep(f, id), map[], xs).Ok?
    ensures var r := FoldResult(KeyedStep(f, id), map[], xs).value;
            forall k :: k in r ==> exists i :: 0 <= i < |xs| && id(xs[i]) == k
  {
    if |xs| > 0 {
      var prefix := xs[..|xs| - 1];
      var last := xs[|xs| - 1];
      KeyedFoldSnoc(f, id, xs);
      KeyedFoldKeys(f, id, prefix);
      var r := FoldResult(KeyedStep(f, id), map[], xs).value;
      forall k | k in r
        ensures exists i :: 0 <= i < |xs| && id(xs[i]) == k
      {
        if k != id(last) {
          var i :| 0 <= i < |prefix| && id(prefix[i]) == k;
          assert xs[i] == prefix[i];
        }
      }
    }
  }

  lemma {:induction false} KeyedFoldLast<A, V>(f: A -> Result<V>, id: A -> string, xs: seq<A>)
    requires FoldResult(KeyedStep(f, id), map[], xs).Ok?
    ensures var r := FoldResult(KeyedStep(f, id), map[], xs).value;
            forall i :: 0 <= i < |xs| && (forall j :: i < j < |xs| ==> id(xs[j]) != id(xs[i])) ==>
              id(xs[i]) in r && f(xs[i]) == Ok(r[id(xs[i])])
  {
    if |xs| > 0 {
      var prefix := xs[..|xs| - 1];
      var last := xs[|xs| - 1];
      KeyedFoldSnoc(f, id, xs);
      KeyedFoldLast(f, id, prefix);
      var r := FoldResult(KeyedStep(f, id), map[], xs).value;
      forall i | 0 <= i < |xs| && (forall j :: i < j < |xs| ==> id(xs[j]) != id(xs[i]))
        ensures id(xs[i]) in r && f(xs[i]) == Ok(r[id(xs[i])])
      {
        if i < |xs| - 1 {
          assert xs[i] == prefix[i];
          assert id(last) != id(xs[i]);
          assert forall j :: i < j < |prefix| ==> prefix[j] == xs[j];
        }
      }
    }
  }

  /** `for x in xs: result += f(x)`: the outputs of every element, in
      order. */
  function Concat<A, B>(f: A -> seq<B>, xs: seq<A>): seq<B>
  {
    if |xs| == 0 then [] else Concat(f, xs[..|xs| - 1]) + f(xs[|xs| - 1])
  }

  lemma ConcatStep<A, B>(f: A -> seq<B>, xs: seq<A>, i: nat)
    requires i < |xs|
    ensures Concat(f, xs[..i + 1]) == Concat(f, xs[..i]) + f(xs[i])
  {
    assert xs[..i + 1][..i] == xs[..i];
  }

  /** The outputs of two lists are those of each, one after the other. */
  lemma {:induction false} ConcatAppend<A, B>(f: A -> seq<B>, xs: seq<A>, ys: seq<A>)
    ensures Concat(f, xs + ys) == Concat(f, xs) + Concat(f, ys)
    decreases |ys|
  {
    if |ys| == 0 {
      assert xs + ys == xs;
    } else {
      var init := ys[..|ys| - 1];
      assert (xs + ys)[..|xs + ys| - 1] == xs + init;
      ConcatAppend(f, xs, init);
    }
  }

  function Yields<A, B>(f: A -> seq<B>): A -> bool
  {
    (x: A) => |f(x)| > 0
  }

  /** When every element yields at most one output, the outputs are those
      of the elements that yield one, in order. */
  lemma {:induction false} ConcatSingles<A, B>(f: A -> seq<B>, xs: seq<A>)
    requires forall i :: 0 <= i < |xs| ==> |f(xs[i])| <= 1
    ensures var kept := Filter(Yields(f), xs);
            var r := Concat(f, xs);
            |r| == |kept| && forall i :: 0 <= i < |kept| ==> r[i] == f(kept[i])[0]
  {
    if |xs| > 0 {
      var init, last := xs[..|xs| - 1], xs[|xs| - 1];
      ConcatSingles(f, init);
      assert xs == init + [last];
      FilterAppend(Yields(f), init, [last]);
      assert [last][1..] == [];
    }
  }
}

/** The conversion primitives the generated schema modules share:
    `from_str`, `from_none`, `from_float`, `from_int`, `from_bool`,
    `from_list`, `from_union`, enumeration lookup by value, and the
    encoders `to_float`/`to_class`/`to_enum` over decoded values.  A failed
    `assert isinstance(...)` is an `AssertionError`. */
module Convert {
  import opened Wrappers
  import opened Json

  function FromStr(x: Json): (r: Result<string>)
    ensures r.Ok? <==> x.Str?
    ensures r.Ok? ==> Str(r.value) == x
    ensures r.Err? ==> r.error == AssertionError
  {
    if x.Str? then Ok(x.s) else Err(AssertionError)
  }

  function FromNone(x: Json): (r: Result<()>)
    ensures r.Ok? <==> x == Null
    ensures r.Err? ==> r.error == AssertionError
  {
    if x.Null? then Ok(()) else Err(AssertionError)
  }

  /** `from_float`: integers and floats but not booleans, as a float. */
  function FromFloat(x: Json): (r: Result<real>)
    ensures r.Ok? <==> x.Int? || x.Float?
    ensures x.Int? ==> r == Ok(x.i as real)
    ensures x.Float? ==> r == Ok(x.r)
    ensures r.Err? ==> r.error == AssertionError
  {
    match x
    case Int(i) => Ok(i as real)
    case Float(v) => Ok(v)
    case _ => Err(AssertionError)
  }

  /** `from_int`: integers but not booleans. */
  function FromInt(x: Json): (r: Result<int>)
    ensures r.Ok? <==> x.Int?
    ensures r.Ok? ==> Int(r.value) == x
    ensures r.Err? ==> r.error == AssertionError
  {
    if x.Int? then Ok(x.i) else Err(AssertionError)
  }

  function FromBool(x: Json): (r: Result<bool>)
    ensures r.Ok? <==> x.Bool?
    ensures r.Ok? ==> Bool(r.value) == x
    ensures r.Err? ==> r.error == AssertionError
  {
    if x.Bool? then Ok(x.b) else Err(AssertionError)
  }

  /** The result of a decoder passed through a constructor. */
  function Lift<A, B>(r: Result<A>, k: A -> B): (s: Result<B>)
    ensures s.Ok? <==> r.Ok?
    ensures r.Ok? ==> s.value == k(r.value)
    ensures r.Err? ==> s.error == r.error
  {
    match r
    case Ok(a) => Ok(k(a))
    case Err(e) => Err(e)
  }

  // ---------------------------------------------------------------------
  // from_union

  /** The loop of `from_union` from the `k`-th decoder on. */
  function FromUnionFrom<T>(fs: seq<Json -> Result<T>>, k: nat, x: Json): Result<T>
    decreases |fs| - k
  {
    if k >= |fs| then Err(AssertionError)
    else if fs[k](x).Ok? then fs[k](x)
    else FromUnionFrom(fs, k + 1, x)
  }

  /** `from_union(fs, x)`: the result of the first decoder that does not
      raise; `assert False` when every one raises. */
  function FromUnion<T>(fs: seq<Json -> Result<T>>, x: Json): Result<T>
  {
    FromUnionFrom(fs, 0, x)
  }

  /** The union succeeds exactly when some decoder does, with the value of
      the first that does; otherwise it is an `AssertionError`. */
  lemma {:induction false} FromUnionFromSpec<T>(fs: seq<Json -> Result<T>>, k: nat, x: Json)
    ensures FromUnionFrom(fs, k, x).Ok? <==> exists j :: k <= j < |fs| && fs[j](x).Ok?
    ensures FromUnionFrom(fs, k, x).Err? ==> FromUnionFrom(fs, k, x).error == AssertionError
    ensures forall j :: k <= j < |fs| && fs[j](x).Ok? && (forall i :: k <= i < j ==> fs[i](x).Err?) ==>
              FromUnionFrom(fs, k, x) == fs[j](x)
    decreases |fs| - k
  {
    if k < |fs| {
      FromUnionFromSpec(fs, k + 1, x);
    }
  }

  lemma FromUnionSpec<T>(fs: seq<Json -> Result<T>>, x: Json)
    ensures FromUnion(fs, x).Ok? <==> exists j :: 0 <= j < |fs| && fs[j](x).Ok?
    ensures FromUnion(fs, x).Err? ==> FromUnion(fs, x).error == AssertionError
    ensures forall j :: 0 <= j < |fs| && fs[j](x).Ok? && (forall i :: 0 <= i < j ==> fs[i](x).Err?) ==>
              FromUnion(fs, x) == fs[j](x)
  {
    FromUnionFromSpec(fs, 0, x);
  }

  lemma UnionSkip<T>(fs: seq<Json -> Result<T>>, k: nat, x: Json)
    requires k < |fs| && fs[k](x).Err?
    ensures FromUnionFrom(fs, k, x) == FromUnionFrom(fs, k + 1, x)
  {
  }

  lemma UnionTake<T>(fs: seq<Json -> Result<T>>, k: nat, x: Json)
    requires k < |fs| && fs[k](x).Ok?
    ensures FromUnionFrom(fs, k, x) == fs[k](x)
  {
  }

  // ---------------------------------------------------------------------
  // Optional fields: from_union([f, from_none])

  function OptionalDecoders<T>(f: Json -> Result<T>): seq<Json -> Result<Option<T>>>
  {
    [(y: Json) => Lift(f(y), (t: T) => Some(t)), (y: Json) => Lift(FromNone(y), (_: ()) => None)]
  }

  /** `from_union([f, from_none], x)`. */
  function FromOptional<T>(f: Json -> Result<T>, x: Json): Result<Option<T>>
  {
    FromUnion(OptionalDecoders(f), x)
  }

  /** The decoder is tried first, then `None`. */
  lemma FromOptionalSpec<T>(f: Json -> Result<T>, x: Json)
    ensures FromOptional(f, x) == if f(x).Ok? then Ok(Some(f(x).value))
                                  else if x == Null then Ok(None)
                                  else Err(AssertionError)
  {
    var ds := OptionalDecoders(f);
    if f(x).Ok? {
      UnionTake(ds, 0, x);
    } else {
      UnionSkip(ds, 0, x);
      if x == Null {
        UnionTake(ds, 1, x);
      } else {
        UnionSkip(ds, 1, x);
      }
    }
  }

  /** The dict a `to_dict` fills: every key of `keys` whose field of `r`
      is not `None`, holding that field's encoding. */
  function Present<R>(keys: set<string>, field: (R, string) -> Option<Json>, r: R): (m: map<string, Json>)
    ensures forall k :: k in m <==> k in keys && field(r, k).Some?
    ensures forall k :: k in m ==> m[k] == field(r, k).value
  {
    map k | k in keys && field(r, k).Some? :: field(r, k).value
  }

  lemma GetPresent<R>(keys: set<string>, field: (R, string) -> Option<Json>, r: R, k: string)
    requires k in keys
    ensures Get(Present(keys, field, r), k) == field(r, k).GetOr(Null)
  {
  }

  function MapOption<T>(o: Option<T>, g: T -> Json): (r: Option<Json>)
    ensures r.Some? <==> o.Some?
    ensures o.Some? ==> r.value == g(o.value)
  {
    match o
    case None => None
    case Some(t) => Some(g(t))
  }

  /** An optional field read back from what its encoding left in the dict
      (`null` when absent), provided the decoder refuses `None` and inverts
      the encoder. */
  lemma OptionalRoundTrip<T>(f: Json -> Result<T>, g: T -> Json, o: Option<T>)
    requires f(Null).Err? && (o.Some? ==> f(g(o.value)) == Ok(o.value))
    ensures FromOptional(f, MapOption(o, g).GetOr(Null)) == Ok(o)
  {
    FromOptionalSpec(f, MapOption(o, g).GetOr(Null));
  }

  // ---------------------------------------------------------------------
  // from_list

  /** `[f(y) for y in items]`: the first failure propagates. */
  function DecodeAll<T>(f: Json -> Result<T>, items: seq<Json>): (r: Result<seq<T>>)
    ensures r.Ok? ==> |r.value| == |items| && forall i :: 0 <= i < |items| ==> f(items[i]) == Ok(r.value[i])
    ensures r.Ok? <==> forall i :: 0 <= i < |items| ==> f(items[i]).Ok?
  {
    if |items| == 0 then Ok([])
    else
      match f(items[0])
      case Err(e) => Err(e)
      case Ok(t) =>
        match DecodeAll(f, items[1..])
        case Err(e) => Err(e)
        case Ok(ts) => Ok([t] + ts)
  }

  /** `from_list(f, x)`. */
  function FromList<T>(f: Json -> Result<T>, x: Json): (r: Result<seq<T>>)
    ensures !x.Arr? ==> r == Err(AssertionError)
  {
    if x.Arr? then DecodeAll(f, x.items) else Err(AssertionError)
  }

  /** `from_list(lambda x: to_class(C, x), xs)`. */
  function EncodeAll<T>(g: T -> Json, xs: seq<T>): (r: seq<Json>)
    ensures |r| == |xs| && forall i :: 0 <= i < |xs| ==> r[i] == g(xs[i])
  {
    seq(|xs|, i requires 0 <= i < |xs| => g(xs[i]))
  }

  /** Encoded lists decode element by element, in order, to what each
      element decodes to. */
  lemma {:induction false} DecodeEncodeAll<T>(f: Json -> Result<T>, g: T -> Json, xs: seq<T>, ys: seq<T>)
    requires |xs| == |ys| && forall i :: 0 <= i < |xs| ==> f(g(xs[i])) == Ok(ys[i])
    ensures DecodeAll(f, EncodeAll(g, xs)) == Ok(ys)
  {
    if |xs| > 0 {
      DecodeEncodeAll(f, g, xs[1..], ys[1..]);
      assert EncodeAll(g, xs)[1..] == EncodeAll(g, xs[1..]);
      assert [ys[0]] + ys[1..] == ys;
    }
  }

  lemma ListRoundTrip<T>(f: Json -> Result<T>, g: T -> Json, xs: seq<T>)
    requires forall i :: 0 <= i < |xs| ==> f(g(xs[i])) == Ok(xs[i])
    ensures FromList(f, Arr(EncodeAll(g, xs))) == Ok(xs)
  {
    DecodeEncodeAll(f, g, xs, xs);
  }

  // ---------------------------------------------------------------------
  // Enumerations

  /** `E(x)`: the member whose value is the string `x`; anything else is a
      `ValueError`. */
  function FromEnum<E>(lookup: string -> Option<E>, x: Json): (r: Result<E>)
    ensures r.Ok? <==> x.Str? && lookup(x.s).Some?
    ensures r.Ok? ==> r.value == lookup(x.s).value
    ensures r.Err? ==> r.error.ValueError?
  {
    if x.Str? && lookup(x.s).Some? then Ok(lookup(x.s).value) else Err(ValueError("not a valid enumeration value"))
  }
}

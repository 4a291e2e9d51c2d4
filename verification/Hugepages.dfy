/**
 Hugepage reservations of the dataplane (api/v1alpha1/yanetconfig_types.go, internal/manifests/builder.go).
 */
module Hugepages {
  import opened Options

  const MAX_INT32 := 0x7fff_ffff
  const MAX_INT64 := 0x7fff_ffff_ffff_ffff

  /** A request: a page size as written, and a count, zero meaning the node's whole pool. */
  datatype Request = Request(size: string, count: int)

  /** A node's pool; `exact` is its value as an int64 where the quantity's own form gives one. */
  datatype Quantity = Quantity(value: real, exact: Option<int>)

  predicate QuantityLegal(q: Quantity) {
    q.exact.Some? ==> q.exact.value as real == q.value && -MAX_INT64 - 1 <= q.exact.value <= MAX_INT64
  }

  /** Quantity.Value: round up, then keep the low 64 bits. */
  function Value(q: real): (v: int)
    ensures -MAX_INT64 - 1 <= v <= MAX_INT64
  {
    var low := (-(-q).Floor) % 0x1_0000_0000_0000_0000;
    if low > MAX_INT64 then low - 0x1_0000_0000_0000_0000 else low
  }

  /** A whole number of bytes. */
  predicate Whole(q: real) {
    q.Floor as real == q
  }

  lemma ValueIsExact(q: real)
    ensures Value(q) as real == q <==> Whole(q) && -MAX_INT64 - 1 <= q.Floor <= MAX_INT64
  {
    if Whole(q) {
      assert (-q).Floor == -q.Floor;
    }
    if Value(q) as real == q {
      assert q.Floor == Value(q);
    }
  }

  lemma ProductFits(page: int, count: int)
    requires page >= 1 && count >= 1
    ensures page > MAX_INT64 / count <==> page * count > MAX_INT64
  {
    var q := MAX_INT64 / count;
    assert MAX_INT64 == q * count + MAX_INT64 % count;
    if page > q {
      Scales(q + 1, page, count);
    } else {
      Scales(page, q, count);
    }
  }

  lemma Scales(a: int, b: int, count: int)
    requires a <= b && count >= 1
    ensures a * count <= b * count
  {
    assert b * count - a * count == (b - a) * count;
  }

  /**
   TotalQuantity accepts exactly the positive whole page sizes and counts whose product is an int64, and
   returns that product.
   */
  function TotalQuantity(size: Option<real>, count: int): (total: Option<int>)
    ensures total.Some? <==> size.Some? && Whole(size.value) && size.value.Floor >= 1 && count >= 1
                             && size.value.Floor * count <= MAX_INT64
    ensures total.Some? ==> total.value == size.value.Floor * count
  {
    if size.None? then None
    else if size.value <= 0.0 || count <= 0 then None
    else
      var pageBytes := Value(size.value);
      ValueIsExact(size.value);
      if pageBytes <= 0 || pageBytes as real != size.value then
        assert Whole(size.value) && size.value.Floor >= 1 ==> size.value.Floor > MAX_INT64;
        assert size.value.Floor > MAX_INT64 ==> size.value.Floor * count > MAX_INT64 by {
          Grows(size.value.Floor, count);
        }
        None
      else
        ProductFits(pageBytes, count);
        if pageBytes > MAX_INT64 / count then None else Some(pageBytes * count)
  }

  lemma Grows(a: int, count: int)
    requires count >= 1
    ensures a >= 0 ==> a * count >= a
  {
    if a >= 0 {
      assert a * (count - 1) >= 0;
    }
  }

  // ---- Sizing by the node -----------------------------------------------------------------------

  datatype Result = Error | Nothing | Reserve(request: Request)

  predicate Positive(pools: map<string, Quantity>, size: string) {
    size in pools && pools[size].value > 0.0
  }

  /** The pages of that size make up the pool exactly, and their number is an int32. */
  predicate Fills(parse: string -> Option<real>, pools: map<string, Quantity>, r: Request) {
    && TotalQuantity(parse(r.size), 1).Some?
    && Positive(pools, r.size) && pools[r.size].exact.Some?
    && 1 <= r.count <= MAX_INT32
    && TotalQuantity(parse(r.size), 1).value * r.count == pools[r.size].exact.value
  }

  method PositivePools(pools: map<string, Quantity>) returns (sizes: seq<string>)
    ensures forall s :: s in sizes <==> Positive(pools, s)
    ensures forall i, j :: 0 <= i < j < |sizes| ==> sizes[i] != sizes[j]
  {
    sizes := [];
    var remaining := pools.Keys;
    while remaining != {}
      invariant remaining <= pools.Keys
      invariant forall s :: s in sizes <==> s in pools.Keys - remaining && Positive(pools, s)
      invariant forall i, j :: 0 <= i < j < |sizes| ==> sizes[i] != sizes[j]
      decreases |remaining|
    {
      var size :| size in remaining;
      remaining := remaining - {size};
      assert size !in sizes;
      if pools[size].value > 0.0 {
        sizes := sizes + [size];
      }
    }
  }

  /** The size to reserve: the requested one, or the node's only positive pool. */
  ghost predicate Chosen(pools: map<string, Quantity>, requested: Option<Request>, size: string) {
    if requested.Some? then size == requested.value.size
    else Positive(pools, size) && forall s :: Positive(pools, s) ==> s == size
  }

  /** Fill the pool of a chosen size. */
  method FillPool(parse: string -> Option<real>, pools: map<string, Quantity>, size: string) returns (r: Result)
    requires forall s :: s in pools ==> QuantityLegal(pools[s])
    ensures r.Reserve? ==> r.request.size == size && Fills(parse, pools, r.request)
    ensures !r.Nothing?
    ensures r.Error? ==> forall count :: !Fills(parse, pools, Request(size, count))
  {
    var page := TotalQuantity(parse(size), 1);
    if page.None? {
      return Error;
    }
    if size !in pools || pools[size].value <= 0.0 {
      return Error;
    }
    var exact := pools[size].exact;
    if exact.None? {
      return Error;
    }
    var bytes := exact.value;
    forall count | page.value * count == bytes ensures bytes % page.value == 0 && bytes / page.value == count {
      Divides(page.value, count, bytes);
    }
    if bytes % page.value != 0 {
      return Error;
    }
    var count := bytes / page.value;
    if count < 1 || count > MAX_INT32 {
      return Error;
    }
    assert page.value * count == bytes;
    r := Reserve(Request(size, count));
  }

  lemma Divides(page: int, count: int, bytes: int)
    requires page >= 1 && page * count == bytes
    ensures bytes % page == 0 && bytes / page == count
  {
    var q := bytes / page;
    assert page * (count - q) == bytes % page;
    if count > q {
      Grows(page, count - q);
    }
  }

  /**
   resolveNodeHugepages: an explicit count stays; otherwise the reservation is the node's whole pool of the chosen
   size, or nothing when the node has none, and it is an error exactly when no such reservation exists.
   */
  method ResolveNodeHugepages(parse: string -> Option<real>, pools: map<string, Quantity>, requested: Option<Request>)
    returns (r: Result)
    requires forall s :: s in pools ==> QuantityLegal(pools[s])
    ensures requested.Some? && requested.value.count != 0 ==> r == Reserve(requested.value)
    ensures (requested.Some? ==> requested.value.count == 0) && r.Reserve? ==>
              Chosen(pools, requested, r.request.size) && Fills(parse, pools, r.request)
    ensures r.Nothing? <==> requested.None? && forall s :: !Positive(pools, s)
    ensures r.Error? ==> (requested.Some? ==> requested.value.count == 0)
                         && forall h: Request :: Chosen(pools, requested, h.size) ==> !Fills(parse, pools, h)
  {
    if requested.Some? && requested.value.count != 0 {
      return Reserve(requested.value);
    }
    var size;
    if requested.None? {
      var sizes := PositivePools(pools);
      if |sizes| == 0 {
        return Nothing;
      }
      assert Positive(pools, sizes[0]);
      if |sizes| > 1 {
        assert Positive(pools, sizes[1]) && sizes[0] != sizes[1];
        return Error;
      }
      size := sizes[0];
      assert forall s :: Positive(pools, s) ==> s in sizes;
    } else {
      size := requested.value.size;
    }
    r := FillPool(parse, pools, size);
    forall h: Request | r.Error? && Chosen(pools, requested, h.size) ensures !Fills(parse, pools, h) {
      assert h == Request(size, h.count);
    }
  }

  /** What an automatic reservation asks for is the whole pool, and the later size check cannot fail on it. */
  lemma {:induction false} FilledPoolIsReserved(parse: string -> Option<real>, pools: map<string, Quantity>, h: Request)
    requires Fills(parse, pools, h) && QuantityLegal(pools[h.size])
    ensures TotalQuantity(parse(h.size), h.count) == Some(pools[h.size].exact.value)
  {
    var page := parse(h.size).value.Floor;
    assert TotalQuantity(parse(h.size), 1).value == page;
  }

  /** Nothing is asked for, or a size without a count. */
  predicate Automatic(requested: Option<Request>) {
    requested.Some? ==> requested.value.count == 0
  }

  /** A pool has one filling count. */
  lemma {:induction false} FillsOnce(parse: string -> Option<real>, pools: map<string, Quantity>, g: Request,
                                     h: Request)
    requires Fills(parse, pools, g) && Fills(parse, pools, h) && g.size == h.size
    ensures g == h
  {
    var page, bytes := TotalQuantity(parse(g.size), 1).value, pools[g.size].exact.value;
    Divides(page, g.count, bytes);
    Divides(page, h.count, bytes);
  }

  /**
   The hugepage part of BuildDeployments: resolve, then validate. An explicit request is kept exactly when it is
   legal. An automatic one reserves nothing for a disabled dataplane; otherwise it is the request that fills the
   chosen pool if there is one, nothing exactly when no size was asked for and the node has no pool, and else an error.
   */
  method BuildHugepages(parse: string -> Option<real>, pools: map<string, Quantity>, requested: Option<Request>,
                        enabled: bool)
    returns (r: Result)
    requires forall s :: s in pools ==> QuantityLegal(pools[s])
    ensures !Automatic(requested) ==>
              r == if TotalQuantity(parse(requested.value.size), requested.value.count).Some?
                   then Reserve(requested.value) else Error
    ensures Automatic(requested) && !enabled ==> r == Nothing
    ensures Automatic(requested) && enabled ==>
              && (r.Reserve? ==> Chosen(pools, requested, r.request.size) && Fills(parse, pools, r.request))
              && (forall h: Request :: Chosen(pools, requested, h.size) && Fills(parse, pools, h) ==> r == Reserve(h))
              && (r == Nothing <==> requested.None? && forall s :: !Positive(pools, s))
    ensures r.Reserve? ==> TotalQuantity(parse(r.request.size), r.request.count).Some?
    ensures r.Reserve? && Automatic(requested) ==>
              TotalQuantity(parse(r.request.size), r.request.count) == Some(pools[r.request.size].exact.value)
  {
    if !enabled && (requested.None? || requested.value.count == 0) {
      return Nothing;
    }
    r := ResolveNodeHugepages(parse, pools, requested);
    if r.Reserve? {
      if Automatic(requested) {
        FilledPoolIsReserved(parse, pools, r.request);
        ChosenFillsOnce(parse, pools, requested, r.request);
      }
      if TotalQuantity(parse(r.request.size), r.request.count).None? {
        return Error;
      }
    }
  }

  lemma {:induction false} ChosenFillsOnce(parse: string -> Option<real>, pools: map<string, Quantity>,
                                           requested: Option<Request>, g: Request)
    requires Chosen(pools, requested, g.size) && Fills(parse, pools, g)
    ensures forall h: Request :: Chosen(pools, requested, h.size) && Fills(parse, pools, h) ==> h == g
  {
    forall h: Request | Chosen(pools, requested, h.size) && Fills(parse, pools, h) ensures h == g {
      FillsOnce(parse, pools, g, h);
    }
  }
}

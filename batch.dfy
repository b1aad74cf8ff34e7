/** A batch of follow-up requests fetched concurrently and folded into one record
    list. The fetch collaborator is a function from request to decoded body (or the
    failure it raised); the order in which the batch's responses arrive is not
    known, so every statement about a whole batch is made for any arrival order. */
module Batch {
  import opened Values

  /** The records of one response: fetched, then parsed; either step may raise. */
  function PageOf<Q>(fetch: Q -> Result<Json>, parse: Json -> Result<seq<Json>>, q: Q): Result<seq<Json>>
  {
    match fetch(q)
    case Err(e) => Err(e)
    case Ok(body) => parse(body)
  }

  /** The records of the responses to `reqs`, handled in the order given and
      concatenated; the first response whose fetch or parse raises ends the loop
      with that failure, as an exception inside `async for` does. */
  function Collect<Q>(fetch: Q -> Result<Json>, parse: Json -> Result<seq<Json>>, reqs: seq<Q>): Result<seq<Json>>
    decreases |reqs|
  {
    if reqs == [] then Ok([])
    else match PageOf(fetch, parse, reqs[0])
      case Err(e) => Err(e)
      case Ok(records) =>
        match Collect(fetch, parse, reqs[1..])
        case Err(e) => Err(e)
        case Ok(rest) => Ok(records + rest)
  }

  /** A batch succeeds exactly when every one of its pages does. */
  lemma {:induction false} CollectOk<Q>(fetch: Q -> Result<Json>, parse: Json -> Result<seq<Json>>, reqs: seq<Q>)
    ensures Collect(fetch, parse, reqs).Ok? <==>
              forall i :: 0 <= i < |reqs| ==> PageOf(fetch, parse, reqs[i]).Ok?
    decreases |reqs|
  {
    if reqs != [] {
      CollectOk(fetch, parse, reqs[1..]);
      assert forall i :: 1 <= i < |reqs| ==> reqs[i] == reqs[1..][i - 1];
    }
  }

  /** Handling `a` and then `b` is handling `a + b`: the records of a split batch are
      the records of its parts, concatenated. */
  lemma {:induction false} CollectAppend<Q>(fetch: Q -> Result<Json>, parse: Json -> Result<seq<Json>>, a: seq<Q>, b: seq<Q>)
    ensures Collect(fetch, parse, a + b).Ok? <==>
              Collect(fetch, parse, a).Ok? && Collect(fetch, parse, b).Ok?
    ensures Collect(fetch, parse, a + b).Ok? ==>
              Collect(fetch, parse, a + b).value == Collect(fetch, parse, a).value + Collect(fetch, parse, b).value
    decreases |a|
  {
    if a == [] {
      assert a + b == b;
    } else {
      assert (a + b)[0] == a[0];
      assert (a + b)[1..] == a[1..] + b;
      CollectAppend(fetch, parse, a[1..], b);
      if PageOf(fetch, parse, a[0]).Ok? && Collect(fetch, parse, a[1..] + b).Ok? {
        var p := PageOf(fetch, parse, a[0]).value;
        assert p + (Collect(fetch, parse, a[1..]).value + Collect(fetch, parse, b).value) ==
               (p + Collect(fetch, parse, a[1..]).value) + Collect(fetch, parse, b).value;
      }
    }
  }

  /** Taking one request out of a batch: the batch succeeds when that page and the
      rest do, and its records are that page's records and the rest's. */
  lemma CollectRemoveAt<Q>(fetch: Q -> Result<Json>, parse: Json -> Result<seq<Json>>, b: seq<Q>, j: nat)
    requires j < |b|
    ensures Collect(fetch, parse, b).Ok? <==>
              PageOf(fetch, parse, b[j]).Ok? && Collect(fetch, parse, b[..j] + b[j + 1..]).Ok?
    ensures Collect(fetch, parse, b).Ok? ==>
              multiset(Collect(fetch, parse, b).value) ==
              multiset(PageOf(fetch, parse, b[j]).value) + multiset(Collect(fetch, parse, b[..j] + b[j + 1..]).value)
  {
    var x, left, right := b[j], b[..j], b[j + 1..];
    assert b == left + ([x] + right);
    CollectAppend(fetch, parse, left, [x] + right);
    CollectAppend(fetch, parse, left, right);
    assert Collect(fetch, parse, [x] + right) ==
           match PageOf(fetch, parse, x)
           case Err(e) => Err(e)
           case Ok(page) =>
             match Collect(fetch, parse, right)
             case Err(e) => Err(e)
             case Ok(rest) => Ok(page + rest)
    by {
      assert ([x] + right)[0] == x && ([x] + right)[1..] == right;
    }
  }

  /** Whatever order a batch's responses arrive in, it succeeds or fails alike and
      yields the same records, counted with multiplicity. */
  lemma {:induction false} CollectPermutation<Q>(fetch: Q -> Result<Json>, parse: Json -> Result<seq<Json>>, a: seq<Q>, b: seq<Q>)
    requires multiset(a) == multiset(b)
    ensures Collect(fetch, parse, a).Ok? <==> Collect(fetch, parse, b).Ok?
    ensures Collect(fetch, parse, a).Ok? ==>
              multiset(Collect(fetch, parse, a).value) == multiset(Collect(fetch, parse, b).value)
    decreases |a|
  {
    if a == [] {
      assert |b| == |multiset(b)| == 0;
    } else {
      var x := a[0];
      assert x in multiset(b);
      var j :| 0 <= j < |b| && b[j] == x;
      var rest := b[..j] + b[j + 1..];
      RemoveSame(a, b, j);
      CollectPermutation(fetch, parse, a[1..], rest);
      CollectRemoveAt(fetch, parse, b, j);
    }
  }

  /** Taking the first element out of `a` and an equal one out of `b` keeps the two
      equal as multisets. */
  lemma RemoveSame<Q>(a: seq<Q>, b: seq<Q>, j: nat)
    requires multiset(a) == multiset(b) && |a| > 0 && j < |b| && b[j] == a[0]
    ensures multiset(a[1..]) == multiset(b[..j] + b[j + 1..])
  {
    var x, rest := a[0], b[..j] + b[j + 1..];
    assert a == [x] + a[1..];
    assert b == b[..j] + [x] + b[j + 1..];
    assert multiset(a) == multiset(a[1..]) + multiset{x};
    assert multiset(b) == multiset(b[..j]) + multiset{x} + multiset(b[j + 1..]);
    assert multiset(rest) == multiset(b[..j]) + multiset(b[j + 1..]);
    assert multiset(a[1..]) == multiset(a) - multiset{x};
    assert multiset(rest) == multiset(b) - multiset{x};
  }

  /** `records` is `head` followed by the records of `pages` in some order. */
  predicate Gathered(records: seq<Json>, head: seq<Json>, pages: seq<Json>)
  {
    |records| == |head| + |pages| && records[..|head|] == head &&
    multiset(records[|head|..]) == multiset(pages)
  }

  /** Aggregating a batch in its arrival order gives the first page's records and
      then, in some order, exactly the records of the batch taken in planned order. */
  lemma ArrivalOrderIrrelevant<Q>(head: seq<Json>, fetch: Q -> Result<Json>, parse: Json -> Result<seq<Json>>,
                                  arrived: seq<Q>, planned: seq<Q>, records: seq<Json>)
    requires multiset(arrived) == multiset(planned)
    requires Collect(fetch, parse, arrived).Ok? && records == head + Collect(fetch, parse, arrived).value
    ensures Collect(fetch, parse, planned).Ok? && Gathered(records, head, Collect(fetch, parse, planned).value)
  {
    CollectPermutation(fetch, parse, arrived, planned);
    assert records[..|head|] == head && records[|head|..] == Collect(fetch, parse, arrived).value;
  }

  /** After a prefix that succeeds, a batch fails exactly as the rest of it does. */
  lemma {:induction false} CollectAfterOk<Q>(fetch: Q -> Result<Json>, parse: Json -> Result<seq<Json>>, a: seq<Q>, b: seq<Q>)
    requires Collect(fetch, parse, a).Ok? && Collect(fetch, parse, b).Err?
    ensures Collect(fetch, parse, a + b) == Collect(fetch, parse, b)
    decreases |a|
  {
    if a == [] {
      assert a + b == b;
    } else {
      assert (a + b)[0] == a[0];
      assert (a + b)[1..] == a[1..] + b;
      CollectAfterOk(fetch, parse, a[1..], b);
    }
  }

  /** When the pages before index `i` succeed and page `i` raises, the batch raises
      what page `i` raised. */
  lemma FirstFailure<Q>(fetch: Q -> Result<Json>, parse: Json -> Result<seq<Json>>, reqs: seq<Q>, i: nat)
    requires i < |reqs| && Collect(fetch, parse, reqs[..i]).Ok? && PageOf(fetch, parse, reqs[i]).Err?
    ensures Collect(fetch, parse, reqs) == PageOf(fetch, parse, reqs[i])
  {
    assert reqs[i..][0] == reqs[i];
    CollectAfterOk(fetch, parse, reqs[..i], reqs[i..]);
    assert reqs[..i] + reqs[i..] == reqs;
  }

  /** The `async for` loop that extends the first page's records with each arriving
      response's records, in arrival order. */
  method Aggregate<Q>(first: seq<Json>, fetch: Q -> Result<Json>, parse: Json -> Result<seq<Json>>, arrived: seq<Q>)
    returns (r: Result<seq<Json>>)
    ensures r.Ok? <==> Collect(fetch, parse, arrived).Ok?
    ensures r.Ok? ==> r.value == first + Collect(fetch, parse, arrived).value
    ensures r.Err? ==> r == Err(Collect(fetch, parse, arrived).error)
  {
    var records := first;
    var i := 0;
    while i < |arrived|
      invariant 0 <= i <= |arrived|
      invariant Collect(fetch, parse, arrived[..i]).Ok?
      invariant records == first + Collect(fetch, parse, arrived[..i]).value
    {
      var response := fetch(arrived[i]);
      if response.Err? {
        FirstFailure(fetch, parse, arrived, i);
        return Err(response.error);
      }
      var page := parse(response.value);
      if page.Err? {
        FirstFailure(fetch, parse, arrived, i);
        return Err(page.error);
      }
      CollectAppend(fetch, parse, arrived[..i], [arrived[i]]);
      assert arrived[..i + 1] == arrived[..i] + [arrived[i]];
      assert Collect(fetch, parse, [arrived[i]]).value == page.value by {
        assert [arrived[i]][1..] == [];
        assert page.value + [] == page.value;
      }
      records := records + page.value;
      i := i + 1;
    }
    assert arrived[..i] == arrived;
    r := Ok(records);
  }

  /** `concurrent_scrape` of a planned batch, folded onto the first page's records:
      `arrive` is the order the responses come in, any reordering of the batch. The
      result is the first page's records and then each arriving page's records whole,
      in arrival order, and so exactly the planned batch's records in some order; it
      fails exactly when the batch does, with the first failure in arrival order. */
  method Gather<Q>(first: seq<Json>, fetch: Q -> Result<Json>, parse: Json -> Result<seq<Json>>,
                   planned: seq<Q>, arrive: seq<Q> -> seq<Q>)
    returns (r: Result<seq<Json>>)
    requires forall batch :: multiset(arrive(batch)) == multiset(batch)
    ensures r.Ok? <==> Collect(fetch, parse, planned).Ok?
    ensures r.Ok? ==> Gathered(r.value, first, Collect(fetch, parse, planned).value)
    ensures r.Ok? ==> Collect(fetch, parse, arrive(planned)).Ok? &&
                      r.value == first + Collect(fetch, parse, arrive(planned)).value
    ensures r.Err? ==> Collect(fetch, parse, arrive(planned)).Err? && r == Err(Collect(fetch, parse, arrive(planned)).error)
  {
    var arrived := arrive(planned);
    r := Aggregate(first, fetch, parse, arrived);
    CollectPermutation(fetch, parse, arrived, planned);
    if r.Ok? {
      ArrivalOrderIrrelevant(first, fetch, parse, arrived, planned, r.value);
    }
  }
}

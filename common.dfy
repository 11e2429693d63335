/** Shared vocabulary of the recipe backend model: identities, the
    authentication gate's verdict, the shape of an HTTP reply, and the
    queryset `filter(field=value)` that the list views apply to a table. */
module Common {

  type UserId = nat

  datatype Option<T> = None | Some(value: T)

  /** Who the authentication gate resolved the request to. */
  datatype Caller = Anonymous | Authenticated(user: UserId)

  /** The rejections a handler in this core can produce. */
  datatype Error =
    | NotAuthenticated   // refused by IsAuthenticated before the handler body runs
    | NotFound           // get_object_or_404 / RetrieveAPIView.get_object found no row
    | BadRequest         // the handler itself answered 400
    | ServerError        // an exception escaped the handler (e.g. a missing request key)

  /** A reply: a success status with its payload, or a rejection. */
  datatype Outcome<T> = Ok(status: nat, value: T) | Fail(error: Error)

  const HTTP_200_OK: nat := 200
  const HTTP_201_CREATED: nat := 201

  /** `queryset.filter(...)`: the rows of `s` that satisfy `keep`, in table order.
      That every such row is kept, with its multiplicity, is FilterCount. */
  function Filter<T(!new)>(s: seq<T>, keep: T -> bool): (r: seq<T>)
    ensures |r| <= |s|
    ensures forall i :: 0 <= i < |r| ==> r[i] in s && keep(r[i])
  {
    if s == [] then []
    else
      var rest := Filter(s[1..], keep);
      assert s == [s[0]] + s[1..];
      if keep(s[0]) then [s[0]] + rest else rest
  }

  /** Every row that satisfies `keep` is kept as many times as it occurs, and no
      other row is kept. */
  lemma {:induction false} FilterCount<T(!new)>(s: seq<T>, keep: T -> bool, x: T)
    ensures multiset(Filter(s, keep))[x] == if keep(x) then multiset(s)[x] else 0
  {
    if s != [] {
      assert s == [s[0]] + s[1..];
      FilterCount(s[1..], keep, x);
    }
  }

  /** A row is in the result exactly when it is in the table and satisfies `keep`. */
  lemma FilterMembers<T(!new)>(s: seq<T>, keep: T -> bool, x: T)
    ensures x in Filter(s, keep) <==> x in s && keep(x)
  {
  }

  /** Filtering keeps the relative order of the rows: the result of filtering a
      concatenation is the concatenation of the results. */
  lemma {:induction false} FilterAppend<T(!new)>(a: seq<T>, b: seq<T>, keep: T -> bool)
    ensures Filter(a + b, keep) == Filter(a, keep) + Filter(b, keep)
  {
    if a == [] {
      assert a + b == b;
    } else {
      var ab := a + b;
      assert ab != [] && ab[0] == a[0] && ab[1..] == a[1..] + b;
      FilterAppend(a[1..], b, keep);
      calc {
        Filter(ab, keep);
        (if keep(a[0]) then [a[0]] else []) + Filter(a[1..] + b, keep);
        (if keep(a[0]) then [a[0]] else []) + (Filter(a[1..], keep) + Filter(b, keep));
        ((if keep(a[0]) then [a[0]] else []) + Filter(a[1..], keep)) + Filter(b, keep);
        Filter(a, keep) + Filter(b, keep);
      }
    }
  }
}

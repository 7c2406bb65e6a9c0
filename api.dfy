/**
 * The transactions endpoint of `src/pages/api/transactions/index.ts`: the
 * gating order (sign-in, then the rate limit, then the method), the list
 * filters, and the page arithmetic of the list.
 *
 * The signed-in user, the verdict of the rate limiter, the first day of the
 * following month (missing when its date is invalid) and the replies of the
 * storage service are parameters.
 */
module TransactionsApi {
  import opened Wrappers
  import opened Text
  import opened StorageQuery
  import opened TransactionValidation

  /** The first row index of a page: `(page - 1) * limit`. */
  function From(page: int, limit: int): int {
    (page - 1) * limit
  }

  /** The last row index of a page, inclusive: `from + limit - 1`. */
  function To(page: int, limit: int): int {
    From(page, limit) + limit - 1
  }

  /** A page holds exactly `limit` row slots, from index 0 onwards. */
  lemma PageRange(page: int, limit: int)
    requires page >= 1 && limit >= 1
    ensures From(page, limit) >= 0
    ensures To(page, limit) - From(page, limit) + 1 == limit
  {
  }

  /** Consecutive pages tile the rows without gap or overlap. */
  lemma PagesTile(page: int, limit: int)
    ensures To(page, limit) + 1 == From(page + 1, limit)
  {
  }

  /** `Math.ceil(a / b)` for a positive divisor. */
  function CeilDiv(a: int, b: int): (q: int)
    requires b >= 1
    ensures b * (q - 1) < a <= b * q
  {
    (a + b - 1) / b
  }

  /** `Math.max(1, Math.ceil(total / limit))`. */
  function TotalPages(total: nat, limit: int): (p: int)
    requires limit >= 1
    ensures p >= 1
    ensures total > 0 ==> (p - 1) * limit < total <= p * limit
    ensures total == 0 ==> p == 1
  {
    var c := CeilDiv(total, limit);
    assert total > 0 ==> c >= 1 by {
      if total > 0 {
        Positive(limit, c);
      }
    }
    if c > 1 then c else 1
  }

  lemma Positive(b: int, q: int)
    requires b >= 1 && 0 < b * q
    ensures q >= 1
  {
  }

  /** A missing count is read as 0 rows, which is still one page. */
  lemma MissingCountOnePage(count: Option<nat>, limit: int)
    requires limit >= 1 && count.None?
    ensures TotalPages(count.GetOr(0), limit) == 1
  {
  }

  /** Every row index below the total lies on exactly one page, and that page exists. */
  lemma RowOnPage(k: nat, total: nat, limit: int)
    requires limit >= 1 && k < total
    ensures var p := k / limit + 1;
            1 <= p <= TotalPages(total, limit) && From(p, limit) <= k <= To(p, limit)
  {
    var p := k / limit + 1;
    var tp := TotalPages(total, limit);
    assert From(p, limit) == (k / limit) * limit;
    assert (k / limit) * limit <= k < (k / limit) * limit + limit;
    assert limit * p > k;
    if p > tp {
      assert p - 1 >= tp;
      MultiplyAtLeast(limit, p - 1, tp);
    }
  }

  lemma MultiplyAtLeast(k: int, a: int, b: int)
    requires k >= 1 && a >= b
    ensures k * a >= k * b
  {
  }

  /**
   * The filters of a list query, chained in the order of the handler: the
   * owner, then the type, the category substring when the trimmed category
   * is not empty, and the month range, whose end is the first day of the
   * following month.
   */
  predicate ListFilters(sel: Selection, user: string, q: ListQuery, nextMonthStart: Option<string>) {
    && sel.owner == user && sel.kind == q.kind
    && (sel.categoryPattern.Some? <==> q.category.Some? && Trim(q.category.value) != "")
    && (sel.categoryPattern.Some? ==> sel.categoryPattern.value == Contains(Trim(q.category.value)))
    && (sel.dateFrom.Some? <==> q.month.Some? && q.month.value != "")
    && (sel.dateFrom.Some? ==> sel.dateFrom.value == MonthStart(q.month.value))
    && sel.dateBefore == (if sel.dateFrom.Some? then nextMonthStart else None)
  }

  /** The month of a list query has no end: the handler throws. */
  predicate ListMonthFails(q: ListQuery, nextMonthStart: Option<string>) {
    q.month.Some? && MonthEndFails(q.month.value, nextMonthStart)
  }

  /** The query `q` built step by step; `None` when the end of its month throws. */
  method ListSelection(user: string, q: ListQuery, nextMonthStart: Option<string>) returns (sel: Option<Selection>)
    ensures sel.None? <==> ListMonthFails(q, nextMonthStart)
    ensures sel.Some? ==> ListFilters(sel.value, user, q, nextMonthStart)
  {
    var s := OwnerOnly(user);
    if q.kind.Some? {
      s := s.(kind := q.kind);
    }
    if q.category.Some? && Trim(q.category.value) != "" {
      s := s.(categoryPattern := Some(Contains(Trim(q.category.value))));
    }
    if q.month.Some? && q.month.value != "" {
      if nextMonthStart.None? {
        return None;
      }
      s := s.(dateFrom := Some(MonthStart(q.month.value)), dateBefore := nextMonthStart);
    }
    sel := Some(s);
  }

  /** An accepted month always sets the range: the layout is never empty. */
  lemma AcceptedMonthIsSet(q: ListQuery)
    requires ValidListQuery(q) && q.month.Some?
    ensures q.month.value != ""
  {
  }

  /** A request: its HTTP method, the signed-in user, the query string and the JSON body. */
  datatype Request = Request(verb: string, user: Option<string>, query: ListParams, body: CreateBody)

  /** What the storage service replies to the query or the insert. */
  datatype StorageReply = StorageReply(error: Option<string>, count: Option<nat>)

  datatype Outcome =
    | Unauthorized
    | TooManyRequests
    | InvalidQuery(fields: seq<string>)
    | Listed(selection: Selection, from: int, to: int, page: int, limit: int, total: nat, totalPages: int)
    | InvalidBody(fields: seq<string>)
    | Created(user: string, item: NewTransaction)
    | StorageFailed(message: string)
    | MonthEndFailed
    | MethodNotAllowed(allow: string)

  function Status(o: Outcome): nat {
    match o
    case Unauthorized => 401
    case TooManyRequests => 429
    case InvalidQuery(_) => 400
    case Listed(_, _, _, _, _, _, _) => 200
    case InvalidBody(_) => 400
    case Created(_, _) => 201
    case StorageFailed(_) => 500
    case MonthEndFailed => 500
    case MethodNotAllowed(_) => 405
  }

  /**
   * The handler.  `rateOk` is the verdict of the rate limiter for this user
   * and method, `nextMonthStart` the end of the month range (see
   * `MonthEndFails`), and `reply` what the storage service answers.
   */
  method Handle(req: Request, rateOk: bool, nextMonthStart: Option<string>, reply: StorageReply) returns (o: Outcome)
    ensures o == Unauthorized <==> !SignedIn(req.user)
    ensures o == TooManyRequests <==> SignedIn(req.user) && !rateOk
    ensures o.MethodNotAllowed? <==> SignedIn(req.user) && rateOk && req.verb != "GET" && req.verb != "POST"
    ensures o.MethodNotAllowed? ==> o.allow == "GET, POST"
    ensures o.InvalidQuery? <==> SignedIn(req.user) && rateOk && req.verb == "GET" && ParseList(req.query).Failure?
    ensures o.InvalidQuery? ==> o.fields == ParseList(req.query).error
    ensures o.InvalidBody? <==> SignedIn(req.user) && rateOk && req.verb == "POST" && ParseCreate(req.body).Failure?
    ensures o.InvalidBody? ==> o.fields == ParseCreate(req.body).error
    ensures o == MonthEndFailed <==>
              (&& SignedIn(req.user) && rateOk && req.verb == "GET" && ParseList(req.query).Success?
               && ListMonthFails(ParseList(req.query).value, nextMonthStart))
    ensures o.StorageFailed? <==>
              (&& SignedIn(req.user) && rateOk && reply.error.Some?
               && ((req.verb == "GET" && ParseList(req.query).Success?
                    && !ListMonthFails(ParseList(req.query).value, nextMonthStart))
                   || (req.verb == "POST" && ParseCreate(req.body).Success?)))
    ensures o.StorageFailed? ==> o.message == reply.error.value
    ensures o.Listed? <==>
              (&& SignedIn(req.user) && rateOk && req.verb == "GET" && ParseList(req.query).Success?
               && !ListMonthFails(ParseList(req.query).value, nextMonthStart) && reply.error.None?)
    ensures o.Listed? ==>
              (&& var q := ParseList(req.query).value;
                  ListFilters(o.selection, req.user.value, q, nextMonthStart)
                  && o.page == q.page && o.limit == q.limit
                  && o.from == From(q.page, q.limit) && o.to == To(q.page, q.limit)
                  && o.total == reply.count.GetOr(0) && o.totalPages == TotalPages(o.total, q.limit))
    ensures o.Created? <==> SignedIn(req.user) && rateOk && req.verb == "POST" && ParseCreate(req.body).Success? && reply.error.None?
    ensures o.Created? ==> o == Created(req.user.value, ParseCreate(req.body).value)
  {
    if !SignedIn(req.user) {
      return Unauthorized;
    }
    if !rateOk {
      return TooManyRequests;
    }
    if req.verb == "GET" {
      var parsed := ParseList(req.query);
      if parsed.Failure? {
        return InvalidQuery(parsed.error);
      }
      var q := parsed.value;
      ListAccepted(req.query);
      var from := From(q.page, q.limit);
      var to := from + q.limit - 1;
      var sel := ListSelection(req.user.value, q, nextMonthStart);
      if sel.None? {
        return MonthEndFailed;
      }
      if reply.error.Some? {
        return StorageFailed(reply.error.value);
      }
      var total := reply.count.GetOr(0);
      return Listed(sel.value, from, to, q.page, q.limit, total, TotalPages(total, q.limit));
    }
    if req.verb == "POST" {
      var parsed := ParseCreate(req.body);
      if parsed.Failure? {
        return InvalidBody(parsed.error);
      }
      if reply.error.Some? {
        return StorageFailed(reply.error.value);
      }
      return Created(req.user.value, parsed.value);
    }
    return MethodNotAllowed("GET, POST");
  }
}

/**
 * The storage queries the endpoints build: which rows a chain of
 * `.eq`/`.ilike`/`.gte`/`.lt` filters selects.  The storage service itself
 * is not part of this model: what a query returns reaches the endpoints as
 * a parameter.
 */
module StorageQuery {
  import opened Wrappers

  /**
   * The filters chained onto a transactions query: the owner (`.eq`
   * on `user_id`), the type (`.eq`), a category pattern (`.ilike`) and the
   * bounds of a date range (`.gte` and `.lt`); `None` is a filter not
   * chained.
   */
  datatype Selection = Selection(owner: string, kind: Option<string>, categoryPattern: Option<string>,
                                 dateFrom: Option<string>, dateBefore: Option<string>)

  /** `userId` is truthy: a user is signed in with a non-empty id. */
  predicate SignedIn(user: Option<string>) {
    user.Some? && user.value != ""
  }

  /** The query before any optional filter: every row of the owner. */
  function OwnerOnly(user: string): (s: Selection)
    ensures s.owner == user
  {
    Selection(user, None, None, None, None)
  }

  /** `%text%`: the case-insensitive substring pattern of a category filter. */
  function Contains(text: string): (p: string)
    ensures |p| == |text| + 2 && p[0] == '%' && p[|p| - 1] == '%' && p[1..|p| - 1] == text
  {
    "%" + text + "%"
  }

  /** `${month}-01`: the first day of a `YYYY-MM` month. */
  function MonthStart(month: string): (d: string)
    ensures |d| == |month| + 3 && d[..|month|] == month && d[|month|..] == "-01"
  {
    month + "-01"
  }

  /**
   * The end of a month range is the first day of the following month, as
   * `new Date(`${month}-01T00:00:00`)`, `setMonth` and
   * `toISOString().slice(0, 10)` give it; it depends on the clock's time
   * zone, so it reaches the model as a parameter, `None` standing for an
   * Invalid Date, on which `toISOString` throws a RangeError.  A handler
   * given a non-empty month then fails before any query runs.
   */
  predicate MonthEndFails(month: string, nextMonthStart: Option<string>) {
    month != "" && nextMonthStart.None?
  }
}

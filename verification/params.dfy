/** The list parameters shared by every list call (`ListParams`): their
    defaults, the range check a caller may run before a call, and their
    rendering as query parameters. */
module Params {
  import opened Wrappers
  import opened Text
  import UrlValues

  /** `ListParams`; a nil `Filter` is the empty map (ranging over it does nothing). */
  datatype ListParams = ListParams(
    pageIndex: int,
    limit: int,
    order: string,
    orderBy: string,
    filter: map<string, string>)

  /** The sort orders `Validate` accepts: upper or lower case, never mixed. */
  const SortOrders: set<string> := {"ASC", "DESC", "asc", "desc"}

  /** The constraints `Validate` enforces, stated as ranges and set membership. */
  predicate InRange(p: ListParams) {
    p.pageIndex >= 0 && 1 <= p.limit <= 100 && p.order in SortOrders
  }

  /** `DefaultListParams`: the first page of ten, newest first, no filter;
      the defaults pass `Validate`. */
  function DefaultListParams(): (p: ListParams)
    ensures p.pageIndex == 0 && p.limit == 10 && p.order == "DESC" && p.orderBy == "createdAt"
    ensures p.filter == map[]
    ensures Validate(p) == Pass
  {
    ListParams(0, 10, "DESC", "createdAt", map[])
  }

  /** The three errors `Validate` reports, each with the offending value. */
  datatype ParamError =
    | NegativePageIndex(pageIndex: int)
    | LimitOutOfRange(limit: int)
    | UnknownOrder(order: string)
  {
    function Message(): string {
      match this
      case NegativePageIndex(n) => "pageIndex must be >= 0, got " + Decimal(n)
      case LimitOutOfRange(n) => "limit must be between 1 and 100, got " + Decimal(n)
      case UnknownOrder(o) => "order must be ASC or DESC, got " + o
    }
  }

  /** `ListParams.Validate`: passes exactly when the parameters are in range;
      otherwise reports the first violation, checking the page index, then the
      limit, then the order. */
  function Validate(p: ListParams): (r: Outcome<ParamError>)
    ensures r == Pass <==> InRange(p)
    ensures p.pageIndex < 0 ==> r == Fail(NegativePageIndex(p.pageIndex))
    ensures p.pageIndex >= 0 && !(1 <= p.limit <= 100) ==> r == Fail(LimitOutOfRange(p.limit))
    ensures p.pageIndex >= 0 && 1 <= p.limit <= 100 && p.order !in SortOrders ==> r == Fail(UnknownOrder(p.order))
  {
    if p.pageIndex < 0 then
      Fail(NegativePageIndex(p.pageIndex))
    else if p.limit <= 0 || p.limit > 100 then
      Fail(LimitOutOfRange(p.limit))
    else if p.order != "ASC" && p.order != "DESC" && p.order != "asc" && p.order != "desc" then
      Fail(UnknownOrder(p.order))
    else
      Pass
  }

  /** `Validate` never looks at the sort field or the filter: the allow-list
      declared in the `orderBy` struct tag is not enforced by it. */
  lemma ValidateIgnoresOrderByAndFilter(p: ListParams, orderBy: string, filter: map<string, string>)
    ensures Validate(p.(orderBy := orderBy, filter := filter)) == Validate(p)
  {
  }

  /** A mixed-case spelling of a sort order is rejected, reported verbatim. */
  lemma MixedCaseOrderRejected(p: ListParams)
    requires p.pageIndex >= 0 && 1 <= p.limit <= 100
    ensures Validate(p.(order := "Asc")) == Fail(UnknownOrder("Asc"))
    ensures Validate(p.(order := "Desc")) == Fail(UnknownOrder("Desc"))
  {
  }

  /** The message of a range error carries the offending number, which reads
      back from the text after the fixed wording. */
  lemma MessageCarriesValue(e: ParamError)
    ensures e.NegativePageIndex? ==>
      var prefix := "pageIndex must be >= 0, got ";
      prefix <= e.Message() && ParseDecimal(e.Message()[|prefix|..]) == Some(e.pageIndex)
    ensures e.LimitOutOfRange? ==>
      var prefix := "limit must be between 1 and 100, got ";
      prefix <= e.Message() && ParseDecimal(e.Message()[|prefix|..]) == Some(e.limit)
  {
    match e
    case NegativePageIndex(n) =>
      DecimalRoundTrip(n);
      assert e.Message()[|"pageIndex must be >= 0, got "|..] == Decimal(n);
    case LimitOutOfRange(n) =>
      DecimalRoundTrip(n);
      assert e.Message()[|"limit must be between 1 and 100, got "|..] == Decimal(n);
    case UnknownOrder(_) =>
  }

  /** The names of the four parameters every list call sends. */
  const FixedKeys: set<string> := {"pageIndex", "limit", "order", "orderBy"}

  /** The four fixed parameters alone: the page index and limit in decimal,
      the order and sort field verbatim. */
  function FixedQuery(p: ListParams): UrlValues.Values {
    map["pageIndex" := [Decimal(p.pageIndex)], "limit" := [Decimal(p.limit)],
        "order" := [p.order], "orderBy" := [p.orderBy]]
  }

  /** The filter entries whose names are in `keys`, one value each. */
  function FilterQuery(filter: map<string, string>, keys: set<string>): UrlValues.Values
    requires keys <= filter.Keys
  {
    map k | k in keys :: [filter[k]]
  }

  /** The query `ToQuery` builds: the fixed parameters, with the whole filter
      laid over them (map union keeps the right-hand value on a shared key). */
  function QueryOf(p: ListParams): UrlValues.Values {
    FixedQuery(p) + FilterQuery(p.filter, p.filter.Keys)
  }

  /** `ListParams.ToQuery`: sets the four fixed parameters, then every filter
      entry, in whatever order the map is ranged over. Whatever that order,
      the result is `QueryOf(p)`. */
  method ToQuery(p: ListParams) returns (q: UrlValues.Values)
    ensures q == QueryOf(p)
  {
    q := map[];
    q := UrlValues.Set(q, "pageIndex", Decimal(p.pageIndex));
    q := UrlValues.Set(q, "limit", Decimal(p.limit));
    q := UrlValues.Set(q, "order", p.order);
    q := UrlValues.Set(q, "orderBy", p.orderBy);
    assert q == FixedQuery(p) + FilterQuery(p.filter, {});
    var pending := p.filter.Keys;
    while pending != {}
      invariant pending <= p.filter.Keys
      invariant q == FixedQuery(p) + FilterQuery(p.filter, p.filter.Keys - pending)
      decreases pending
    {
      var key :| key in pending;
      SetOneFilterEntry(p, p.filter.Keys - pending, key);
      q := UrlValues.Set(q, key, p.filter[key]);
      assert p.filter.Keys - (pending - {key}) == (p.filter.Keys - pending) + {key};
      pending := pending - {key};
    }
  }

  /** One step of the filter loop: setting one more entry extends the set of
      filter entries laid over the fixed parameters. */
  lemma SetOneFilterEntry(p: ListParams, done: set<string>, key: string)
    requires done <= p.filter.Keys && key in p.filter
    ensures UrlValues.Set(FixedQuery(p) + FilterQuery(p.filter, done), key, p.filter[key])
         == FixedQuery(p) + FilterQuery(p.filter, done + {key})
  {
  }

  /** The query names exactly the fixed parameters and the filter entries,
      and each name holds a single value. */
  lemma QueryKeys(p: ListParams)
    ensures QueryOf(p).Keys == FixedKeys + p.filter.Keys
    ensures forall k :: k in QueryOf(p) ==> |QueryOf(p)[k]| == 1
  {
  }

  /** Every filter entry appears with its own value, even over a fixed name. */
  lemma FilterEntriesWin(p: ListParams, k: string)
    requires k in p.filter
    ensures QueryOf(p)[k] == [p.filter[k]]
  {
  }

  /** A fixed parameter that the filter does not name keeps its rendering,
      and the page index and limit read back as the integers they were. */
  lemma FixedValuesUnlessOverridden(p: ListParams)
    ensures "pageIndex" !in p.filter ==> ParseDecimal(UrlValues.Get(QueryOf(p), "pageIndex")) == Some(p.pageIndex)
    ensures "limit" !in p.filter ==> ParseDecimal(UrlValues.Get(QueryOf(p), "limit")) == Some(p.limit)
    ensures "order" !in p.filter ==> UrlValues.Get(QueryOf(p), "order") == p.order
    ensures "orderBy" !in p.filter ==> UrlValues.Get(QueryOf(p), "orderBy") == p.orderBy
  {
    DecimalRoundTrip(p.pageIndex);
    DecimalRoundTrip(p.limit);
  }
}

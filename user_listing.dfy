/** getAllUsers (backend/user/datasource.js): turning the `filters` argument into
    document-store conditions, the sort and skip/limit it asks for, and the page
    information it reports. The store's evaluation of the conditions is not modelled:
    the documents it returns, in sort order, are a parameter. */
module UserListing {
  import opened Common
  import opened UserRecords

  /** A value of the `filters` object, as JSON gives it. */
  datatype FilterValue =
    | Undefined
    | Null
    | Str(s: string)
    | List(items: seq<string>)
    | Num(n: int)
    | Bool(b: bool)

  /** How far back a `dateRange` reaches from now. */
  datatype DateSpan = Days(days: nat) | Months(months: nat) | Years(years: nat)

  /** One entry of the condition object handed to `find` and `countDocuments`. */
  datatype Condition =
    | In(values: seq<string>)              // { $in: [...] }
    | ObjectIdIn(ids: seq<string>)         // { $in: ids.map(ObjectId) }
    | Equals(value: FilterValue)           // the value itself
    | Regex(pattern: string, flags: string) // { $regex: new RegExp(pattern, flags) }
    | CreatedWithin(span: DateSpan, now: int) // { $gte: now - span, $lte: now }

  /** The keys a string filter has to match exactly rather than as a pattern. */
  const ExactMatchFields: seq<string> := ["status", "role", "isFeatured", "job_counts", "experience"]

  /** `filters[key]`: the value under `key`, undefined when the key is missing. */
  function Lookup(filters: seq<(string, FilterValue)>, key: string): (v: FilterValue)
    ensures v != Undefined ==> exists i :: 0 <= i < |filters| && filters[i] == (key, v)
    ensures (forall i :: 0 <= i < |filters| ==> filters[i].0 != key) ==> v == Undefined
  {
    if filters == [] then Undefined
    else if filters[0].0 == key then filters[0].1
    else
      var v := Lookup(filters[1..], key);
      assert v != Undefined ==> exists i :: 0 <= i < |filters| && filters[i] == (key, v) by {
        if v != Undefined {
          var i :| 0 <= i < |filters[1..]| && filters[1..][i] == (key, v);
          assert filters[i + 1] == (key, v);
        }
      }
      v
  }

  /** An object's keys are distinct. */
  predicate UniqueKeys(filters: seq<(string, FilterValue)>) {
    forall i, j :: 0 <= i < j < |filters| ==> filters[i].0 != filters[j].0
  }

  /** The span a `dateRange` value names; any other value (including a falsy one) adds no condition. */
  function SpanOf(v: FilterValue): (span: Option<DateSpan>)
    ensures span.Some? ==> v.Str?
  {
    match v
    case Str("last_day") => Some(Days(1))
    case Str("last_week") => Some(Days(7))
    case Str("last_month") => Some(Months(1))
    case Str("last_3_months") => Some(Months(3))
    case Str("last_6_months") => Some(Months(6))
    case Str("last_year") => Some(Years(1))
    case _ => None
  }

  /** The condition the loop body gives one key of `filters`; None when the key is skipped. */
  function Classify(key: string, v: FilterValue): (c: Option<Condition>)
    ensures c.None? <==> v.Undefined? || v.Null? || key == "dateRange"
    ensures c.Some? && c.value.Regex? ==> v.Str? && key !in ExactMatchFields && c.value.flags == "i"
    ensures c.Some? && v.List? ==> c.value == (if key == "skills" then ObjectIdIn(v.items) else In(v.items))
    ensures c.Some? && v.Str? && key in ExactMatchFields ==> c.value == Equals(v)
    ensures v.Str? && key != "dateRange" && key !in ExactMatchFields ==> c == Some(Regex(v.s, "i"))
    ensures (v.Num? || v.Bool?) && key != "dateRange" ==> c == Some(Equals(v))
    ensures c.Some? ==> !c.value.CreatedWithin?
  {
    if v.Undefined? || v.Null? || key == "dateRange" then None
    else match v
      case List(items) => if key == "skills" then Some(ObjectIdIn(items)) else Some(In(items))
      case Str(s) => if key in ExactMatchFields then Some(Equals(v)) else Some(Regex(s, "i"))
      case _ => Some(Equals(v))
  }

  /** The `created_at` condition a recognised `dateRange` sets before the loop runs. */
  function DateCondition(filters: seq<(string, FilterValue)>, now: int): (c: Option<Condition>)
    ensures c.Some? ==> c.value.CreatedWithin? && c.value.now == now
    ensures c.Some? <==> SpanOf(Lookup(filters, "dateRange")).Some?
  {
    match SpanOf(Lookup(filters, "dateRange"))
    case None => None
    case Some(span) => Some(CreatedWithin(span, now))
  }

  /** Some key of `filters` sets condition `k`. */
  ghost predicate SetByFilter(filters: seq<(string, FilterValue)>, k: string) {
    exists i :: 0 <= i < |filters| && filters[i].0 == k && Classify(filters[i].0, filters[i].1).Some?
  }

  /** Extending a prefix of `filters` by one entry keeps every key it set and adds the
      entry's own key when that entry sets a condition. */
  lemma SetByFilterGrows(filters: seq<(string, FilterValue)>, i: int)
    requires 0 <= i < |filters|
    ensures forall k :: SetByFilter(filters[..i], k) ==> SetByFilter(filters[..i + 1], k)
    ensures Classify(filters[i].0, filters[i].1).Some? ==> SetByFilter(filters[..i + 1], filters[i].0)
  {
    forall k | SetByFilter(filters[..i], k) ensures SetByFilter(filters[..i + 1], k) {
      var j :| 0 <= j < i && filters[..i][j].0 == k && Classify(filters[..i][j].0, filters[..i][j].1).Some?;
      assert filters[..i + 1][j] == filters[..i][j];
    }
    assert filters[..i + 1][i] == filters[i];
  }

  /** The error building an entry's condition throws: `new RegExp(pattern, "i")` fails
      with `regexError(pattern)` on a pattern it cannot compile; no other condition throws. */
  function BuildError(key: string, v: FilterValue, regexError: string -> Option<string>): (e: Option<string>)
    ensures e.Some? ==> v.Str? && Classify(key, v) == Some(Regex(v.s, "i")) && e == regexError(v.s)
    ensures Classify(key, v).Some? && Classify(key, v).value.Regex? ==> e == regexError(Classify(key, v).value.pattern)
  {
    match Classify(key, v)
    case Some(Regex(p, _)) => regexError(p)
    case _ => None
  }

  /** Every pattern among `filters` compiles. */
  ghost predicate PatternsCompile(filters: seq<(string, FilterValue)>, regexError: string -> Option<string>) {
    forall i :: 0 <= i < |filters| ==> BuildError(filters[i].0, filters[i].1, regexError).None?
  }

  /** Entry `i` is the first, in key order, whose pattern fails, and it fails with `e`. */
  ghost predicate FirstFailure(filters: seq<(string, FilterValue)>, regexError: string -> Option<string>, i: int, e: string) {
    0 <= i < |filters| && BuildError(filters[i].0, filters[i].1, regexError) == Some(e) &&
    PatternsCompile(filters[..i], regexError)
  }

  lemma PatternsCompileGrows(filters: seq<(string, FilterValue)>, regexError: string -> Option<string>, i: int)
    requires 0 <= i < |filters| && PatternsCompile(filters[..i], regexError)
    requires BuildError(filters[i].0, filters[i].1, regexError).None?
    ensures PatternsCompile(filters[..i + 1], regexError)
  {
    var prefix := filters[..i + 1];
    forall j | 0 <= j < |prefix| ensures BuildError(prefix[j].0, prefix[j].1, regexError).None? {
      if j < i {
        assert prefix[j] == filters[..i][j];
      }
    }
  }

  /** A `first_name` filter of "(" is compiled as a pattern, so when that pattern does
      not compile, getAllUsers fails with its error. */
  lemma UnterminatedGroupFails(regexError: string -> Option<string>, m: string)
    requires regexError("(") == Some(m)
    ensures !PatternsCompile([("first_name", Str("("))], regexError)
    ensures FirstFailure([("first_name", Str("("))], regexError, 0, m)
  {
    var filters := [("first_name", Str("("))];
    assert "first_name" !in ExactMatchFields;
    assert BuildError(filters[0].0, filters[0].1, regexError) == Some(m);
    assert filters[..0] == [];
  }

  /** The condition object of getAllUsers. Every key with a defined value other than
      `dateRange` gets the condition Classify gives it; a recognised `dateRange` sets
      `created_at` unless a `created_at` filter overrides it; nothing else is set. The
      first entry, in key order, whose pattern does not compile aborts the whole call
      with the RegExp error. `regexError(p)` is that error, None when `p` compiles. */
  method BuildFilter(filters: seq<(string, FilterValue)>, now: int, regexError: string -> Option<string>)
    returns (r: Result<map<string, Condition>>)
    requires UniqueKeys(filters)
    ensures r.Failure? <==> !PatternsCompile(filters, regexError)
    ensures r.Failure? ==> exists i :: FirstFailure(filters, regexError, i, r.error)
    ensures r.Success? ==>
              forall i :: 0 <= i < |filters| && Classify(filters[i].0, filters[i].1).Some? ==>
                filters[i].0 in r.value && r.value[filters[i].0] == Classify(filters[i].0, filters[i].1).value
    ensures r.Success? ==>
              forall k :: k in r.value ==> SetByFilter(filters, k) || (k == "created_at" && DateCondition(filters, now).Some?)
    ensures r.Success? && !SetByFilter(filters, "created_at") && DateCondition(filters, now).Some? ==>
              "created_at" in r.value && r.value["created_at"] == DateCondition(filters, now).value
    ensures r.Success? ==> "dateRange" !in r.value
  {
    var conds := map[];
    var range := DateCondition(filters, now);
    if range.Some? {
      conds := conds["created_at" := range.value];
    }
    var i := 0;
    while i < |filters|
      invariant 0 <= i <= |filters|
      invariant PatternsCompile(filters[..i], regexError)
      invariant forall j :: 0 <= j < i && Classify(filters[j].0, filters[j].1).Some? ==>
                  filters[j].0 in conds && conds[filters[j].0] == Classify(filters[j].0, filters[j].1).value
      invariant forall k :: k in conds ==> SetByFilter(filters[..i], k) || (k == "created_at" && range.Some?)
      invariant !SetByFilter(filters[..i], "created_at") && range.Some? ==>
                  "created_at" in conds && conds["created_at"] == range.value
      invariant "dateRange" !in conds
    {
      var (key, value) := filters[i];
      var e := BuildError(key, value, regexError);
      if e.Some? {
        assert FirstFailure(filters, regexError, i, e.value);
        return Failure(e.value);
      }
      PatternsCompileGrows(filters, regexError, i);
      var c := Classify(key, value);
      if c.Some? {
        conds := conds[key := c.value];
      }
      SetByFilterGrows(filters, i);
      i := i + 1;
    }
    assert filters[..i] == filters;
    r := Success(conds);
  }

  // ------------------------------------------------------------ sort and pages

  /** `{ [sortField]: sortOrder === "asc" ? 1 : -1 }`, with the defaults of the destructuring. */
  function SortOption(sortField: Option<string>, sortOrder: Option<string>): (r: (string, int))
    ensures r.0 == sortField.GetOr("created_at")
    ensures r.1 == 1 <==> sortOrder.GetOr("asc") == "asc"
    ensures r.1 == 1 || r.1 == -1
  {
    (sortField.GetOr("created_at"), if sortOrder.GetOr("asc") == "asc" then 1 else -1)
  }

  /** `(page - 1) * (limit || 0)`. */
  function Skip(page: int, limit: Option<int>): (n: int)
    ensures !NumberTruthy(limit) ==> n == 0
    ensures page >= 1 && NumberOrZero(limit) >= 0 ==> n >= 0
  {
    (page - 1) * NumberOrZero(limit)
  }

  /** `Math.ceil(a / b)`. */
  function CeilDiv(a: int, b: int): (r: int)
    requires b != 0
    ensures b > 0 ==> (r - 1) * b < a <= r * b
    ensures b < 0 ==> r * b <= a < (r - 1) * b
  {
    if b > 0 then -((-a) / b) else -(a / (-b))
  }

  /** `limit ? Math.ceil(totalRecords / limit) : 1`. */
  function TotalPages(totalRecords: nat, limit: Option<int>): (pages: int)
    ensures !NumberTruthy(limit) ==> pages == 1
    ensures NumberTruthy(limit) && limit.value > 0 ==>
              (pages - 1) * limit.value < totalRecords <= pages * limit.value
  {
    if NumberTruthy(limit) then CeilDiv(totalRecords, limit.value) else 1
  }

  datatype PageInfo = PageInfo(
    totalRecords: nat,
    totalPages: int,
    currentPage: int,
    hasNextPage: bool,
    hasPreviousPage: bool)

  /** The `pageInfo` of a listing. */
  function PageInfoOf(page: int, limit: Option<int>, totalRecords: nat): (info: PageInfo)
    ensures info.totalRecords == totalRecords && info.currentPage == page
    ensures info.totalPages == TotalPages(totalRecords, limit)
    ensures info.hasNextPage <==> page < info.totalPages
    ensures info.hasPreviousPage <==> page > 1
  {
    var pages := TotalPages(totalRecords, limit);
    PageInfo(totalRecords, pages, page, page < pages, page > 1)
  }

  /** What the store returns for `.skip(skip)` (only when positive) and `.limit(limit)`
      (only when truthy; a negative limit returns at most its magnitude). */
  function Window<T>(records: seq<T>, skip: int, limit: int): (w: seq<T>)
    ensures |w| <= |records|
    ensures limit != 0 ==> |w| <= if limit < 0 then -limit else limit
  {
    var rest := if 0 < skip <= |records| then records[skip..] else if skip > |records| then [] else records;
    var size := if limit < 0 then -limit else limit;
    if limit != 0 && size < |rest| then rest[..size] else rest
  }

  /** With a positive limit, page `p` holds records `(p-1)*limit` up to `p*limit`. */
  lemma WindowIsPage<T>(records: seq<T>, page: int, limit: int)
    requires page >= 1 && limit > 0
    ensures var lo := (page - 1) * limit;
            var hi := page * limit;
            Window(records, Skip(page, Some(limit)), limit) ==
              if lo >= |records| then [] else records[lo..if hi < |records| then hi else |records|]
  {
    var lo := (page - 1) * limit;
    assert page * limit == lo + limit;
    assert lo >= 0 by { assert page - 1 >= 0; }
  }

  /** There is a next page exactly when records remain after this one. */
  lemma HasNextIffMoreRecords(page: int, limit: int, totalRecords: nat)
    requires page >= 1 && limit > 0
    ensures PageInfoOf(page, Some(limit), totalRecords).hasNextPage <==> page * limit < totalRecords
  {
    var pages := TotalPages(totalRecords, Some(limit));
    assert (pages - 1) * limit < totalRecords <= pages * limit;
    if page < pages {
      assert page <= pages - 1;
      MulMono(page, pages - 1, limit);
    } else {
      MulMono(pages, page, limit);
    }
  }

  lemma MulMono(a: int, b: int, c: int)
    requires a <= b && c >= 0
    ensures a * c <= b * c
  {
    assert b * c - a * c == (b - a) * c;
  }

  /** With a positive limit the pages cover every record: the last page is not empty
      and no record lies past it. */
  lemma PagesCoverRecords(limit: int, totalRecords: nat)
    requires limit > 0 && totalRecords > 0
    ensures var pages := TotalPages(totalRecords, Some(limit));
            pages >= 1 && (pages - 1) * limit < totalRecords <= pages * limit
  {
    var pages := TotalPages(totalRecords, Some(limit));
    if pages < 1 {
      MulMono(pages, 0, limit);
    }
  }

  /** The listing getAllUsers returns. */
  datatype Listing = Listing(success: bool, message: string, data: seq<User>, pageInfo: PageInfo)

  /** The arguments of getAllUsers; a missing page is 1, a missing filter object is empty. */
  datatype ListArgs = ListArgs(
    page: Option<int>,
    limit: Option<int>,
    sortField: Option<string>,
    sortOrder: Option<string>,
    filters: seq<(string, FilterValue)>)

  /** The query getAllUsers hands to the store. */
  datatype Query = Query(conditions: map<string, Condition>, sort: (string, int), skip: Option<int>, limit: Option<int>)

  /** A successful getAllUsers: the query sent to the store and the listing returned. */
  datatype Answer = Answer(query: Query, listing: Listing)

  /** getAllUsers: builds the query and reports the requested window of `matching` (the
      documents that satisfy the conditions, in the requested order) with its page
      information; a filter string that is not a valid pattern makes it throw instead,
      before the store is queried. */
  method GetAllUsers(args: ListArgs, matching: seq<User>, now: int, regexError: string -> Option<string>)
    returns (r: Result<Answer>)
    requires UniqueKeys(args.filters)
    ensures r.Failure? <==> !PatternsCompile(args.filters, regexError)
    ensures r.Failure? ==> exists i :: FirstFailure(args.filters, regexError, i, r.error)
    ensures r.Success? ==>
      var page := args.page.GetOr(1);
      var query := r.value.query;
      var listing := r.value.listing;
      && query.sort == SortOption(args.sortField, args.sortOrder)
      && (query.skip.Some? <==> Skip(page, args.limit) > 0)
      && (query.skip.Some? ==> query.skip.value == Skip(page, args.limit))
      && (query.limit.Some? <==> NumberTruthy(args.limit))
      && (query.limit.Some? ==> query.limit == args.limit)
      && listing.success && listing.message == "Users fetched successfully"
      && listing.data == Window(matching, Skip(page, args.limit), NumberOrZero(args.limit))
      && listing.pageInfo == PageInfoOf(page, args.limit, |matching|)
    ensures r.Success? ==>
              forall i :: 0 <= i < |args.filters| && Classify(args.filters[i].0, args.filters[i].1).Some? ==>
                args.filters[i].0 in r.value.query.conditions &&
                r.value.query.conditions[args.filters[i].0] == Classify(args.filters[i].0, args.filters[i].1).value
    ensures r.Success? ==>
              forall k :: k in r.value.query.conditions ==>
                SetByFilter(args.filters, k) || (k == "created_at" && DateCondition(args.filters, now).Some?)
  {
    var page := args.page.GetOr(1);
    var built := BuildFilter(args.filters, now, regexError);
    if built.Failure? {
      return Failure(built.error);
    }
    var skip := Skip(page, args.limit);
    var query := Query(built.value, SortOption(args.sortField, args.sortOrder),
                       if skip > 0 then Some(skip) else None,
                       if NumberTruthy(args.limit) then args.limit else None);
    var data := Window(matching, skip, NumberOrZero(args.limit));
    r := Success(Answer(query, Listing(true, "Users fetched successfully", data, PageInfoOf(page, args.limit, |matching|))));
  }

  /** Page 2 of 25 matching records at 10 per page: 10 records, three pages, and
      pages on both sides. */
  lemma SecondPageOfTwentyFive(records: seq<User>)
    requires |records| == 25
    ensures |Window(records, Skip(2, Some(10)), 10)| == 10
    ensures Window(records, Skip(2, Some(10)), 10) == records[10..20]
    ensures PageInfoOf(2, Some(10), 25) == PageInfo(25, 3, 2, true, true)
  {
    WindowIsPage(records, 2, 10);
  }
}

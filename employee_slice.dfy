/**
 * The employees store: one page of the roster with its paging figures, a
 * loading flag and the dashboard statistics; and the query the fetch sends.
 */
module EmployeeSlice {
  import opened Base
  import opened Text
  import opened Entities

  datatype Stats = Stats(
    totalEmployees: int,
    totalSalary: int,
    averageSalary: int,
    highestPaidEmployee: Option<Employee>)

  const ZeroStats: Stats := Stats(0, 0, 0, None)

  /** The body of a successful page fetch. */
  datatype PagePayload = PagePayload(employees: seq<Employee>, totalPages: int, currentPage: int)

  /** The actions that reach this store; only the first four have a case in the reducer. */
  datatype Action =
    | FetchPending
    | FetchFulfilled(page: PagePayload)
    | FetchRejected
    | StatsFulfilled(stats: Stats)
    | AddFulfilled(added: Employee)
    | UpdateFulfilled(updated: Employee)
    | DeleteFulfilled(deletedId: string)

  class EmployeeState {
    var list: seq<Employee>
    var loading: bool
    var totalPages: int
    var currentPage: int
    var stats: Stats

    /** `initialState`. */
    constructor ()
      ensures list == [] && !loading && totalPages == 0 && currentPage == 1 && stats == ZeroStats
    {
      list := [];
      loading := false;
      totalPages := 0;
      currentPage := 1;
      stats := ZeroStats;
    }

    /** The slice reducer, one action at a time. */
    method Dispatch(action: Action)
      modifies this
      ensures action.FetchPending? ==>
        loading && list == old(list) && totalPages == old(totalPages) &&
        currentPage == old(currentPage) && stats == old(stats)
      ensures action.FetchFulfilled? ==>
        !loading && list == action.page.employees && totalPages == action.page.totalPages &&
        currentPage == action.page.currentPage && stats == old(stats)
      ensures action.FetchRejected? ==>
        !loading && list == old(list) && totalPages == old(totalPages) &&
        currentPage == old(currentPage) && stats == old(stats)
      ensures action.StatsFulfilled? ==>
        stats == action.stats && loading == old(loading) && list == old(list) &&
        totalPages == old(totalPages) && currentPage == old(currentPage)
      ensures action.AddFulfilled? || action.UpdateFulfilled? || action.DeleteFulfilled? ==>
        loading == old(loading) && list == old(list) && totalPages == old(totalPages) &&
        currentPage == old(currentPage) && stats == old(stats)
    {
      match action
      case FetchPending =>
        loading := true;
      case FetchFulfilled(page) =>
        loading := false;
        list := page.employees;
        totalPages := page.totalPages;
        currentPage := page.currentPage;
      case FetchRejected =>
        loading := false;
      case StatsFulfilled(s) =>
        stats := s;
      case _ =>
    }
  }

  /** The arguments of `fetchEmployees`; an absent one takes its default. */
  datatype QueryArgs = QueryArgs(
    page: Option<int>,
    search: Option<string>,
    sort: Option<string>,
    role: Option<string>)

  const NoArgs: QueryArgs := QueryArgs(None, None, None, None)
  const Path: string := "/employees?"

  /** A destructuring default: a given argument is kept, an absent one takes the default. */
  function OrDefault<T>(o: Option<T>, default: T): (v: T)
    ensures o == Some(v) || (o == None && v == default)
  {
    if o.Some? then o.value else default
  }

  /** The query parameters in the order the URL carries them. */
  function QueryParams(args: QueryArgs): (ps: seq<string>)
    ensures |ps| == 5 && ps[1] == "limit=5"
    ensures "page=" <= ps[0] && ParseDecimal(ps[0][5..]) == Some(OrDefault(args.page, 1) as real)
    ensures "search=" <= ps[2] && ps[2][7..] == OrDefault(args.search, "")
    ensures "sort=" <= ps[3] && ps[3][5..] == OrDefault(args.sort, "createdAt_DESC")
    ensures "role=" <= ps[4] && ps[4][5..] == OrDefault(args.role, "")
  {
    DecimalRoundTrip(OrDefault(args.page, 1));
    [ "page=" + IntToString(OrDefault(args.page, 1)),
      "limit=5",
      "search=" + OrDefault(args.search, ""),
      "sort=" + OrDefault(args.sort, "createdAt_DESC"),
      "role=" + OrDefault(args.role, "") ]
  }

  /** The URL `fetchEmployees` requests; the values go in as they are, without encoding. */
  function QueryUrl(args: QueryArgs): (url: string)
    ensures Path <= url
    ensures url == "/employees?page=" + IntToString(OrDefault(args.page, 1)) + "&limit=5&search=" +
      OrDefault(args.search, "") + "&sort=" + OrDefault(args.sort, "createdAt_DESC") + "&role=" +
      OrDefault(args.role, "")
  {
    var ps := QueryParams(args);
    UrlTemplate(IntToString(OrDefault(args.page, 1)), OrDefault(args.search, ""),
      OrDefault(args.sort, "createdAt_DESC"), OrDefault(args.role, ""));
    Path + Join(ps, '&')
  }

  lemma UrlTemplate(page: string, search: string, sort: string, role: string)
    ensures Path + Join(["page=" + page, "limit=5", "search=" + search, "sort=" + sort, "role=" + role], '&') ==
      "/employees?page=" + page + "&limit=5&search=" + search + "&sort=" + sort + "&role=" + role
  {
    var ps := ["page=" + page, "limit=5", "search=" + search, "sort=" + sort, "role=" + role];
    JoinFive(ps, '&');
    assert "/employees?page=" == Path + "page=";
    assert "&limit=5&search=" == ['&'] + "limit=5" + ['&'] + "search=";
    assert "&sort=" == ['&'] + "sort=";
    assert "&role=" == ['&'] + "role=";
    Regroup(Path, "page=", page, ['&'], "limit=5", "search=", search, "sort=", sort, "role=", role);
  }

  /** The regrouping behind UrlTemplate, over opaque pieces so that no literal is unfolded. */
  lemma Regroup(p: string, pg: string, page: string, amp: string, lim: string, sr: string, search: string,
                so: string, sort: string, ro: string, role: string)
    ensures p + ((pg + page) + amp + lim + amp + (sr + search) + amp + (so + sort) + amp + (ro + role)) ==
      (p + pg) + page + (amp + lim + amp + sr) + search + (amp + so) + sort + (amp + ro) + role
  {
  }

  lemma JoinFive(ps: seq<string>, sep: char)
    requires |ps| == 5
    ensures Join(ps, sep) == ps[0] + [sep] + ps[1] + [sep] + ps[2] + [sep] + ps[3] + [sep] + ps[4]
  {
    assert ps[1..][1..] == ps[2..] && ps[2..][1..] == ps[3..] && ps[3..][1..] == ps[4..];
    assert Join(ps[4..], sep) == ps[4];
    assert Join(ps[3..], sep) == ps[3] + [sep] + ps[4];
    assert Join(ps[2..], sep) == ps[2] + [sep] + (ps[3] + [sep] + ps[4]);
    assert Join(ps[1..], sep) == ps[1] + [sep] + (ps[2] + [sep] + (ps[3] + [sep] + ps[4]));
  }

  /** With every argument left out the page is 1, the search and role empty and the sort newest first. */
  lemma DefaultParams()
    ensures QueryParams(NoArgs) == ["page=1", "limit=5", "search=", "sort=createdAt_DESC", "role="]
  {
    var ps := QueryParams(NoArgs);
    assert ps[0] == "page=1" by {
      assert IntToString(1) == "1" by { assert DigitChar(1) == '1'; }
      assert OrDefault(NoArgs.page, 1) == 1;
      assert "page=" + "1" == "page=1";
    }
    assert ps[2] == "search=" by { assert OrDefault(NoArgs.search, "") == ""; }
    assert ps[3] == "sort=createdAt_DESC";
    assert ps[4] == "role=" by { assert OrDefault(NoArgs.role, "") == ""; }
  }

  /** When no value holds an '&', the query splits back into its five parameters, in order. */
  lemma QueryRoundTrip(args: QueryArgs)
    requires '&' !in OrDefault(args.search, "")
    requires '&' !in OrDefault(args.sort, "createdAt_DESC")
    requires '&' !in OrDefault(args.role, "")
    ensures Split(QueryUrl(args)[|Path|..], '&') == QueryParams(args)
  {
    var ps := QueryParams(args);
    PageHasNoAmpersand(args);
    assert forall i :: 1 <= i < 5 ==> '&' !in ps[i] by {
      assert '&' !in "limit=5";
      assert ps[2] == "search=" + OrDefault(args.search, "");
      assert ps[3] == "sort=" + OrDefault(args.sort, "createdAt_DESC");
      assert ps[4] == "role=" + OrDefault(args.role, "");
    }
    assert QueryUrl(args)[|Path|..] == Join(ps, '&');
    SplitJoin(ps, '&');
  }

  lemma PageHasNoAmpersand(args: QueryArgs)
    ensures '&' !in QueryParams(args)[0]
  {
    var page := IntToString(OrDefault(args.page, 1));
    assert '&' !in page by {
      forall k | 0 <= k < |page| ensures page[k] != '&' {
        assert IsDigit(page[k]) || page[k] == '-';
      }
    }
    ConcatAvoids("page=", page, '&');
    assert QueryParams(args)[0] == "page=" + page;
  }

  lemma ConcatAvoids(a: string, b: string, c: char)
    requires c !in a && c !in b
    ensures c !in a + b
  {
    forall i | 0 <= i < |a + b| ensures (a + b)[i] != c {
      if i >= |a| { assert (a + b)[i] == b[i - |a|]; }
    }
  }

  /** Splitting a join gives back its second piece when neither of the first two holds the separator. */
  lemma SecondPiece(ps: seq<string>, sep: char)
    requires |ps| >= 3 && sep !in ps[0] && sep !in ps[1]
    ensures |Split(Join(ps, sep), sep)| >= 2 && Split(Join(ps, sep), sep)[1] == ps[1]
  {
    var joined := Join(ps, sep);
    var rest := Join(ps[2..], sep);
    assert ps[1..][1..] == ps[2..];
    assert Join(ps[1..], sep) == ps[1] + [sep] + rest;
    assert joined == ps[0] + [sep] + Join(ps[1..], sep);
    assert joined == ps[0] + [sep] + (ps[1] + [sep] + rest);
    FirstSegmentOfJoined(ps[0], sep, ps[1] + [sep] + rest);
    FirstSegmentOfJoined(ps[1], sep, rest);
    assert joined[|ps[0]| + 1..] == ps[1] + [sep] + rest;
  }

  /** Whatever the arguments, the second parameter is `limit=5`. */
  lemma LimitAlwaysFive(args: QueryArgs)
    ensures |Split(QueryUrl(args)[|Path|..], '&')| >= 2
    ensures Split(QueryUrl(args)[|Path|..], '&')[1] == "limit=5"
  {
    var ps := QueryParams(args);
    PageHasNoAmpersand(args);
    SecondPiece(ps, '&');
    assert QueryUrl(args)[|Path|..] == Join(ps, '&');
  }

  /**
   * Values go into the URL without encoding, so an '&' typed into the search
   * box ends the search parameter there and the rest reads as a parameter of
   * its own: the server sees six pieces instead of five.
   */
  lemma AmpersandInSearch(args: QueryArgs, a: string, b: string)
    requires args.search == Some(a + "&" + b) && '&' !in a && '&' !in b
    requires '&' !in OrDefault(args.sort, "createdAt_DESC") && '&' !in OrDefault(args.role, "")
    ensures Split(QueryUrl(args)[|Path|..], '&') ==
      [QueryParams(args)[0], "limit=5", "search=" + a, b, QueryParams(args)[3], QueryParams(args)[4]]
  {
    var ps := QueryParams(args);
    var s := "search=" + a;
    assert ps[2] == s + ['&'] + b by {
      assert "&" == ['&'];
      assert "search=" + (a + "&" + b) == "search=" + a + "&" + b;
    }
    assert '&' !in ps[0] by { PageHasNoAmpersand(args); }
    assert '&' !in s by { ConcatAvoids("search=", a, '&'); }
    assert '&' !in ps[3] by {
      ConcatAvoids("sort=", OrDefault(args.sort, "createdAt_DESC"), '&');
      assert ps[3] == "sort=" + OrDefault(args.sort, "createdAt_DESC");
    }
    assert '&' !in ps[4] by {
      ConcatAvoids("role=", OrDefault(args.role, ""), '&');
      assert ps[4] == "role=" + OrDefault(args.role, "");
    }
    assert ps == [ps[0], ps[1], s + ['&'] + b, ps[3], ps[4]];
    SplitMiddle(ps[0], ps[1], s, b, ps[3], ps[4], '&');
    assert QueryUrl(args)[|Path|..] == Join(ps, '&');
  }

  /** A separator inside the third of five joined pieces splits it in two. */
  lemma SplitMiddle(p0: string, p1: string, s: string, b: string, p3: string, p4: string, sep: char)
    requires sep !in p0 && sep !in p1 && sep !in s && sep !in b && sep !in p3 && sep !in p4
    ensures Split(Join([p0, p1, s + [sep] + b, p3, p4], sep), sep) == [p0, p1, s, b, p3, p4]
  {
    var t3 := p3 + [sep] + p4;
    var t2 := b + [sep] + t3;
    var t1 := s + [sep] + t2;
    var t0 := p1 + [sep] + t1;
    assert Join([p0, p1, s + [sep] + b, p3, p4], sep) == p0 + [sep] + t0 by {
      JoinFive([p0, p1, s + [sep] + b, p3, p4], sep);
      Nest(p0, [sep], p1, s, b, p3, p4);
    }
    assert Split(p4, sep) == [p4] by { FirstSegmentOfJoined(p4, sep, ""); }
    SplitCons(p3, sep, p4);
    SplitCons(b, sep, t3);
    SplitCons(s, sep, t2);
    SplitCons(p1, sep, t1);
    SplitCons(p0, sep, t0);
    Singletons(p0, p1, s, b, p3, p4);
  }

  lemma Singletons<T>(x0: T, x1: T, x2: T, x3: T, x4: T, x5: T)
    ensures [x0] + ([x1] + ([x2] + ([x3] + ([x4] + [x5])))) == [x0, x1, x2, x3, x4, x5]
  {
  }

  /** The nesting SplitMiddle splits along, over opaque pieces. */
  lemma Nest(p0: string, amp: string, l: string, s: string, b: string, p3: string, p4: string)
    ensures p0 + amp + l + amp + (s + amp + b) + amp + p3 + amp + p4 ==
      p0 + amp + (l + amp + (s + amp + (b + amp + (p3 + amp + p4))))
  {
  }
}

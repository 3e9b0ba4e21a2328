/**
 * The listing page of the web client: which page numbers the pagination bar shows
 * and where it puts an ellipsis, when the bar and its arrows are enabled, how the
 * filter controls rewrite the query string, and the request built from it. The query
 * string is a map from parameter names to values (one value per name).
 */
module ProductsPage {
  import opened Common
  import opened Strings

  // ---------------------------------------------------------------- pagination bar

  /** A page number is kept when it is the first, the last, or within 2 of the current page. */
  predicate Kept(n: int, pages: int, page: int)
  {
    n == 1 || n == pages || (n - page <= 2 && page - n <= 2)
  }

  predicate Increasing(s: seq<int>)
  {
    forall i, j :: 0 <= i < j < |s| ==> s[i] < s[j]
  }

  /** The kept numbers among 1..m, in increasing order. */
  function KeptUpTo(m: nat, pages: int, page: int): (r: seq<int>)
    ensures forall i :: 0 <= i < |r| ==> 1 <= r[i] <= m
    ensures Increasing(r)
    ensures forall n :: n in r <==> 1 <= n <= m && Kept(n, pages, page)
  {
    if m == 0 then []
    else
      var prev := KeptUpTo(m - 1, pages, page);
      if Kept(m, pages, page) then prev + [m] else prev
  }

  /** `Array.from({ length: pages }, (_, i) => i + 1).filter(...)`. */
  function KeptPages(pages: nat, page: int): (r: seq<int>)
    ensures Increasing(r)
    ensures forall n :: n in r <==> 1 <= n <= pages && Kept(n, pages, page)
  {
    KeptUpTo(pages, pages, page)
  }

  /** The first page, the last page and the current one (when in range) are always shown. */
  lemma EndsAndCurrentKept(pages: nat, page: int)
    requires pages >= 1
    ensures 1 in KeptPages(pages, page) && pages in KeptPages(pages, page)
    ensures 1 <= page <= pages ==> page in KeptPages(pages, page)
  {
  }

  datatype Entry = PageLink(n: int) | Ellipsis

  /** The `reduce`: each kept number, preceded by an ellipsis when it skips over some numbers. */
  function Entries(kept: seq<int>): seq<Entry>
  {
    if kept == [] then []
    else
      var init := kept[..|kept| - 1];
      var n := kept[|kept| - 1];
      Entries(init) + (if init != [] && n - init[|init| - 1] > 1 then [Ellipsis] else []) + [PageLink(n)]
  }

  /** The page numbers of the entries, dropping the ellipses. */
  function Links(e: seq<Entry>): seq<int>
  {
    if e == [] then []
    else Links(e[..|e| - 1]) + (if e[|e| - 1].PageLink? then [e[|e| - 1].n] else [])
  }

  /** One step of the `reduce` adds exactly the new number to the links. */
  lemma LinksStep(e0: seq<Entry>, mid: seq<Entry>, n: int)
    requires mid == [] || mid == [Ellipsis]
    ensures Links(e0 + mid + [PageLink(n)]) == Links(e0) + [n]
  {
    var e := e0 + mid + [PageLink(n)];
    assert e[..|e| - 1] == e0 + mid;
    assert Links(e) == Links(e0 + mid) + [n];
    if mid != [] {
      assert (e0 + mid)[..|e0 + mid| - 1] == e0;
    } else {
      assert e0 + mid == e0;
    }
    assert Links(e0 + mid) == Links(e0);
  }

  /** Dropping the ellipses gives back exactly the kept numbers, in order. */
  lemma {:induction false} EntriesLinks(kept: seq<int>)
    ensures Links(Entries(kept)) == kept
  {
    if kept != [] {
      var init := kept[..|kept| - 1];
      var n := kept[|kept| - 1];
      var mid: seq<Entry> := if init != [] && n - init[|init| - 1] > 1 then [Ellipsis] else [];
      EntriesLinks(init);
      LinksStep(Entries(init), mid, n);
      assert kept == init + [n];
    }
  }

  /**
   * The bar starts and ends with a page link; an ellipsis sits only between two links
   * whose numbers differ by more than 1; two neighbouring links differ by at most 1.
   */
  lemma {:induction false} EntriesShape(kept: seq<int>)
    ensures var e := Entries(kept);
      && (kept != [] ==> e != [] && e[0] == PageLink(kept[0]) && e[|e| - 1] == PageLink(kept[|kept| - 1]))
      && (forall i :: 0 <= i < |e| && e[i].Ellipsis? ==>
            0 < i < |e| - 1 && e[i - 1].PageLink? && e[i + 1].PageLink? && e[i + 1].n - e[i - 1].n > 1)
      && (forall i :: 0 <= i < |e| - 1 && e[i].PageLink? && e[i + 1].PageLink? ==> e[i + 1].n - e[i].n <= 1)
  {
    if kept != [] {
      var init := kept[..|kept| - 1];
      var n := kept[|kept| - 1];
      EntriesShape(init);
      var e0 := Entries(init);
      var gap := init != [] && n - init[|init| - 1] > 1;
      var mid: seq<Entry> := if gap then [Ellipsis] else [];
      var e := Entries(kept);
      assert e == e0 + mid + [PageLink(n)];
      if init != [] {
        assert kept[0] == init[0];
        assert e[0] == e0[0];
      }
      forall i | 0 <= i < |e| && e[i].Ellipsis?
        ensures 0 < i < |e| - 1 && e[i - 1].PageLink? && e[i + 1].PageLink? && e[i + 1].n - e[i - 1].n > 1
      {
        if i < |e0| {
          assert e[i] == e0[i];
          if i + 1 < |e0| {
            assert e[i + 1] == e0[i + 1];
          }
          assert e[i - 1] == e0[i - 1];
        }
      }
      forall i | 0 <= i < |e| - 1 && e[i].PageLink? && e[i + 1].PageLink?
        ensures e[i + 1].n - e[i].n <= 1
      {
        if i + 1 < |e0| {
          assert e[i] == e0[i] && e[i + 1] == e0[i + 1];
        } else {
          assert e[i] == e0[|e0| - 1];
        }
      }
    }
  }

  /** The loop of the `reduce`, pushing onto an accumulator. */
  method PaginationEntries(kept: seq<int>) returns (acc: seq<Entry>)
    ensures acc == Entries(kept)
  {
    acc := [];
    var i := 0;
    while i < |kept|
      invariant 0 <= i <= |kept|
      invariant acc == Entries(kept[..i])
    {
      var n := kept[i];
      assert kept[..i + 1][..i] == kept[..i];
      if i > 0 && n - kept[i - 1] > 1 {
        acc := acc + [Ellipsis];
      }
      acc := acc + [PageLink(n)];
      i := i + 1;
    }
    assert kept[..i] == kept;
  }

  /** The bar is shown once the products have loaded, there are some, and there is more than one page. */
  predicate ShowPagination(loading: bool, productCount: nat, pages: nat)
  {
    !loading && productCount > 0 && pages > 1
  }

  predicate PrevDisabled(page: int) { page == 1 }

  predicate NextDisabled(page: int, pages: nat) { page == pages }

  /** From a page in range, an enabled arrow leads to a page in range; page 1 has no way back, the last page no way on. */
  lemma ArrowsStayInRange(page: int, pages: nat)
    requires 1 <= page <= pages
    ensures !PrevDisabled(page) <==> page - 1 >= 1
    ensures !NextDisabled(page, pages) <==> page + 1 <= pages
  {
  }

  // ---------------------------------------------------------------- query string

  type Params = map<string, string>

  /** `updateParam`: set the key to a non-empty value or delete it, and always drop `page`. */
  function UpdateParam(params: Params, key: string, value: string): (r: Params)
    ensures "page" !in r
    ensures key != "page" && value != "" ==> key in r && r[key] == value
    ensures value == "" ==> key !in r
    ensures forall k :: k != key && k != "page" ==> (k in r <==> k in params) && (k in r ==> r[k] == params[k])
  {
    var p := if value != "" then params[key := value] else params - {key};
    p - {"page"}
  }

  /** `String(n)` for a whole number. */
  function IntToString(n: int): string
  {
    if n >= 0 then NatToString(n) else "-" + NatToString(-n)
  }

  /** `goPage`: only the `page` key changes. */
  function GoPage(params: Params, n: int): (r: Params)
    ensures "page" in r && r["page"] == IntToString(n)
    ensures forall k :: k != "page" ==> (k in r <==> k in params) && (k in r ==> r[k] == params[k])
  {
    params["page" := IntToString(n)]
  }

  /** How many characters at the front of `s` are digits. */
  function DigitRun(s: string): (n: nat)
    ensures n <= |s| && AllDigits(s[..n])
    ensures n < |s| ==> !IsDigit(s[n])
  {
    if s != [] && IsDigit(s[0]) then
      var n := 1 + DigitRun(s[1..]);
      assert forall i :: 1 <= i < n ==> s[..n][i] == s[1..][..n - 1][i - 1];
      n
    else 0
  }

  lemma {:induction false} DigitRunOfDigits(s: string)
    requires AllDigits(s)
    ensures DigitRun(s) == |s|
  {
    if s != [] {
      DigitRunOfDigits(s[1..]);
    }
  }

  /** The run of digits stops at the first character that is not one. */
  lemma {:induction false} DigitRunStops(d: string, rest: string)
    requires AllDigits(d) && rest != [] && !IsDigit(rest[0])
    ensures DigitRun(d + rest) == |d|
  {
    if d != [] {
      assert (d + rest)[1..] == d[1..] + rest;
      DigitRunStops(d[1..], rest);
    }
  }

  predicate AllZeros(s: string) { forall i :: 0 <= i < |s| ==> s[i] == '0' }

  /**
   * Unsigned decimal text `ddd`, `ddd.`, `ddd.fff` or `.fff` read as `Number` reads it,
   * when its value is a whole number: that is, when every fraction digit is 0.
   */
  function WholeDecimal(t: string): (r: Option<int>)
    ensures r.Some? ==> r.value >= 0
  {
    var n := DigitRun(t);
    if n == |t| then
      (if n > 0 then Some(DigitsValue(t[..n])) else None)
    else if t[n] == '.' && (n > 0 || n + 1 < |t|) && AllZeros(t[n + 1..]) then
      Some(DigitsValue(t[..n]))
    else None
  }

  /** Plain digits are read as their value. */
  lemma WholeDecimalOfDigits(d: string)
    requires AllDigits(d) && d != []
    ensures WholeDecimal(d) == Some(DigitsValue(d))
  {
    DigitRunOfDigits(d);
    assert d[..|d|] == d;
  }

  function Negate(v: Option<int>): Option<int>
  {
    if v.Some? then Some(-v.value) else None
  }

  /**
   * `Number(text)` for decimal text: white space around it is ignored, white space alone
   * reads as 0, and a leading sign is allowed. None stands for a value that is not a
   * whole number: NaN, or a fraction.
   */
  function NumberValue(s: string): Option<int>
  {
    var t := Trim(s);
    if t == [] then Some(0)
    else if t[0] == '-' then Negate(WholeDecimal(t[1..]))
    else if t[0] == '+' then WholeDecimal(t[1..])
    else WholeDecimal(t)
  }

  /** Text with no white space at its ends is read by its first character. */
  lemma NumberOfTrimmed(s: string)
    requires s != [] && !IsSpace(s[0]) && !IsSpace(s[|s| - 1])
    ensures s[0] == '-' ==> NumberValue(s) == Negate(WholeDecimal(s[1..]))
    ensures s[0] == '+' ==> NumberValue(s) == WholeDecimal(s[1..])
    ensures s[0] != '-' && s[0] != '+' ==> NumberValue(s) == WholeDecimal(s)
  {
    TrimUnchanged(s);
  }

  /** `Number(searchParams.get('page') || 1)`: a missing or empty page reads as 1, digits as their value. */
  function CurrentPage(params: Params): (r: Option<int>)
    ensures "page" !in params || params["page"] == "" ==> r == Some(1)
    ensures "page" in params && params["page"] != "" && AllDigits(params["page"]) ==> r == Some(DigitsValue(params["page"]))
  {
    if "page" !in params || params["page"] == "" then Some(1)
    else
      var s := params["page"];
      if AllDigits(s) then
        NumberOfTrimmed(s);
        WholeDecimalOfDigits(s);
        NumberValue(s)
      else NumberValue(s)
  }

  /** White space alone reads as 0. */
  lemma NumberOfSpaces(s: string)
    requires AllSpace(s)
    ensures NumberValue(s) == Some(0)
  {
    TrimEmpty(s);
  }

  /** A leading `-` negates the digits after it. */
  lemma NumberOfNegative(s: string)
    requires |s| >= 2 && s[0] == '-' && AllDigits(s[1..])
    ensures NumberValue(s) == Negate(Some(DigitsValue(s[1..])))
  {
    assert s[|s| - 1] == s[1..][|s| - 2];
    NumberOfTrimmed(s);
    WholeDecimalOfDigits(s[1..]);
  }

  /** A leading `+` leaves the digits after it as they are. */
  lemma NumberOfPositive(s: string)
    requires |s| >= 2 && s[0] == '+' && AllDigits(s[1..])
    ensures NumberValue(s) == Some(DigitsValue(s[1..]))
  {
    assert s[|s| - 1] == s[1..][|s| - 2];
    NumberOfTrimmed(s);
    WholeDecimalOfDigits(s[1..]);
  }

  /** The digits before the point are read, and the point ends the run. */
  lemma WholeDecimalPoint(d: string, f: string)
    requires AllDigits(d) && AllDigits(f) && (d != [] || f != [])
    ensures WholeDecimal(d + "." + f) == if AllZeros(f) then Some(DigitsValue(d)) else None
  {
    var t := d + "." + f;
    assert t == d + ("." + f);
    DigitRunStops(d, "." + f);
    assert t[..|d|] == d && t[|d|] == '.' && t[|d| + 1..] == f;
  }

  /** `d.f` is a whole number, namely `d`, exactly when every digit of `f` is 0. */
  lemma NumberOfFraction(d: string, f: string)
    requires AllDigits(d) && AllDigits(f) && (d != [] || f != [])
    ensures NumberValue(d + "." + f) == if AllZeros(f) then Some(DigitsValue(d)) else None
  {
    var t := d + "." + f;
    assert t[0] == if d != [] then d[0] else '.';
    assert t[|t| - 1] == if f != [] then f[|f| - 1] else '.';
    NumberOfTrimmed(t);
    WholeDecimalPoint(d, f);
  }

  /** Text that starts with neither a digit, a sign nor a point reads as NaN. */
  lemma NumberOfText(s: string)
    requires s != [] && !IsSpace(s[0]) && !IsSpace(s[|s| - 1])
    requires !IsDigit(s[0]) && s[0] != '-' && s[0] != '+' && s[0] != '.'
    ensures NumberValue(s) == None
  {
    NumberOfTrimmed(s);
  }

  /** The text `String(n)` writes for a whole number reads back as n. */
  lemma NumberOfIntToString(n: int)
    ensures NumberValue(IntToString(n)) == Some(n)
  {
    var d := NatToString(if n < 0 then -n else n);
    NatToStringValue(if n < 0 then -n else n);
    if n < 0 {
      assert IntToString(n)[1..] == d;
      NumberOfNegative(IntToString(n));
    } else {
      NumberOfTrimmed(d);
      WholeDecimalOfDigits(d);
    }
  }

  /** After a filter change the page reads as 1; after `goPage(n)` it reads as n. */
  lemma PageAfterNavigation(params: Params, key: string, value: string, n: int)
    ensures CurrentPage(UpdateParam(params, key, value)) == Some(1)
    ensures CurrentPage(GoPage(params, n)) == Some(n)
  {
    NumberOfIntToString(n);
  }

  /** The request parameters of the listing; None marks a filter that is not sent. */
  datatype FetchParams = FetchParams(
    sort: string,
    page: Option<int>,
    limit: nat,
    search: Option<string>,
    category: Option<string>,
    isFeatured: Option<string>,
    minPrice: Option<string>,
    maxPrice: Option<string>)

  function Get(params: Params, key: string): string
  {
    if key in params then params[key] else ""
  }

  function Optional(value: string): (r: Option<string>)
    ensures r.Some? <==> value != ""
    ensures r.Some? ==> r.value == value
  {
    if value != "" then Some(value) else None
  }

  /** `fetchProducts`: sort (default newest), page and limit 20 always, each filter only when set. */
  function BuildFetchParams(params: Params, search: string): (f: FetchParams)
    ensures f.limit == 20
    ensures f.sort == if Get(params, "sort") != "" then Get(params, "sort") else "-createdAt"
    ensures f.page == CurrentPage(params)
    ensures f.search.Some? <==> search != ""
    ensures f.search.Some? ==> f.search.value == search
    ensures f.category.Some? <==> Get(params, "category") != ""
    ensures f.category.Some? ==> f.category.value == Get(params, "category")
    ensures f.isFeatured.Some? <==> Get(params, "isFeatured") != ""
    ensures f.isFeatured.Some? ==> f.isFeatured.value == Get(params, "isFeatured")
    ensures f.minPrice.Some? <==> Get(params, "minPrice") != ""
    ensures f.minPrice.Some? ==> f.minPrice.value == Get(params, "minPrice")
    ensures f.maxPrice.Some? <==> Get(params, "maxPrice") != ""
    ensures f.maxPrice.Some? ==> f.maxPrice.value == Get(params, "maxPrice")
  {
    FetchParams(
      if Get(params, "sort") != "" then Get(params, "sort") else "-createdAt",
      CurrentPage(params),
      20,
      Optional(search),
      Optional(Get(params, "category")),
      Optional(Get(params, "isFeatured")),
      Optional(Get(params, "minPrice")),
      Optional(Get(params, "maxPrice")))
  }

  /** Clearing a filter through `updateParam` stops it being sent, and resets the page to 1. */
  lemma ClearedFilterNotSent(params: Params, search: string)
    ensures BuildFetchParams(UpdateParam(params, "category", ""), search).category.None?
    ensures BuildFetchParams(UpdateParam(params, "category", ""), search).page == Some(1)
  {
    PageAfterNavigation(params, "category", "", 0);
  }
}

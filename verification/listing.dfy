/** The list-shaping steps every public read endpoint performs: read `limit`
    and `offset` from the query string, decide which filters apply, count the
    filtered records, and cut out the requested window with `Array.prototype.slice`. */
module Listing {
  import opened Js
  import opened NumberParsing
  import Seqs

  const DefaultLimit: int := 50
  const MaxLimit: int := 100

  /** The query parameters the list endpoints read. `None` is a parameter
      missing from the URL (`searchParams.get` returns `null`). */
  datatype Query = Query(
    limit: Option<string>,
    offset: Option<string>,
    category: Option<string>,
    featured: Option<string>,
    inStock: Option<string>)

  /** `meta` of a list response. A NaN `limit` or `offset` is serialised as `null` (`None`). */
  datatype Meta = Meta(total: nat, limit: Option<int>, offset: Option<int>)

  /** The JSON body `{success, data, meta}` of a successful list request. */
  datatype ListResponse<T> = ListResponse(success: bool, data: seq<T>, meta: Meta)

  function Min(a: int, b: int): int { if a <= b then a else b }
  function Max(a: int, b: int): int { if a >= b then a else b }

  /** `searchParams.get(name) || fallback`: a missing or empty parameter takes the fallback. */
  function ParamOr(raw: Option<string>, fallback: string): (r: string)
    ensures raw.None? || raw == Some("") ==> r == fallback
    ensures raw.Some? && raw.value != "" ==> r == raw.value
  {
    if raw.Some? && raw.value != "" then raw.value else fallback
  }

  /** `Math.min(parseInt(get('limit') || '50', 10), 100)`; NaN stays NaN. A missing or
      empty parameter reads the fallback text, which `ParseLimitReadsFallback` shows is 50. */
  function ParseLimit(raw: Option<string>): (r: Option<int>)
    ensures r.Some? ==> r.value <= MaxLimit
    ensures raw.None? || raw == Some("") ==> r == Some(DefaultLimit)
    ensures raw.Some? && raw.value != "" ==> (r.None? <==> ParseInt(raw.value).None?)
    ensures raw.Some? && raw.value != "" && r.Some? ==> r.value == Min(ParseInt(raw.value).value, MaxLimit)
  {
    if raw.None? || raw.value == "" then Some(DefaultLimit)
    else
      match ParseInt(raw.value)
      case None => None
      case Some(n) => Some(Min(n, MaxLimit))
  }

  /** `Math.max(parseInt(get('offset') || '0', 10), 0)`; NaN stays NaN. A missing or
      empty parameter reads the fallback text, which `ParseOffsetReadsFallback` shows is 0. */
  function ParseOffset(raw: Option<string>): (r: Option<int>)
    ensures r.Some? ==> r.value >= 0
    ensures raw.None? || raw == Some("") ==> r == Some(0)
    ensures raw.Some? && raw.value != "" ==> (r.None? <==> ParseInt(raw.value).None?)
    ensures raw.Some? && raw.value != "" && r.Some? ==> r.value == Max(ParseInt(raw.value).value, 0)
  {
    if raw.None? || raw.value == "" then Some(0)
    else
      match ParseInt(raw.value)
      case None => None
      case Some(n) => Some(Max(n, 0))
  }

  /** The fallback text "50" reads as the default limit. */
  lemma DefaultLimitParses()
    ensures ParseInt("50") == Some(DefaultLimit)
  {
    var s := "50";
    assert AllDigits(s);
    assert s[..1] == "5" && "5"[..0] == "";
    assert DigitsValue("5") == 5;
    assert DigitsValue(s) == 50;
    ParseSignedDigits(s, false);
  }

  /** The fallback text "0" reads as offset 0. */
  lemma DefaultOffsetParses()
    ensures ParseInt("0") == Some(0)
  {
    var s := "0";
    assert AllDigits(s);
    assert s[..0] == "";
    assert DigitsValue(s) == 0;
    ParseSignedDigits(s, false);
  }

  /** `ParseLimit` is `parseInt` of the parameter or its fallback text, capped at 100. */
  lemma ParseLimitReadsFallback(raw: Option<string>)
    ensures ParseLimit(raw) == match ParseInt(ParamOr(raw, "50"))
                               case None => None
                               case Some(n) => Some(Min(n, MaxLimit))
  {
    if raw.None? || raw == Some("") {
      DefaultLimitParses();
    }
  }

  /** `ParseOffset` is `parseInt` of the parameter or its fallback text, floored at 0. */
  lemma ParseOffsetReadsFallback(raw: Option<string>)
    ensures ParseOffset(raw) == match ParseInt(ParamOr(raw, "0"))
                                case None => None
                                case Some(n) => Some(Max(n, 0))
  {
    if raw.None? || raw == Some("") {
      DefaultOffsetParses();
    }
  }

  /** `get(name) || undefined` for a text filter: missing and empty both switch it off. */
  function TextFilter(raw: Option<string>): (r: Option<string>)
    ensures r.Some? <==> raw.Some? && raw.value != ""
    ensures r.Some? ==> r == raw
  {
    if raw.Some? && raw.value != "" then raw else None
  }

  /** `get(name) === 'true' ? true : undefined`: only the exact text "true" switches a flag filter on. */
  function FlagFilter(raw: Option<string>): (on: bool)
    ensures on <==> raw == Some("true")
  {
    raw == Some("true")
  }

  /** Number addition where `None` is NaN. */
  function AddNumbers(a: Option<int>, b: Option<int>): (r: Option<int>)
    ensures r.Some? <==> a.Some? && b.Some?
    ensures r.Some? ==> r.value == a.value + b.value
  {
    if a.Some? && b.Some? then Some(a.value + b.value) else None
  }

  /** The index `slice` starts or stops at for argument `arg`: NaN counts as 0,
      a negative argument counts back from the end, and the result is clamped to `[0, len]`. */
  function SliceIndex(arg: Option<int>, len: nat): (k: nat)
    ensures k <= len
  {
    var rel := arg.GetOr(0);
    if rel < 0 then Max(len + rel, 0) else Min(rel, len)
  }

  /** `s.slice(start, end)`. */
  function Slice<T>(s: seq<T>, start: Option<int>, end: Option<int>): (r: seq<T>)
    ensures |r| <= |s|
    ensures SliceIndex(start, |s|) + |r| <= |s|
    ensures r == s[SliceIndex(start, |s|)..SliceIndex(start, |s|) + |r|]
    ensures |r| == Max(SliceIndex(end, |s|) - SliceIndex(start, |s|), 0)
  {
    var k := SliceIndex(start, |s|);
    var f := SliceIndex(end, |s|);
    if k <= f then s[k..f] else []
  }

  /** `items.slice(offset, offset + limit)`. */
  function Window<T>(items: seq<T>, limit: Option<int>, offset: Option<int>): (r: seq<T>)
    requires offset.Some? ==> offset.value >= 0
    ensures |r| <= |items|
    ensures limit.None? || offset.None? ==> r == []
    ensures var k := SliceIndex(offset, |items|);
            k + |r| <= |items| &&
            forall i :: 0 <= i < |r| ==> r[i] == items[k + i]
    ensures |r| == Max(SliceIndex(AddNumbers(offset, limit), |items|) - SliceIndex(offset, |items|), 0)
  {
    Slice(items, offset, AddNumbers(offset, limit))
  }

  /** For a non-negative window, the slice is exactly the records from `offset`
      up to `offset + limit`, cut off at the end of the list. */
  lemma WindowNonNegative<T>(items: seq<T>, limit: int, offset: int)
    requires 0 <= limit && 0 <= offset
    ensures Window(items, Some(limit), Some(offset))
         == items[Min(offset, |items|)..Min(offset + limit, |items|)]
    ensures |Window(items, Some(limit), Some(offset))| <= limit
  {
  }

  /** `limit` has no lower bound: when `offset + limit` is negative the end of the
      slice is counted from the back of the list. */
  lemma WindowNegativeEnd<T>(items: seq<T>, limit: int, offset: int)
    requires 0 <= offset && offset + limit < 0
    ensures var start := Min(offset, |items|);
            var stop := |items| + offset + limit;
            Window(items, Some(limit), Some(offset))
              == if start <= stop then items[start..stop] else []
  {
  }

  /** A negative `limit` that does not reach back past the start of the list puts the
      end of the slice before its start, so the page is empty. */
  lemma WindowShortNegativeLimit<T>(items: seq<T>, limit: int, offset: int)
    requires 0 <= offset && limit < 0 <= offset + limit
    ensures Window(items, Some(limit), Some(offset)) == []
  {
  }

  /** `limit=-k` with `offset=0` returns every record except the last `k`. */
  lemma NegativeLimitDropsLast<T>(items: seq<T>, k: int)
    requires 0 < k <= |items|
    ensures Window(items, Some(-k), Some(0)) == items[..|items| - k]
  {
    WindowNegativeEnd(items, -k, 0);
  }

  /** The response for already parsed `limit` and `offset`: count the filtered
      records and cut out the window. */
  function Page<T>(filtered: seq<T>, limit: Option<int>, offset: Option<int>): (r: ListResponse<T>)
    requires offset.Some? ==> offset.value >= 0
    ensures r.success
    ensures r.meta == Meta(|filtered|, limit, offset)
    ensures |r.data| <= |filtered|
    ensures limit.None? || offset.None? ==> r.data == []
    ensures var k := SliceIndex(offset, |filtered|);
            k + |r.data| <= |filtered| &&
            forall i :: 0 <= i < |r.data| ==> r.data[i] == filtered[k + i]
    ensures |r.data| == Max(SliceIndex(AddNumbers(offset, limit), |filtered|) - SliceIndex(offset, |filtered|), 0)
  {
    ListResponse(true, Window(filtered, limit, offset), Meta(|filtered|, limit, offset))
  }

  /** Parse the paging parameters, count the filtered records, and cut out the window. */
  function ListPage<T>(filtered: seq<T>, q: Query): (r: ListResponse<T>)
    ensures r.success
    ensures r.meta.total == |filtered|
    ensures r.meta.limit == ParseLimit(q.limit) && r.meta.offset == ParseOffset(q.offset)
    ensures |r.data| <= |filtered|
    ensures r.meta.limit.None? || r.meta.offset.None? ==> r.data == []
    ensures var k := SliceIndex(r.meta.offset, |filtered|);
            k + |r.data| <= |filtered| &&
            forall i :: 0 <= i < |r.data| ==> r.data[i] == filtered[k + i]
    ensures |r.data| == Max(SliceIndex(AddNumbers(r.meta.offset, r.meta.limit), |filtered|)
                            - SliceIndex(r.meta.offset, |filtered|), 0)
  {
    Page(filtered, ParseLimit(q.limit), ParseOffset(q.offset))
  }

  /** Every record on a page comes from the filtered list. */
  lemma ListPageFrom<T>(filtered: seq<T>, q: Query)
    ensures forall i :: 0 <= i < |ListPage(filtered, q).data| ==> ListPage(filtered, q).data[i] in filtered
  {
  }

  /** When `limit` parses to a non-negative number, the page is the records from
      `offset` up to `offset + limit`, in order, cut off at the end of the list. */
  lemma ListPageWindow<T>(filtered: seq<T>, q: Query, limit: int, offset: int)
    requires ParseLimit(q.limit) == Some(limit) && ParseOffset(q.offset) == Some(offset)
    requires limit >= 0
    ensures var data := ListPage(filtered, q).data;
            |data| <= limit &&
            data == filtered[Min(offset, |filtered|)..Min(offset + limit, |filtered|)]
  {
    WindowNonNegative(filtered, limit, offset);
  }

  /** An offset past the end of the list returns an empty page while `meta` still
      reports that offset, so `offset + data.length` exceeds `total`. */
  lemma OffsetPastEnd<T>(filtered: seq<T>, q: Query, offset: int)
    requires ParseOffset(q.offset) == Some(offset) && offset > |filtered|
    ensures ListPage(filtered, q).data == []
    ensures offset + |ListPage(filtered, q).data| > ListPage(filtered, q).meta.total
  {
  }

  /** `data.map(f)` on a response, leaving `success` and `meta` alone. */
  function MapResponse<T, U>(r: ListResponse<T>, f: T -> U): (m: ListResponse<U>)
    ensures m.success == r.success && m.meta == r.meta
    ensures |m.data| == |r.data|
    ensures forall i :: 0 <= i < |r.data| ==> m.data[i] == f(r.data[i])
  {
    ListResponse(r.success, Seqs.Map(r.data, f), r.meta)
  }

  /** A query that asks for `limit` records from `offset`, written as a client would. */
  function PageQuery(limit: int, offset: int): Query {
    Query(Some(IntToString(limit)), Some(IntToString(offset)), None, None, None)
  }

  /** What a client sends as `limit` and `offset` is what the endpoint reads, within range. */
  lemma PageQueryParses(limit: int, offset: int)
    requires 0 <= limit <= MaxLimit && 0 <= offset
    ensures ParseLimit(PageQuery(limit, offset).limit) == Some(limit)
    ensures ParseOffset(PageQuery(limit, offset).offset) == Some(offset)
  {
    ParseIntRoundTrip(limit);
    ParseIntRoundTrip(offset);
  }

  /** The records one request with `limit` and `offset` written as text returns. */
  function RequestPage<T>(items: seq<T>, limit: int, offset: int): (r: seq<T>)
    requires 0 <= limit <= MaxLimit && 0 <= offset
    ensures r == items[Min(offset, |items|)..Min(offset + limit, |items|)]
  {
    var q := PageQuery(limit, offset);
    PageQueryParses(limit, offset);
    ListPageWindow(items, q, limit, offset);
    ListPage(items, q).data
  }

  /** The records a client collects by requesting page after page, advancing `offset` by `limit`. */
  function PagesFrom<T>(items: seq<T>, limit: int, offset: nat): seq<T>
    requires 1 <= limit <= MaxLimit
    decreases |items| - offset
  {
    if offset >= |items| then []
    else RequestPage(items, limit, offset) + PagesFrom(items, limit, offset + limit)
  }

  lemma PagesFromStep<T>(items: seq<T>, limit: int, offset: nat)
    requires 1 <= limit <= MaxLimit
    requires offset < |items|
    ensures PagesFrom(items, limit, offset)
         == items[offset..Min(offset + limit, |items|)] + PagesFrom(items, limit, offset + limit)
  {
  }

  lemma AdjacentSlices<T>(items: seq<T>, a: int, b: int)
    requires 0 <= a <= b <= |items|
    ensures items[a..b] + items[b..] == items[a..]
  {
  }

  /** Paging through a list from `offset` visits each remaining record exactly once, in order. */
  lemma {:induction false} PagesReassemble<T>(items: seq<T>, limit: int, offset: nat)
    requires 1 <= limit <= MaxLimit
    requires offset <= |items|
    ensures PagesFrom(items, limit, offset) == items[offset..]
    decreases |items| - offset, 1
  {
    if offset < |items| {
      var next := Min(offset + limit, |items|);
      PagesFromStep(items, limit, offset);
      LaterPages(items, limit, offset);
      AdjacentSlices(items, offset, next);
    }
  }

  /** The pages after the one at `offset` hold the records after it. */
  lemma {:induction false} LaterPages<T>(items: seq<T>, limit: int, offset: nat)
    requires 1 <= limit <= MaxLimit
    requires offset < |items|
    ensures PagesFrom(items, limit, offset + limit) == items[Min(offset + limit, |items|)..]
    decreases |items| - offset, 0
  {
    if offset + limit <= |items| {
      PagesReassemble(items, limit, offset + limit);
    }
  }

  /** A client starting at offset 0 receives the whole filtered list across its pages. */
  lemma PagingCoversList<T>(items: seq<T>, limit: int)
    requires 1 <= limit <= MaxLimit
    ensures PagesFrom(items, limit, 0) == items
  {
    PagesReassemble(items, limit, 0);
  }
}

/** server/api/form/index.get.ts: how the form list endpoint reads its query string
    (page, limit, search, sortBy, sortOrder), the database request it derives from it,
    and the pagination block and per-form summary of its answer. The database calls
    themselves are inputs: `forms` and `totalCount` are what they returned. */
module FormListQuery {
  import opened Common
  import opened Strings
  import opened JsValues

  /** The value of one hexadecimal digit, or -1. */
  function HexValue(c: char): int {
    if '0' <= c <= '9' then c as int - '0' as int
    else if 'a' <= c <= 'f' then c as int - 'a' as int + 10
    else if 'A' <= c <= 'F' then c as int - 'A' as int + 10
    else -1
  }

  /** The longest prefix of `s` made of digits of the given radix (10 or 16). */
  function DigitRun(s: string, radix: int): (r: string)
    ensures r <= s
    ensures forall i :: 0 <= i < |r| ==> 0 <= HexValue(r[i]) < radix
    ensures |r| < |s| ==> !(0 <= HexValue(s[|r|]) < radix)
    decreases |s|
  {
    if s != [] && 0 <= HexValue(s[0]) < radix then [s[0]] + DigitRun(s[1..], radix) else []
  }

  /** The number a run of digits denotes. */
  function RunValue(d: string, radix: int): (r: nat)
    requires forall i :: 0 <= i < |d| ==> 0 <= HexValue(d[i]) < radix
    decreases |d|
  {
    if d == [] then 0 else RunValue(d[..|d| - 1], radix) * radix + HexValue(d[|d| - 1])
  }

  /** The digits after an optional sign: a `0x`/`0X` prefix switches to base 16, then
      the longest run of digits is read; `None` when there is none. */
  function ParseUnsigned(u: string): (r: Option<nat>)
  {
    var hex := |u| >= 2 && u[0] == '0' && (u[1] == 'x' || u[1] == 'X');
    var radix := if hex then 16 else 10;
    var d := DigitRun(if hex then u[2..] else u, radix);
    if d == [] then None else Some(RunValue(d, radix))
  }

  /** An optional sign, then ParseUnsigned. */
  function ParseSigned(t: string): (r: Option<int>)
  {
    var signed := t != [] && (t[0] == '-' || t[0] == '+');
    match ParseUnsigned(if signed then t[1..] else t)
    case None => None
    case Some(n) => var v: int := n; Some(if signed && t[0] == '-' then -v else v)
  }

  /** `parseInt(s)` without a radix: leading whitespace is skipped, then ParseSigned.
      `None` is NaN (no digit at all), which is also what `parseInt(undefined)` gives. */
  function ParseInt(q: Option<string>): (r: Option<int>)
  {
    if q.None? then None else ParseSigned(TrimStart(q.value))
  }

  lemma {:induction false} RunValueOfDecimal(n: nat)
    ensures forall i :: 0 <= i < |NatToString(n)| ==> 0 <= HexValue(NatToString(n)[i]) < 10
    ensures RunValue(NatToString(n), 10) == n
    decreases n
  {
    if n >= 10 {
      RunValueOfDecimal(n / 10);
      var s := NatToString(n);
      assert s[..|s| - 1] == NatToString(n / 10);
    }
  }

  lemma {:induction false} DigitRunOfDigits(s: string)
    requires forall i :: 0 <= i < |s| ==> 0 <= HexValue(s[i]) < 10
    ensures DigitRun(s, 10) == s
    decreases |s|
  {
    if s != [] {
      DigitRunOfDigits(s[1..]);
    }
  }

  lemma UnsignedDecimal(n: nat)
    ensures ParseUnsigned(NatToString(n)) == Some(n)
  {
    var s := NatToString(n);
    RunValueOfDecimal(n);
    DigitRunOfDigits(s);
    assert |s| >= 2 ==> IsDigit(s[1]);
  }

  /** `parseInt` reads back what `String(n)` prints for every natural number. */
  lemma ParseIntReadsDecimal(n: nat)
    ensures ParseInt(Some(NatToString(n))) == Some(n)
  {
    var s := NatToString(n);
    assert s != [] && IsDigit(s[0]);
    DigitsNotTrimmed(s);
    UnsignedIsSigned(s);
    UnsignedDecimal(n);
  }

  /** Without a sign, ParseSigned is ParseUnsigned. */
  lemma UnsignedIsSigned(t: string)
    requires t != [] && t[0] != '-' && t[0] != '+'
    ensures ParseUnsigned(t).None? ==> ParseSigned(t).None?
    ensures ParseUnsigned(t).Some? ==> ParseSigned(t) == Some(ParseUnsigned(t).value as int)
  {
  }

  lemma DigitsNotTrimmed(s: string)
    requires s != [] && IsDigit(s[0])
    ensures TrimStart(s) == s && s[0] != '-' && s[0] != '+'
  {
  }

  /** Trailing garbage stops the parse. */
  lemma ParseStopsAtGarbage()
    ensures ParseUnsigned("12abc") == Some(12)
  {
    assert DigitRun("12abc", 10) == "12" by {
      assert DigitRun("abc", 10) == "";
      assert DigitRun("2abc", 10) == "2";
    }
    assert RunValue("12", 10) == 12 by { assert "12"[..1] == "1"; }
  }

  /** No leading digit is NaN. */
  lemma ParseWithoutDigits()
    ensures ParseUnsigned("abc").None?
    ensures ParseInt(None).None?
  {
    assert DigitRun("abc", 10) == "";
  }

  /** `0x` switches to base 16. */
  lemma ParseHexadecimal()
    ensures ParseUnsigned("0x1f") == Some(31)
  {
    assert DigitRun("1f", 16) == "1f" by {
      assert DigitRun("", 16) == "";
      assert DigitRun("f", 16) == "f";
    }
    assert RunValue("1f", 16) == 31 by { assert "1f"[..1] == "1"; }
  }

  /** A minus sign negates. */
  lemma ParseNegative()
    ensures ParseSigned("-3") == Some(-3)
  {
    assert "-3"[1..] == "3";
    assert ParseUnsigned("3") == Some(3) by { assert DigitRun("3", 10) == "3"; }
  }

  /** Leading whitespace is skipped. */
  lemma ParseSkipsWhitespace(c: char, s: string)
    requires IsJsWhitespace(c)
    ensures ParseInt(Some([c] + s)) == ParseInt(Some(s))
  {
    var t := [c] + s;
    assert t[1..] == s;
    assert TrimStart(t) == TrimStart(s);
  }

  datatype SortOrder = Asc | Desc

  /** The query string, one optional string per parameter. */
  datatype Query = Query(page: Option<string>, limit: Option<string>, search: Option<string>,
                         sortBy: Option<string>, sortOrder: Option<string>)

  /** `parseInt(x) || d`: NaN and 0 fall back to `d`. */
  function ParsedOr(q: Option<string>, d: int): int {
    var p := ParseInt(q);
    if p.Some? && p.value != 0 then p.value else d
  }

  function Max(a: int, b: int): int { if a < b then b else a }
  function Min(a: int, b: int): int { if a < b then a else b }

  function Page(q: Query): (r: int)
    ensures r >= 1
    ensures var p := ParseInt(q.page); p.Some? && p.value >= 1 ==> r == p.value
    ensures var p := ParseInt(q.page); p.None? || p.value < 1 ==> r == 1
  {
    Max(1, ParsedOr(q.page, 1))
  }

  function Limit(q: Query): (r: int)
    ensures 1 <= r <= 100
    ensures var p := ParseInt(q.limit); p.None? || p.value == 0 ==> r == 10
    ensures var p := ParseInt(q.limit); p.Some? && 1 <= p.value <= 100 ==> r == p.value
    ensures var p := ParseInt(q.limit); p.Some? && p.value > 100 ==> r == 100
    ensures var p := ParseInt(q.limit); p.Some? && p.value < 0 ==> r == 1
  {
    Min(100, Max(1, ParsedOr(q.limit, 10)))
  }

  predicate IsSortColumn(s: string) {
    s == "title" || s == "createdAt" || s == "updatedAt"
  }

  function SortBy(q: Query): (r: string)
    ensures IsSortColumn(r)
    ensures q.sortBy.Some? && IsSortColumn(q.sortBy.value) <==> Some(r) == q.sortBy
    ensures q.sortBy.None? || !IsSortColumn(q.sortBy.value) ==> r == "createdAt"
  {
    if q.sortBy.Some? && IsSortColumn(q.sortBy.value) then q.sortBy.value else "createdAt"
  }

  function Order(q: Query): (r: SortOrder)
    ensures q.sortOrder == Some("asc") <==> r == Asc
  {
    if q.sortOrder == Some("asc") then Asc else Desc
  }

  /** The search term, when `search?.trim()` is truthy: then the title or description
      has to contain it, ignoring case. */
  function SearchTerm(q: Query): (r: Option<string>)
    ensures r.Some? <==> q.search.Some? && Trim(q.search.value) != ""
    ensures r.Some? ==> r.value == Trim(q.search.value) && r.value != ""
  {
    if q.search.Some? && Trim(q.search.value) != "" then Some(Trim(q.search.value)) else None
  }

  /** The arguments of `findMany`. */
  datatype ListRequest = ListRequest(search: Option<string>, sortBy: string, order: SortOrder, skip: int, take: int)

  /** `(page - 1) * limit`. */
  function Offset(page: int, limit: int): int {
    (page - 1) * limit
  }

  function Request(q: Query): (r: ListRequest)
    ensures r.skip == Offset(Page(q), Limit(q)) && r.take == Limit(q)
    ensures r.search == SearchTerm(q) && r.sortBy == SortBy(q) && r.order == Order(q)
  {
    ListRequest(SearchTerm(q), SortBy(q), Order(q), Offset(Page(q), Limit(q)), Limit(q))
  }

  /** The first page starts at row 0, each page starts where the previous one ended,
      and no offset is negative. */
  lemma PagesTile(page: int, limit: int)
    requires page >= 1 && limit >= 1
    ensures Offset(1, limit) == 0
    ensures Offset(page + 1, limit) == Offset(page, limit) + limit
    ensures Offset(page, limit) >= 0
  {
    var p: nat := page - 1;
    assert p * limit >= 0;
  }

  datatype Pagination = Pagination(page: int, limit: int, totalCount: nat, totalPages: nat, hasNext: bool, hasPrev: bool)

  /** `Math.ceil(a / b)`. */
  function CeilDiv(a: nat, b: int): (r: nat)
    requires b > 0
    ensures r * b >= a && (r == 0 || (r - 1) * b < a)
  {
    (a + b - 1) / b
  }

  /** The pagination block of the list response: the query's page and limit and the
      total count passed through, the fewest pages that hold every row, and the two
      navigation flags. */
  function Paginate(page: int, limit: int, totalCount: nat): (r: Pagination)
    requires limit > 0
    ensures r.page == page && r.limit == limit && r.totalCount == totalCount
    ensures r.totalPages * limit >= totalCount && (r.totalPages == 0 || (r.totalPages - 1) * limit < totalCount)
    ensures r.hasNext <==> page * limit < totalCount
    ensures r.hasPrev <==> page > 1
  {
    Pagination(page, limit, totalCount, CeilDiv(totalCount, limit), page * limit < totalCount, page > 1)
  }

  /** There is a next page exactly when the current one comes before the last one. */
  lemma HasNextIffBeforeLastPage(page: int, limit: int, totalCount: nat)
    requires limit > 0
    ensures Paginate(page, limit, totalCount).hasNext <==> page < Paginate(page, limit, totalCount).totalPages
  {
    var t := CeilDiv(totalCount, limit);
    if page * limit < totalCount {
      if page >= t {
        MulMonoRight(t, page, limit);
      }
    } else {
      if page < t {
        MulMonoRight(page, t - 1, limit);
      }
    }
  }

  lemma MulMonoRight(a: int, b: int, k: int)
    requires a <= b && k > 0
    ensures a * k <= b * k
  {
  }

  /** One row of `findMany` (`steps` and `fields` are JSON columns). */
  datatype FormRecord = FormRecord(id: string, title: string, description: Option<string>,
                                   layout: string, spacing: string, createdAt: string, updatedAt: string,
                                   steps: Value, fields: Value)

  datatype FormSummary = FormSummary(id: string, title: string, description: Option<string>,
                                     layout: string, spacing: string, createdAt: string, updatedAt: string,
                                     stepsCount: nat, fieldsCount: nat)

  /** The length of a JSON column treated as a list; anything but an array counts 0. */
  function ListLength(v: Value): (r: nat)
    ensures !v.Arr? ==> r == 0
    ensures v.Arr? ==> r == |v.items|
  {
    if v.Arr? then |v.items| else 0
  }

  function Summarize(f: FormRecord): (r: FormSummary)
    ensures r.stepsCount == ListLength(f.steps) && r.fieldsCount == ListLength(f.fields)
    ensures r.id == f.id && r.title == f.title && r.description == f.description
  {
    FormSummary(f.id, f.title, f.description, f.layout, f.spacing, f.createdAt, f.updatedAt,
                ListLength(f.steps), ListLength(f.fields))
  }

  datatype FormList = FormList(forms: seq<FormSummary>, pagination: Pagination, message: string)

  /** The successful answer, built from what the two queries returned. */
  function ListForms(q: Query, forms: seq<FormRecord>, totalCount: nat): (r: FormList)
    ensures |r.forms| == |forms| && forall i :: 0 <= i < |forms| ==> r.forms[i] == Summarize(forms[i])
    ensures r.pagination == Paginate(Page(q), Limit(q), totalCount)
    ensures r.message == NatToString(|forms|) + " formulaire(s) récupéré(s)"
  {
    FormList(MapSeq(forms, Summarize), Paginate(Page(q), Limit(q), totalCount),
             NatToString(|forms|) + " formulaire(s) récupéré(s)")
  }
}

/**
 * Paths: how AxiCrud turns its base url and an item id into request paths
 * (`itemPath`, and the PUT target of `update`).
 */
module Paths {

  /** 2^53: up to this magnitude every integer is exactly a JavaScript number, and
      `Number.prototype.toString()` writes its exact decimal digits. */
  const MAX_EXACT: int := 9_007_199_254_740_992

  /** An integer-valued JavaScript number whose `toString()` is its exact decimal rendering. */
  type PlainInt = n: int | -MAX_EXACT <= n <= MAX_EXACT

  /** The id accepted by `itemPath`, `withItem`, `update` and `delete`: `number | string`.
      Numbers are restricted to integers of magnitude at most 2^53. */
  datatype Id = NumId(n: PlainInt) | StrId(s: string)

  predicate IsDigit(c: char) {
    '0' <= c <= '9'
  }

  predicate AllDigits(s: string) {
    forall i :: 0 <= i < |s| ==> IsDigit(s[i])
  }

  /** `s.startsWith("/")` */
  predicate StartsWithSlash(s: string) {
    |s| > 0 && s[0] == '/'
  }

  /** `s.endsWith("/")` */
  predicate EndsWithSlash(s: string) {
    |s| > 0 && s[|s| - 1] == '/'
  }

  function DigitChar(d: nat): char
    requires d < 10
  {
    ('0' as int + d) as char
  }

  function DigitValue(c: char): nat
    requires IsDigit(c)
  {
    c as int - '0' as int
  }

  /** The decimal rendering `toString()` gives a natural number: digits only, never empty,
      and no leading zero except for zero itself. */
  function Decimal(n: nat): (s: string)
    ensures |s| > 0 && AllDigits(s)
    ensures s[0] == '0' ==> n == 0
    decreases n
  {
    if n < 10 then [DigitChar(n)] else Decimal(n / 10) + [DigitChar(n % 10)]
  }

  /** Reads a string of decimal digits back as a number; the inverse of Decimal. */
  function ParseDecimal(s: string): nat
    requires AllDigits(s)
  {
    if |s| == 0 then 0 else ParseDecimal(s[..|s| - 1]) * 10 + DigitValue(s[|s| - 1])
  }

  /** Decimal loses nothing: parsing the rendering gives the number back. */
  lemma {:induction false} DecimalRoundTrip(n: nat)
    ensures ParseDecimal(Decimal(n)) == n
    decreases n
  {
    var s := Decimal(n);
    if n >= 10 {
      DecimalRoundTrip(n / 10);
      assert s[..|s| - 1] == Decimal(n / 10);
    }
  }

  /** `id.toString()`: a string id is kept as it is, an integer is written in decimal with a
      leading `-` when negative, so a numeric id never starts with `/`. */
  function IdString(id: Id): (s: string)
    ensures id.StrId? ==> s == id.s
    ensures id.NumId? ==> |s| > 0 && !StartsWithSlash(s)
    ensures id.NumId? && id.n >= 0 ==>
              AllDigits(s) && ParseDecimal(s) == id.n && (s[0] == '0' ==> id.n == 0)
    ensures id.NumId? && id.n < 0 ==>
              |s| > 1 && s[0] == '-' && s[1] != '0' && AllDigits(s[1..]) && ParseDecimal(s[1..]) == -id.n
  {
    match id
    case StrId(s) => s
    case NumId(n) =>
      if n < 0 then
        DecimalRoundTrip(-n);
        assert ("-" + Decimal(-n))[1..] == Decimal(-n);
        "-" + Decimal(-n)
      else DecimalRoundTrip(n); Decimal(n)
  }

  /** `itemPath(id)`: the base url followed by the id, with one `/` put between them only when
      the url does not end with `/` and the id does not start with `/`. */
  function ItemPath(url: string, id: Id): (r: string)
    ensures url <= r
    ensures |IdString(id)| <= |r| && r[|r| - |IdString(id)|..] == IdString(id)
    ensures |url| + |IdString(id)| <= |r| <= |url| + |IdString(id)| + 1
  {
    var s := IdString(id);
    if !EndsWithSlash(url) && !StartsWithSlash(s) then url + "/" + s else url + s
  }

  /** The two cases of `itemPath`, each in both directions. */
  lemma ItemPathCases(url: string, id: Id)
    ensures (!EndsWithSlash(url) && !StartsWithSlash(IdString(id)))
            <==> ItemPath(url, id) == url + "/" + IdString(id)
    ensures (EndsWithSlash(url) || StartsWithSlash(IdString(id)))
            <==> ItemPath(url, id) == url + IdString(id)
  {
  }

  /** With a numeric id the separator depends on the url alone. */
  lemma NumericItemPath(url: string, n: PlainInt)
    ensures ItemPath(url, NumId(n)) ==
              if EndsWithSlash(url) then url + IdString(NumId(n)) else url + "/" + IdString(NumId(n))
  {
  }

  /** `url` with one trailing `/` removed, if it has one. */
  function DropTrailingSlash(url: string): string {
    if EndsWithSlash(url) then url[..|url| - 1] else url
  }

  /** `s` with one leading `/` removed, if it has one. */
  function DropLeadingSlash(s: string): string {
    if StartsWithSlash(s) then s[1..] else s
  }

  /** A reference definition of joining a url and an id with exactly one `/` at the seam. */
  function Joined(url: string, s: string): string {
    DropTrailingSlash(url) + "/" + DropLeadingSlash(s)
  }

  /** `itemPath` agrees with the one-slash join exactly when the url and the id do not both carry
      a slash at the seam; when they do, the result has `//` where the two meet. */
  lemma ItemPathSeam(url: string, id: Id)
    ensures (ItemPath(url, id) == Joined(url, IdString(id)))
            <==> !(EndsWithSlash(url) && StartsWithSlash(IdString(id)))
    ensures EndsWithSlash(url) && StartsWithSlash(IdString(id)) ==>
              ItemPath(url, id)[|url| - 1..|url| + 1] == "//"
  {
    var s := IdString(id);
    var r := ItemPath(url, id);
    if EndsWithSlash(url) && StartsWithSlash(s) {
      assert |Joined(url, s)| == |url| + |s| - 1;
    } else if EndsWithSlash(url) {
      assert url == DropTrailingSlash(url) + "/";
    } else if StartsWithSlash(s) {
      assert s == "/" + DropLeadingSlash(s);
    }
  }

  /** The PUT target of `update`: `itemPath(id) + "/"`. */
  function UpdatePath(url: string, id: Id): string {
    ItemPath(url, id) + "/"
  }

  /** Whatever the base url's own trailing slash, the PUT target ends with `/`, starts with the
      url, and holds the id just before its final `/`. */
  lemma UpdatePathShape(url: string, id: Id)
    ensures EndsWithSlash(UpdatePath(url, id))
    ensures url <= UpdatePath(url, id)
    ensures var r, s := UpdatePath(url, id), IdString(id);
            |s| + 1 <= |r| && r[|r| - 1 - |s|..|r| - 1] == s
  {
    var r, s := UpdatePath(url, id), IdString(id);
    assert r[..|r| - 1] == ItemPath(url, id);
  }
}

/** The two text formats the class-schedule page writes: an URL query string
    (`name=value` pairs joined by `&`) and a PostGIS Extended WKT point
    (`SRID=<srid>;POINT(<x> <y>)`, the OGC Simple Features `POINT(x y)` text
    behind an SRID prefix). Each builder has a parser as its partner and a
    round-trip lemma connecting the two. */
module Formats {
  import opened JsValues
  import opened JsText

  /** One query parameter: its name and its (already encoded) value. */
  type Param = (string, string)

  /** A parameter that keeps its shape inside a query string: the name holds
      no `=` and neither part holds the `&` separator. */
  predicate WellFormedParam(p: Param) {
    '=' !in p.0 && '&' !in p.0 && '&' !in p.1
  }

  /** `k1=v1&k2=v2&...`, as the page's template literals write it. */
  function Query(ps: seq<Param>): string
    requires |ps| > 0
  {
    if |ps| == 1 then ps[0].0 + "=" + ps[0].1
    else ps[0].0 + "=" + ps[0].1 + "&" + Query(ps[1..])
  }

  /** One `name=value` segment; a segment without `=` has the empty value. */
  function ParseParam(segment: string): (p: Param)
    ensures '=' !in p.0
  {
    match SplitFirst(segment, '=')
    case (k, None) => (k, "")
    case (k, Some(v)) => (k, v)
  }

  /** Splits a query string at every `&` and each segment at its first `=`:
      a raw split, without percent-decoding, `+` handling or the dropping of
      empty segments that a URL parser would add. */
  function ParseQuery(q: string): (ps: seq<Param>)
    ensures |ps| > 0
    decreases |q|
  {
    match SplitFirst(q, '&')
    case (segment, None) => [ParseParam(segment)]
    case (segment, Some(rest)) => [ParseParam(segment)] + ParseQuery(rest)
  }

  /** The query part of a link: what follows its first `?`. */
  function QueryPart(link: string): (r: Option<string>)
    ensures r == None <==> '?' !in link
    ensures r != None ==> |r.value| < |link| && link[|link| - |r.value|..] == r.value
    ensures r != None ==> link[|link| - |r.value| - 1] == '?' && '?' !in link[..|link| - |r.value| - 1]
  {
    var (before, after) := SplitFirst(link, '?');
    assert after != None ==> link[..|before|] == before;
    after
  }

  /** Reading a built query string back yields the parameters in the order
      they were written. */
  lemma {:induction false} QueryRoundTrip(ps: seq<Param>)
    requires |ps| > 0
    requires forall i :: 0 <= i < |ps| ==> WellFormedParam(ps[i])
    ensures ParseQuery(Query(ps)) == ps
  {
    var (k, v) := ps[0];
    assert WellFormedParam(ps[0]);
    var segment := k + "=" + v;
    SplitFirstAt(k, '=', v);
    assert ParseParam(segment) == ps[0];
    assert '&' !in segment;
    if |ps| == 1 {
      SplitFirstAbsent(segment, '&');
    } else {
      SplitFirstAt(segment, '&', Query(ps[1..]));
      QueryRoundTrip(ps[1..]);
      assert [ps[0]] + ps[1..] == ps;
    }
  }

  /** A link made of a prefix without `?`, then `?`, then a query: its query
      part reads back as the parameters. */
  lemma LinkRoundTrip(prefix: string, ps: seq<Param>)
    requires '?' !in prefix
    requires |ps| > 0
    requires forall i :: 0 <= i < |ps| ==> WellFormedParam(ps[i])
    ensures QueryPart(prefix + "?" + Query(ps)) == Some(Query(ps))
    ensures ParseQuery(QueryPart(prefix + "?" + Query(ps)).value) == ps
  {
    SplitFirstAt(prefix, '?', Query(ps));
    QueryRoundTrip(ps);
  }

  // ---- PostGIS Extended WKT point -----------------------------------------

  /** `SRID=<srid>;POINT(<x> <y>)`. */
  function PointEwkt(srid: string, x: string, y: string): string {
    "SRID=" + srid + ";POINT(" + x + " " + y + ")"
  }

  /** Reads an Extended WKT point back into its SRID and its two coordinates,
      first x then y; `None` for text of any other shape. */
  function ParsePointEwkt(g: string): (r: Option<(string, string, string)>)
    ensures r != None ==> ';' !in r.value.0 && ' ' !in r.value.1
  {
    if |g| < 5 || g[..5] != "SRID=" then None
    else match SplitFirst(g[5..], ';')
      case (_, None) => None
      case (srid, Some(rest)) =>
        if |rest| < 7 || rest[..6] != "POINT(" || rest[|rest| - 1] != ')' then None
        else match SplitFirst(rest[6..|rest| - 1], ' ')
          case (_, None) => None
          case (x, Some(y)) => Some((srid, x, y))
  }

  /** Reading a written point back gives its SRID and coordinates in the
      written order. */
  lemma PointRoundTrip(srid: string, x: string, y: string)
    requires ';' !in srid && ' ' !in x
    ensures ParsePointEwkt(PointEwkt(srid, x, y)) == Some((srid, x, y))
  {
    var g := PointEwkt(srid, x, y);
    var rest := "POINT(" + x + " " + y + ")";
    assert g == "SRID=" + (srid + ";" + rest);
    assert g[..5] == "SRID=" && g[5..] == srid + [';'] + rest;
    SplitFirstAt(srid, ';', rest);
    assert rest[..6] == "POINT(" && rest[|rest| - 1] == ')';
    assert rest[6..|rest| - 1] == x + [' '] + y;
    SplitFirstAt(x, ' ', y);
  }
}

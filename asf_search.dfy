/** The query strings for the Alaska Satellite Facility search API: product
  * specifications, the time of interest and the final query, all
  * `&`-separated `key=value` parameters. */
module AsfSearch {
  import opened Errors
  import opened Strings

  /** A parameter `<key>=<value>`. */
  function Param(key: string, value: string): string
  {
    key + "=" + value
  }

  /** Two parameter lists joined by `&` split into their fields. */
  lemma AmpSplit(x: string, y: string)
    ensures Split(x + "&" + y, '&') == Split(x, '&') + Split(y, '&')
  {
    assert "&" == ['&'];
    SplitConcat(x, '&', y);
  }

  /** A parameter whose key and value hold no `&` is one field. */
  lemma ParamField(key: string, value: string)
    requires '&' !in key && '&' !in value
    ensures Split(Param(key, value), '&') == [Param(key, value)]
  {
    assert '&' !in Param(key, value);
    SplitNone(Param(key, value), '&');
  }

  // ------------------------------------------------------------ product specs

  /** The product types a `GRD` request stands for. */
  const GRD_TYPES := "GRD_HD,GRD_MD,GRD_MS,GRD_HS"

  /** The product type in query form: `GRD` expands to its four types. */
  function QueryProductType(productType: string): string
  {
    if productType == "GRD" then GRD_TYPES else productType
  }

  /** The polarisation in query form, rebound by three `if`s in turn. */
  function QueryPolarisation(polarisation: string): (r: string)
    ensures r == (if polarisation == "VV,VH" || polarisation == "*" then "VV%2BVH"
                  else if polarisation == "HH,HV" then "HH%2BHV"
                  else polarisation)
  {
    var p1 := if polarisation == "VV,VH" then "VV%2BVH" else polarisation;
    var p2 := if p1 == "HH,HV" then "HH%2BHV" else p1;
    assert "VV%2BVH" != "HH,HV" && "VV%2BVH" != "*" && "HH%2BHV" != "*";
    if p2 == "*" then "VV%2BVH" else p2
  }

  /** Bringing a setting to query form twice changes nothing more. */
  lemma QueryFormIdempotent(productType: string, polarisation: string)
    ensures QueryProductType(QueryProductType(productType)) == QueryProductType(productType)
    ensures QueryPolarisation(QueryPolarisation(polarisation)) == QueryPolarisation(polarisation)
  {
    assert GRD_TYPES != "GRD";
    assert "VV%2BVH" != "VV,VH" && "VV%2BVH" != "*" && "VV%2BVH" != "HH,HV";
    assert "HH%2BHV" != "VV,VH" && "HH%2BHV" != "*" && "HH%2BHV" != "HH,HV";
  }

  /** `create_s1_product_specs`: processing level, polarisation and beam
    * swath parameters. */
  function CreateS1ProductSpecs(productType: string, polarisation: string, beam: string): string
  {
    Param("processinglevel", QueryProductType(productType)) + "&"
      + Param("polarization", QueryPolarisation(polarisation)) + "&" + Param("beamSwath", beam)
  }

  lemma ThreeParams(k1: string, k2: string, k3: string, a: string, b: string, c: string)
    requires '&' !in k1 && '&' !in k2 && '&' !in k3 && '&' !in a && '&' !in b && '&' !in c
    ensures Split(Param(k1, a) + "&" + Param(k2, b) + "&" + Param(k3, c), '&')
      == [Param(k1, a), Param(k2, b), Param(k3, c)]
  {
    AmpSplit(Param(k1, a) + "&" + Param(k2, b), Param(k3, c));
    AmpSplit(Param(k1, a), Param(k2, b));
    ParamField(k1, a);
    ParamField(k2, b);
    ParamField(k3, c);
  }

  /** Reading the three settings back from a specs string. */
  function ParseS1ProductSpecs(q: string): Option<(string, string, string)>
  {
    var f := Split(q, '&');
    if |f| != 3 then None
    else
      var t := Between(f[0], "processinglevel" + "=", "");
      var p := Between(f[1], "polarization" + "=", "");
      var b := Between(f[2], "beamSwath" + "=", "");
      if t.Some? && p.Some? && b.Some? then Some((t.value, p.value, b.value)) else None
  }

  /** The specs string names the three settings, in query form,
    * unambiguously. */
  lemma SpecsRoundTrip(productType: string, polarisation: string, beam: string)
    requires '&' !in productType && '&' !in polarisation && '&' !in beam
    ensures ParseS1ProductSpecs(CreateS1ProductSpecs(productType, polarisation, beam))
      == Some((QueryProductType(productType), QueryPolarisation(polarisation), beam))
  {
    var k1, k2, k3 := "processinglevel", "polarization", "beamSwath";
    var t, p := QueryProductType(productType), QueryPolarisation(polarisation);
    assert '&' !in k1 && '&' !in k2 && '&' !in k3 && '&' !in GRD_TYPES;
    assert '&' !in "VV%2BVH" && '&' !in "HH%2BHV";
    ThreeParams(k1, k2, k3, t, p, beam);
    BetweenOf(k1 + "=", t, "");
    BetweenOf(k2 + "=", p, "");
    BetweenOf(k3 + "=", beam, "");
    assert k1 + "=" + t + "" == k1 + "=" + t;
    assert k2 + "=" + p + "" == k2 + "=" + p;
    assert k3 + "=" + beam + "" == k3 + "=" + beam;
  }

  // ------------------------------------------------------------ time of interest

  const START_TIME := "T00:00:01Z"
  const END_TIME := "T23:59:00Z"

  /** `create_toi_str`: the start and end parameters. */
  function CreateToiStr(start: string, end: string): string
  {
    Param("start", start + START_TIME) + "&" + Param("end", end + END_TIME)
  }

  /** Reading the two dates back from a time-of-interest string. */
  function ParseToi(q: string): Option<(string, string)>
  {
    var f := Split(q, '&');
    if |f| != 2 then None
    else
      var s := Between(f[0], "start" + "=", START_TIME);
      var e := Between(f[1], "end" + "=", END_TIME);
      if s.Some? && e.Some? then Some((s.value, e.value)) else None
  }

  /** The time-of-interest string names both dates unambiguously. */
  lemma ToiRoundTrip(start: string, end: string)
    requires '&' !in start && '&' !in end
    ensures ParseToi(CreateToiStr(start, end)) == Some((start, end))
  {
    var s, e := start + START_TIME, end + END_TIME;
    assert '&' !in "start" && '&' !in "end" && '&' !in START_TIME && '&' !in END_TIME;
    assert '&' !in s && '&' !in e;
    AmpSplit(Param("start", s), Param("end", e));
    ParamField("start", s);
    ParamField("end", e);
    BetweenOf("start" + "=", start, START_TIME);
    BetweenOf("end" + "=", end, END_TIME);
    assert Param("start", s) == "start" + "=" + start + START_TIME;
    assert Param("end", e) == "end" + "=" + end + END_TIME;
  }

  // ------------------------------------------------------------ query

  /** `str.replace(' ', '%20')`. */
  function EscapeSpaces(s: string): (r: string)
    ensures ' ' !in r
    ensures '&' in r <==> '&' in s
    ensures |r| >= |s|
    decreases |s|
  {
    if |s| == 0 then []
    else (if s[0] == ' ' then "%20" else [s[0]]) + EscapeSpaces(s[1..])
  }

  /** Each `%20` read back as a space. */
  function UnescapeSpaces(s: string): string
    decreases |s|
  {
    if |s| == 0 then []
    else if |s| >= 3 && s[..3] == "%20" then " " + UnescapeSpaces(s[3..])
    else [s[0]] + UnescapeSpaces(s[1..])
  }

  /** An area without `%` is recovered from its escaped form. */
  lemma {:induction false} EscapeRoundTrip(s: string)
    requires '%' !in s
    ensures UnescapeSpaces(EscapeSpaces(s)) == s
    decreases |s|
  {
    if |s| > 0 {
      var r := EscapeSpaces(s);
      EscapeRoundTrip(s[1..]);
      if s[0] == ' ' {
        assert r == "%20" + EscapeSpaces(s[1..]);
        assert r[..3] == "%20" && r[3..] == EscapeSpaces(s[1..]);
      } else {
        assert r == [s[0]] + EscapeSpaces(s[1..]);
        assert r[1..] == EscapeSpaces(s[1..]);
        assert s[0] != '%';
      }
      assert s == [s[0]] + s[1..];
    }
  }

  const PLATFORM := "platform=SENTINEL-1"
  const OUTPUT := "output=jsonlite"

  /** `create_query`: the platform, the specs, the area with escaped spaces,
    * the time of interest and the output format. */
  function CreateQuery(aoi: string, toi: string, productSpecs: string): string
  {
    PLATFORM + "&" + productSpecs + "&" + EscapeSpaces(aoi) + "&" + toi + "&" + OUTPUT
  }

  lemma FiveParts(p: string, x: string, y: string, z: string, o: string)
    requires '&' !in p && '&' !in o
    ensures Split(p + "&" + x + "&" + y + "&" + z + "&" + o, '&')
      == [p] + Split(x, '&') + Split(y, '&') + Split(z, '&') + [o]
  {
    AmpSplit(p + "&" + x + "&" + y + "&" + z, o);
    AmpSplit(p + "&" + x + "&" + y, z);
    AmpSplit(p + "&" + x, y);
    AmpSplit(p, x);
    SplitNone(p, '&');
    SplitNone(o, '&');
  }

  /** The query's fields are the platform, the fields of the specs, of the
    * escaped area and of the time of interest, and the output format, in
    * that order. */
  lemma QueryFields(aoi: string, toi: string, productSpecs: string)
    ensures Split(CreateQuery(aoi, toi, productSpecs), '&')
      == [PLATFORM] + Split(productSpecs, '&') + Split(EscapeSpaces(aoi), '&') + Split(toi, '&') + [OUTPUT]
  {
    assert '&' !in PLATFORM && '&' !in OUTPUT;
    FiveParts(PLATFORM, productSpecs, EscapeSpaces(aoi), toi, OUTPUT);
  }

  /** A query built from the module's own specs and time of interest and an
    * area without `&` has eight fields: the area is the fifth, spaces
    * escaped, and the others carry the settings. */
  lemma QueryLayout(aoi: string, start: string, end: string, productType: string, polarisation: string,
                    beam: string)
    requires '&' !in aoi && '&' !in start && '&' !in end
    requires '&' !in productType && '&' !in polarisation && '&' !in beam
    ensures var f := Split(CreateQuery(aoi, CreateToiStr(start, end),
                                       CreateS1ProductSpecs(productType, polarisation, beam)), '&');
      |f| == 8 && f[0] == PLATFORM && f[4] == EscapeSpaces(aoi) && f[7] == OUTPUT
      && ParseS1ProductSpecs(Join(f[1..4], '&'))
         == Some((QueryProductType(productType), QueryPolarisation(polarisation), beam))
      && ParseToi(Join(f[5..7], '&')) == Some((start, end))
  {
    var specs := CreateS1ProductSpecs(productType, polarisation, beam);
    var toi := CreateToiStr(start, end);
    SpecsRoundTrip(productType, polarisation, beam);
    ToiRoundTrip(start, end);
    QueryParts(aoi, toi, specs);
  }

  /** Where the specs and the time of interest sit among the query's
    * fields. */
  lemma QueryParts(aoi: string, toi: string, specs: string)
    requires '&' !in aoi && |Split(specs, '&')| == 3 && |Split(toi, '&')| == 2
    ensures var f := Split(CreateQuery(aoi, toi, specs), '&');
      |f| == 8 && f[0] == PLATFORM && f[4] == EscapeSpaces(aoi) && f[7] == OUTPUT
      && Join(f[1..4], '&') == specs && Join(f[5..7], '&') == toi
  {
    QueryFields(aoi, toi, specs);
    SplitNone(EscapeSpaces(aoi), '&');
    JoinSplit(specs, '&');
    JoinSplit(toi, '&');
    var sf, tf := Split(specs, '&'), Split(toi, '&');
    var f := [PLATFORM] + sf + [EscapeSpaces(aoi)] + tf + [OUTPUT];
    assert f[1..4] == sf;
    assert f[5..7] == tf;
  }
}

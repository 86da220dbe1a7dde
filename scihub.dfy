/** The Copernicus hub client (`ost/helpers/scihub.py`): the OpenSearch
  * query pieces, paging through result pages, resuming a download, and the
  * batch download with its completion markers. */
module Scihub {
  import opened Errors
  import opened Strings
  import Host
  import S1Scene

  // ------------------------------------------------------------ result pages

  /** A `<link>` element of a result page: its `rel` and `href` attributes. */
  datatype Link = Link(rel: string, href: string)

  /** The `href` of the last link whose `rel` is `rel`; None when no link
    * has it. */
  function LastHref(links: seq<Link>, rel: string): (r: Option<string>)
    ensures r.None? <==> forall k :: 0 <= k < |links| ==> links[k].rel != rel
    ensures r.Some? ==>
      exists k :: 0 <= k < |links| && links[k] == Link(rel, r.value) &&
                  forall j :: k < j < |links| ==> links[j].rel != rel
  {
    if |links| == 0 then None
    else
      var n := |links| - 1;
      if links[n].rel == rel then Some(links[n].href)
      else
        var r := LastHref(links[..n], rel);
        assert r.None? ==> forall k :: 0 <= k < |links| ==> links[k].rel != rel by {
          if r.None? {
            forall k | 0 <= k < |links| ensures links[k].rel != rel {
              if k < n { assert links[..n][k] == links[k]; }
            }
          }
        }
        assert r.Some? ==> (exists k :: 0 <= k < |links| && links[k] == Link(rel, r.value)
                                   && forall j :: k < j < |links| ==> links[j].rel != rel) by {
          if r.Some? {
            var k :| 0 <= k < n && links[..n][k] == Link(rel, r.value) && forall j :: k < j < n ==> links[..n][j].rel != rel;
            assert links[k] == links[..n][k];
            forall j | k < j < |links| ensures links[j].rel != rel {
              if j < n { assert links[..n][j] == links[j]; }
            }
          }
        }
        r
  }

  /** `next_page`: one pass over the links keeps the latest `next`, `self`
    * and `last` hrefs; the `next` one is returned unless the `last` and
    * `self` hrefs are equal, which includes both being absent. */
  method NextPage(links: seq<Link>) returns (r: Option<string>)
    ensures r.Some? <==> LastHref(links, "next").Some? && LastHref(links, "last") != LastHref(links, "self")
    ensures r.Some? ==> r == LastHref(links, "next")
  {
    var next, self, last := None, None, None;
    for i := 0 to |links|
      invariant next == LastHref(links[..i], "next")
      invariant self == LastHref(links[..i], "self")
      invariant last == LastHref(links[..i], "last")
    {
      assert links[..i + 1][..i] == links[..i];
      if links[i].rel == "next" {
        next := Some(links[i].href);
      } else if links[i].rel == "self" {
        self := Some(links[i].href);
      } else if links[i].rel == "last" {
        last := Some(links[i].href);
      }
    }
    assert links[..|links|] == links;
    if last == self {
      next := None;
    }
    r := next;
  }

  // ------------------------------------------------------------ query pieces

  /** The mission named by a mission identifier: the first of the digits 1,
    * 2, 3 and 5 it contains picks Sentinel-1, -2, -3 or -5; without any of
    * them the identifier is kept as it is. */
  function SatelliteName(sat: string): (r: string)
    ensures '1' in sat ==> r == "Sentinel-1"
    ensures '1' !in sat && '2' in sat ==> r == "Sentinel-2"
    ensures '1' !in sat && '2' !in sat && '3' in sat ==> r == "Sentinel-3"
    ensures '1' !in sat && '2' !in sat && '3' !in sat && '5' in sat ==> r == "Sentinel-5"
    ensures '1' !in sat && '2' !in sat && '3' !in sat && '5' !in sat ==> r == sat
  {
    if '1' in sat then "Sentinel-1"
    else if '2' in sat then "Sentinel-2"
    else if '3' in sat then "Sentinel-3"
    else if '5' in sat then "Sentinel-5"
    else sat
  }

  /** `create_satellite_string`: the platform clause of a query. */
  function CreateSatelliteString(sat: string): (r: string)
    ensures Between(r, "platformname:", "") == Some(SatelliteName(sat))
  {
    BetweenOf("platformname:", SatelliteName(sat), "");
    assert "platformname:" + SatelliteName(sat) + "" == "platformname:" + SatelliteName(sat);
    "platformname:" + SatelliteName(sat)
  }

  /** Naming a mission is idempotent: a full mission name names itself. */
  lemma SatelliteNameIdempotent(sat: string)
    ensures SatelliteName(SatelliteName(sat)) == SatelliteName(sat)
  {
    var r := SatelliteName(sat);
    if r == "Sentinel-2" {
      assert r[9] == '2' && '1' !in r;
    } else if r == "Sentinel-3" {
      assert r[9] == '3' && '1' !in r && '2' !in r;
    } else if r == "Sentinel-5" {
      assert r[9] == '5' && '1' !in r && '2' !in r && '3' !in r;
    } else if r == "Sentinel-1" {
      assert r[9] == '1';
    }
  }

  /** Both Sentinel-1 units are queried as the Sentinel-1 platform. */
  lemma Sentinel1Platform(missionId: string)
    requires S1Scene.Mission(missionId).Some?
    ensures CreateSatelliteString(missionId) == "platformname:Sentinel-1"
  {
    assert missionId[2 - 1] == '1';
  }

  /** Splitting at the single spaces around an `AND`. */
  lemma AndSplit(x: string, y: string)
    ensures Split(x + " AND " + y, ' ') == Split(x, ' ') + ["AND"] + Split(y, ' ')
  {
    assert " AND " == [' '] + "AND" + [' '];
    assert Free("AND", ' ');
    WordBetween(x, ' ', "AND", y);
  }

  /** A separator-free word between two separators is one field. */
  lemma WordBetween(x: string, c: char, w: string, y: string)
    requires Free(w, c)
    ensures Split(x + ([c] + w + [c]) + y, c) == Split(x, c) + [w] + Split(y, c)
  {
    var rest := w + [c] + y;
    assert x + ([c] + w + [c]) + y == x + [c] + rest;
    SplitConcat(x, c, rest);
    SplitAfter(w, c, y);
  }

  /** The first and last instants of the time of interest. */
  function ToiStart(start: string): string { start + "T00:00:00.000Z" }
  function ToiEnd(end: string): string { end + "T23:59:59.999Z" }

  /** A range clause `<name>:[<a> TO <b>]`. */
  function Range(name: string, a: string, b: string): string
  {
    name + ":[" + a + " TO " + b + "]"
  }

  /** `create_toi_str`: both the sensing start and the sensing end must lie
    * between the first instant of the start day and the last of the end day. */
  function CreateToiStr(start: string, end: string): string
  {
    Range("beginPosition", ToiStart(start), ToiEnd(end)) + " AND "
      + Range("endPosition", ToiStart(start), ToiEnd(end))
  }

  lemma RangeSplit(name: string, a: string, b: string)
    requires ' ' !in name && ' ' !in a && ' ' !in b
    ensures Split(Range(name, a, b), ' ') == [name + ":[" + a, "TO", b + "]"]
  {
    var x, y := name + ":[" + a, b + "]";
    assert Range(name, a, b) == x + [' '] + ("TO" + [' '] + y);
    FreeNotIn(x, ' ');
    assert Free("TO", ' ');
    SplitAfter(x, ' ', "TO" + [' '] + y);
    SplitAfter("TO", ' ', y);
    SplitNone(y, ' ');
  }

  lemma TwoRanges(n1: string, n2: string, a: string, b: string)
    requires ' ' !in n1 && ' ' !in n2 && ' ' !in a && ' ' !in b
    ensures Split(Range(n1, a, b) + " AND " + Range(n2, a, b), ' ')
      == [n1 + ":[" + a, "TO", b + "]", "AND", n2 + ":[" + a, "TO", b + "]"]
  {
    RangeSplit(n1, a, b);
    RangeSplit(n2, a, b);
    AndSplit(Range(n1, a, b), Range(n2, a, b));
  }

  /** Reading the start and end dates back from a time clause. */
  function ParseToi(q: string): Option<(string, string)>
  {
    var w := Split(q, ' ');
    if |w| != 7 || w[1] != "TO" || w[3] != "AND" || w[5] != "TO" then None
    else
      var s1 := Between(w[0], "beginPosition" + ":[", "T00:00:00.000Z");
      var e1 := Between(w[2], "", "T23:59:59.999Z" + "]");
      var s2 := Between(w[4], "endPosition" + ":[", "T00:00:00.000Z");
      var e2 := Between(w[6], "", "T23:59:59.999Z" + "]");
      if s1.Some? && e1.Some? && s1 == s2 && e1 == e2 then Some((s1.value, e1.value)) else None
  }

  /** The words of a time clause give back its dates. */
  lemma ParseToiWords(q: string, start: string, end: string)
    requires Split(q, ' ') == ["beginPosition" + ":[" + ToiStart(start), "TO", ToiEnd(end) + "]", "AND",
      "endPosition" + ":[" + ToiStart(start), "TO", ToiEnd(end) + "]"]
    ensures ParseToi(q) == Some((start, end))
  {
    assert "beginPosition" + ":[" + ToiStart(start) == "beginPosition" + ":[" + start + "T00:00:00.000Z";
    assert "endPosition" + ":[" + ToiStart(start) == "endPosition" + ":[" + start + "T00:00:00.000Z";
    assert ToiEnd(end) + "]" == end + ("T23:59:59.999Z" + "]");
    BetweenOf("beginPosition" + ":[", start, "T00:00:00.000Z");
    BetweenOf("endPosition" + ":[", start, "T00:00:00.000Z");
    BetweenOf("", end, "T23:59:59.999Z" + "]");
    assert "" + end + ("T23:59:59.999Z" + "]") == end + ("T23:59:59.999Z" + "]");
  }

  /** The time clause names its dates unambiguously: dates without spaces
    * are read back from it. */
  lemma ToiRoundTrip(start: string, end: string)
    requires ' ' !in start && ' ' !in end
    ensures ParseToi(CreateToiStr(start, end)) == Some((start, end))
  {
    var a, b := ToiStart(start), ToiEnd(end);
    var n1, n2 := "beginPosition", "endPosition";
    assert ' ' !in n1 && ' ' !in n2;
    assert ' ' !in "T00:00:00.000Z" && ' ' !in "T23:59:59.999Z";
    assert ' ' !in a && ' ' !in b;
    TwoRanges(n1, n2, a, b);
    ParseToiWords(CreateToiStr(start, end), start, end);
  }

  /** A clause `<key>:<value>`. */
  function Clause(key: string, value: string): string
  {
    key + ":" + value
  }

  /** `create_s1_product_specs`: product type, polarisation mode and sensor
    * mode clauses joined by AND. */
  function CreateS1ProductSpecs(productType: string, polarisation: string, beam: string): string
  {
    Clause("producttype", productType) + " AND " + Clause("polarisationMode", polarisation)
      + " AND " + Clause("sensoroperationalmode", beam)
  }

  lemma ThreeClauses(k1: string, k2: string, k3: string, a: string, b: string, c: string)
    requires ' ' !in k1 && ' ' !in k2 && ' ' !in k3 && ' ' !in a && ' ' !in b && ' ' !in c
    ensures Split(Clause(k1, a) + " AND " + Clause(k2, b) + " AND " + Clause(k3, c), ' ')
      == [k1 + ":" + a, "AND", k2 + ":" + b, "AND", k3 + ":" + c]
  {
    AndSplit(Clause(k1, a) + " AND " + Clause(k2, b), Clause(k3, c));
    AndSplit(Clause(k1, a), Clause(k2, b));
    SplitNone(Clause(k1, a), ' ');
    SplitNone(Clause(k2, b), ' ');
    SplitNone(Clause(k3, c), ' ');
  }

  /** Reading product type, polarisation and beam back from a specs clause. */
  function ParseS1ProductSpecs(q: string): Option<(string, string, string)>
  {
    var w := Split(q, ' ');
    if |w| != 5 || w[1] != "AND" || w[3] != "AND" then None
    else
      var t := Between(w[0], "producttype" + ":", "");
      var p := Between(w[2], "polarisationMode" + ":", "");
      var b := Between(w[4], "sensoroperationalmode" + ":", "");
      if t.Some? && p.Some? && b.Some? then Some((t.value, p.value, b.value)) else None
  }

  /** The value of a clause without a suffix is what follows its key. */
  lemma ClauseValue(key: string, value: string)
    ensures Between(key + ":" + value, key + ":", "") == Some(value)
  {
    BetweenOf(key + ":", value, "");
    assert key + ":" + value + "" == key + ":" + value;
  }

  /** The specs clause names its three settings unambiguously. */
  lemma SpecsRoundTrip(productType: string, polarisation: string, beam: string)
    requires ' ' !in productType && ' ' !in polarisation && ' ' !in beam
    ensures ParseS1ProductSpecs(CreateS1ProductSpecs(productType, polarisation, beam))
      == Some((productType, polarisation, beam))
  {
    var k1, k2, k3 := "producttype", "polarisationMode", "sensoroperationalmode";
    assert ' ' !in k1 && ' ' !in k2 && ' ' !in k3;
    ThreeClauses(k1, k2, k3, productType, polarisation, beam);
    ClauseValue(k1, productType);
    ClauseValue(k2, polarisation);
    ClauseValue(k3, beam);
  }

  // ------------------------------------------------------------ resuming a download

  /** The hub's answer to a product request: its status code and its
    * `content-length` header (0 when the header is absent). */
  datatype Reply = Reply(status: int, contentLength: nat)

  /** The `Range` header that asks for the rest of a partial archive. */
  function RangeHeader(first: nat, total: nat): string
  {
    "bytes=" + NatToString(first) + "-" + NatToString(total)
  }

  /** Reading the first and last byte positions back from a `Range` header. */
  function ParseRange(h: string): Option<(nat, nat)>
  {
    var body := Between(h, "bytes=", "");
    if body.None? then None
    else
      var parts := Split(body.value, '-');
      if |parts| != 2 then None
      else
        var first, total := ParseNat(parts[0]), ParseNat(parts[1]);
        if first.Success? && total.Success? then Some((first.value, total.value)) else None
  }

  /** A `Range` header reads back as the positions it was made from. */
  lemma RangeRoundTrip(first: nat, total: nat)
    ensures ParseRange(RangeHeader(first, total)) == Some((first, total))
  {
    var a, b := NatToString(first), NatToString(total);
    var body := a + "-" + b;
    BetweenOf("bytes=", body, "");
    assert RangeHeader(first, total) == "bytes=" + body + "";
    RangeFields(a, b);
    ParseNatToString(first);
    ParseNatToString(total);
  }

  /** Two digit strings joined by `-` split back into the two. */
  lemma RangeFields(a: string, b: string)
    requires AllDigits(a) && AllDigits(b)
    ensures Split(a + "-" + b, '-') == [a, b]
  {
    DigitsFree(a, '-');
    DigitsFree(b, '-');
    assert a + "-" + b == a + ['-'] + b;
    SplitAfter(a, '-', b);
    FreeNotIn(b, '-');
    SplitNone(b, '-');
  }

  /** A digit string holds no other character. */
  lemma DigitsFree(s: string, c: char)
    requires AllDigits(s) && !IsDigit(c)
    ensures Free(s, c)
  {
  }

  /** What a request does with the archive already on disk. */
  datatype Resumption = Complete | Partial(range: string)

  /** The first request of `s1_download`: a status other than 200 raises
    * ValueError (401 for bad credentials as any other); an archive at
    * least as long as the announced content is complete, so nothing is
    * fetched; otherwise the rest is asked for from the archive's size on. */
  function Resume(reply: Reply, existing: nat): (r: Result<Resumption>)
    ensures r.Failure? <==> reply.status != 200
    ensures r.Failure? ==> r.error == ValueError
    ensures r == Success(Complete) <==> reply.status == 200 && existing >= reply.contentLength
    ensures r.Success? && r.value.Partial? ==> existing < reply.contentLength
  {
    if reply.status != 200 then Failure(ValueError)
    else if existing >= reply.contentLength then Success(Complete)
    else Success(Partial(RangeHeader(existing, reply.contentLength)))
  }

  /** A resumed download asks for the bytes from the archive's size up to
    * the announced length. */
  lemma ResumeRange(reply: Reply, existing: nat)
    requires Resume(reply, existing).Success? && Resume(reply, existing).value.Partial?
    ensures ParseRange(Resume(reply, existing).value.range) == Some((existing, reply.contentLength))
  {
    RangeRoundTrip(existing, reply.contentLength);
  }

  // ------------------------------------------------------------ one download

  /** The size of a file, 0 when it does not exist. */
  function Size(files: map<string, nat>, p: string): nat
  {
    if p in files then files[p] else 0
  }

  /** `Path(p).with_suffix('.downloaded')` for a `.zip` archive, the only
    * kind a download writes: the `.zip` suffix is replaced. Any other path
    * gets `.downloaded` appended, which is what `with_suffix` does only for
    * a path without a suffix. */
  function ArchiveMarker(path: string): (r: string)
    ensures r != path && EndsWith(r, ".downloaded")
  {
    var r := (if EndsWith(path, ".zip") then path[..|path| - 4] else path) + ".downloaded";
    assert r[|r| - 11..] == ".downloaded";
    if EndsWith(path, ".zip") then
      assert path[|path| - 4..] == ".zip" && r[|r| - 4..] == "aded";
      r
    else r
  }

  /** The text of a completion marker. */
  const DOWNLOADED_TEXT := "successfully downloaded \n"

  /** A product to fetch: its hub uuid and the archive path. */
  datatype Task = Task(uuid: string, path: string)

  /** The outcome of one request and the files afterwards. */
  datatype Step = Step(result: Result<()>, files: map<string, nat>)

  /** Nothing but the archive and its marker changes. */
  ghost predicate OnlyTouches(before: map<string, nat>, after: map<string, nat>, path: string)
  {
    forall p :: p != path && p != ArchiveMarker(path) ==>
      (p in after <==> p in before) && (p in before ==> after[p] == before[p])
  }

  /** One call of `s1_download` for `t`, given the hub's reply and whether
    * the archive passes the zip test: a complete archive is left alone and
    * the call succeeds without writing a marker; otherwise the rest is
    * appended, and the archive either passes the test and gets its
    * `.downloaded` marker, or is deleted and DownloadError raised. */
  function AttemptEffect(files: map<string, nat>, t: Task, reply: Reply, intact: bool): (s: Step)
    ensures s.result.Failure? <==> reply.status != 200 || (Size(files, t.path) < reply.contentLength && !intact)
    ensures s.result.Failure? ==> s.result.error == (if reply.status != 200 then ValueError else DownloadError)
    ensures s.result.Success? ==> Size(s.files, t.path) >= reply.contentLength
    ensures s.result.Success? ==> (s.files == files <==> Size(files, t.path) >= reply.contentLength)
    ensures s.result.Success? && Size(files, t.path) < reply.contentLength ==> ArchiveMarker(t.path) in s.files
    ensures reply.status != 200 ==> s.files == files
    ensures OnlyTouches(files, s.files, t.path)
  {
    match Resume(reply, Size(files, t.path))
    case Failure(e) => Step(Failure(e), files)
    case Success(Complete) => Step(Success(()), files)
    case Success(Partial(_)) =>
      if intact then
        var after := files[t.path := reply.contentLength][ArchiveMarker(t.path) := |DOWNLOADED_TEXT|];
        assert after[t.path] == reply.contentLength;
        assert Size(after, t.path) != Size(files, t.path);
        Step(Success(()), after)
      else Step(Failure(DownloadError), files - {t.path})
  }

  /** The hub as seen by the downloads: the reply to the request numbered
    * `n` for a product, and whether the archive passes the zip test after
    * that request. */
  datatype Hub = Hub(reply: (string, nat) -> Reply, intact: (string, nat) -> bool)

  /** `@retry(tries=7)`: the download is re-run after each raised error,
    * at most this many times in all. */
  const TRIES := 7

  /** The outcome of a retried download, the files afterwards, and the
    * number of requests made so far. */
  datatype Fetch = Fetch(result: Result<()>, files: map<string, nat>, requests: nat)

  /** `s1_download` under the retry decorator, starting at request `n`. */
  function Retry(hub: Hub, files: map<string, nat>, n: nat, t: Task, tries: nat): (d: Fetch)
    requires tries >= 1
    decreases tries
  {
    var s := AttemptEffect(files, t, hub.reply(t.uuid, n), hub.intact(t.uuid, n));
    if s.result.Success? || tries == 1 then Fetch(s.result, s.files, n + 1)
    else Retry(hub, s.files, n + 1, t, tries - 1)
  }

  /** A retried download makes at least one request and at most `tries`;
    * it fails only after all of them, with the last error. */
  lemma {:induction false} RetryRequests(hub: Hub, files: map<string, nat>, n: nat, t: Task, tries: nat)
    requires tries >= 1
    ensures var d := Retry(hub, files, n, t, tries);
      n < d.requests <= n + tries
      && (d.result.Failure? ==> d.requests == n + tries && d.result.error in {ValueError, DownloadError})
    decreases tries
  {
    var s := AttemptEffect(files, t, hub.reply(t.uuid, n), hub.intact(t.uuid, n));
    RetryUnfold(hub, files, n, t, tries, Retry(hub, files, n, t, tries), s);
    if !(s.result.Success? || tries == 1) {
      RetryRequests(hub, s.files, n + 1, t, tries - 1);
    }
  }

  /** A retried download succeeds only on an answer 200 whose announced
    * length the archive then holds. */
  lemma {:induction false} RetrySuccess(hub: Hub, files: map<string, nat>, n: nat, t: Task, tries: nat)
    requires tries >= 1
    ensures var d := Retry(hub, files, n, t, tries);
      d.result.Success? ==>
        d.requests >= 1
        && hub.reply(t.uuid, d.requests - 1).status == 200
        && Size(d.files, t.path) >= hub.reply(t.uuid, d.requests - 1).contentLength
    decreases tries
  {
    var s := AttemptEffect(files, t, hub.reply(t.uuid, n), hub.intact(t.uuid, n));
    RetryUnfold(hub, files, n, t, tries, Retry(hub, files, n, t, tries), s);
    if !(s.result.Success? || tries == 1) {
      RetrySuccess(hub, s.files, n + 1, t, tries - 1);
    }
  }

  /** Touching only an archive and its marker, twice, touches only them. */
  lemma OnlyTouchesTrans(a: map<string, nat>, b: map<string, nat>, c: map<string, nat>, path: string)
    requires OnlyTouches(a, b, path) && OnlyTouches(b, c, path)
    ensures OnlyTouches(a, c, path)
  {
  }

  /** A retried download touches nothing but the archive and its marker. */
  lemma {:induction false} RetryTouches(hub: Hub, files: map<string, nat>, n: nat, t: Task, tries: nat)
    requires tries >= 1
    ensures OnlyTouches(files, Retry(hub, files, n, t, tries).files, t.path)
    decreases tries
  {
    var s := AttemptEffect(files, t, hub.reply(t.uuid, n), hub.intact(t.uuid, n));
    RetryUnfold(hub, files, n, t, tries, Retry(hub, files, n, t, tries), s);
    if !(s.result.Success? || tries == 1) {
      RetryTouches(hub, s.files, n + 1, t, tries - 1);
      OnlyTouchesTrans(files, s.files, Retry(hub, files, n, t, tries).files, t.path);
    }
  }

  /** An archive already as long as the hub announces is not fetched again:
    * the download succeeds on the first request and changes nothing. */
  lemma CompleteNotFetched(hub: Hub, files: map<string, nat>, n: nat, t: Task)
    requires hub.reply(t.uuid, n).status == 200 && Size(files, t.path) >= hub.reply(t.uuid, n).contentLength
    ensures Retry(hub, files, n, t, TRIES) == Fetch(Success(()), files, n + 1)
  {
  }

  lemma RetryUnfold(hub: Hub, files: map<string, nat>, n: nat, t: Task, tries: nat, goal: Fetch, s: Step)
    requires tries >= 1 && Retry(hub, files, n, t, tries) == goal
    requires s == AttemptEffect(files, t, hub.reply(t.uuid, n), hub.intact(t.uuid, n))
    ensures s.result.Success? || tries == 1 ==> Fetch(s.result, s.files, n + 1) == goal
    ensures !(s.result.Success? || tries == 1) ==> Retry(hub, s.files, n + 1, t, tries - 1) == goal
  {
  }

  /** The download directory as `s1_download` changes it: file sizes, the
    * requests made to the hub so far, and the hub's behaviour. */
  class DownloadArea {
    var files: map<string, nat>
    var requests: nat
    const hub: Hub

    constructor (files0: map<string, nat>, hub0: Hub)
      ensures files == files0 && requests == 0 && hub == hub0
    {
      files := files0;
      requests := 0;
      hub := hub0;
    }

    /** One call of `s1_download`. */
    method Attempt(t: Task) returns (r: Result<()>)
      modifies this
      ensures requests == old(requests) + 1
      ensures Step(r, files) == AttemptEffect(old(files), t, hub.reply(t.uuid, old(requests)),
                                              hub.intact(t.uuid, old(requests)))
    {
      var reply := hub.reply(t.uuid, requests);
      var intact := hub.intact(t.uuid, requests);
      requests := requests + 1;
      var firstByte := if t.path in files then files[t.path] else 0;
      var resumption := Resume(reply, firstByte);
      if resumption.Failure? {
        r := Failure(resumption.error);
        return;
      }
      if resumption.value.Complete? {
        r := Success(());
        return;
      }
      files := files[t.path := reply.contentLength];
      if intact {
        files := files[ArchiveMarker(t.path) := |DOWNLOADED_TEXT|];
        r := Success(());
      } else {
        files := files - {t.path};
        r := Failure(DownloadError);
      }
    }

    /** `s1_download` under `@retry(tries=7)`. */
    method S1Download(t: Task) returns (r: Result<()>)
      modifies this
      ensures Fetch(r, files, requests) == Retry(hub, old(files), old(requests), t, TRIES)
    {
      var left: nat := TRIES;
      ghost var goal := Retry(hub, files, requests, t, left);
      r := Failure(DownloadError);
      while left > 0
        invariant if left > 0 then Retry(hub, files, requests, t, left) == goal else Fetch(r, files, requests) == goal
      {
        ghost var f0, n0 := files, requests;
        r := Attempt(t);
        RetryUnfold(hub, f0, n0, t, left, goal, Step(r, files));
        if r.Success? {
          left := 0;
        } else {
          left := left - 1;
        }
      }
    }
  }

  // ------------------------------------------------------------ batch download

  /** An inventory row: the scene identifier and the product's hub uuid. */
  datatype Row = Row(identifier: string, uuid: string)

  /** The `uuid` column filtered by identifier, first element: the uuid of
    * the first row with that identifier, IndexError when no row has it. */
  function UuidOf(inv: seq<Row>, id: string): (r: Result<string>)
    ensures r.Success? <==> exists k :: 0 <= k < |inv| && inv[k].identifier == id
    ensures r.Failure? ==> r.error == IndexError
    ensures r.Success? ==> exists k :: 0 <= k < |inv| && inv[k] == Row(id, r.value) &&
                                       forall j :: 0 <= j < k ==> inv[j].identifier != id
  {
    if |inv| == 0 then Failure(IndexError)
    else if inv[0].identifier == id then Success(inv[0].uuid)
    else
      var r := UuidOf(inv[1..], id);
      assert forall k :: 0 < k < |inv| ==> inv[k] == inv[1..][k - 1];
      if r.Success? then
        var k :| 0 <= k < |inv| - 1 && inv[1..][k] == Row(id, r.value) &&
                 forall j :: 0 <= j < k ==> inv[1..][j].identifier != id;
        assert inv[k + 1] == Row(id, r.value);
        r
      else r
  }

  /** The marker `batch_download` looks for: the archive path with
    * `.downloaded` appended. */
  function CheckedMarker(path: string): string
  {
    path + ".downloaded"
  }

  /** Which marker a batch looks for before queueing a scene: the one the
    * code checks, or the one `s1_download` writes. */
  datatype MarkerRule = AppendedMarker | ArchiveSuffixMarker

  function SkipMarker(path: string, rule: MarkerRule): string
  {
    if rule == AppendedMarker then CheckedMarker(path) else ArchiveMarker(path)
  }

  /** One row of the inventory: the scene is parsed and its archive path
    * found; it is queued with its uuid unless its marker exists. */
  function QueueStep(inv: seq<Row>, row: Row, dir: string, files: map<string, nat>, rule: MarkerRule)
    : Result<seq<Task>>
  {
    var scene :- S1Scene.Parse(row.identifier);
    var path := S1Scene.DownloadPath(dir, scene);
    if SkipMarker(path, rule) in files then Success([])
    else
      var uuid :- UuidOf(inv, row.identifier);
      Success([Task(uuid, path)])
  }

  /** The download list built from the outcomes of the rows in order; the
    * first row that raised stops it. */
  function Collect(steps: seq<Result<seq<Task>>>): (r: Result<seq<Task>>)
    requires forall k :: 0 <= k < |steps| && steps[k].Success? ==> |steps[k].value| <= 1
    ensures r.Success? <==> forall k :: 0 <= k < |steps| ==> steps[k].Success?
    ensures r.Failure? ==> exists k :: 0 <= k < |steps| && steps[k] == Failure(r.error)
    ensures r.Success? ==> |r.value| <= |steps|
    ensures r.Success? ==> (|r.value| == |steps| <==> forall k :: 0 <= k < |steps| ==> steps[k].value != [])
    ensures r.Success? ==> (r.value == [] <==> forall k :: 0 <= k < |steps| ==> steps[k].value == [])
    ensures r.Success? ==> forall x :: x in r.value ==> exists k :: 0 <= k < |steps| && x in steps[k].value
    decreases |steps|
  {
    if |steps| == 0 then Success([])
    else
      var n := |steps| - 1;
      var prev := Collect(steps[..n]);
      assert forall k :: 0 <= k < n ==> steps[..n][k] == steps[k];
      if prev.Failure? then prev
      else if steps[n].Failure? then Failure(steps[n].error)
      else Success(prev.value + steps[n].value)
  }

  /** Each row's outcome. */
  function Steps(inv: seq<Row>, rows: seq<Row>, dir: string, files: map<string, nat>, rule: MarkerRule)
    : (r: seq<Result<seq<Task>>>)
    ensures |r| == |rows|
    ensures forall k :: 0 <= k < |r| && r[k].Success? ==> |r[k].value| <= 1
  {
    seq(|rows|, k requires 0 <= k < |rows| => QueueStep(inv, rows[k], dir, files, rule))
  }

  lemma StepsAt(inv: seq<Row>, rows: seq<Row>, dir: string, files: map<string, nat>, rule: MarkerRule, k: nat)
    requires k < |rows|
    ensures Steps(inv, rows, dir, files, rule)[k] == QueueStep(inv, rows[k], dir, files, rule)
  {
  }

  /** The download list `batch_download` builds from the inventory. */
  function Queue(inv: seq<Row>, dir: string, files: map<string, nat>, rule: MarkerRule): Result<seq<Task>>
  {
    Collect(Steps(inv, inv, dir, files, rule))
  }

  /** The outcome of the downloads of a list, the files afterwards, and the
    * requests made so far. */
  datatype Run = Run(result: Result<nat>, files: map<string, nat>, requests: nat)

  /** The executor's loop: each task's download is awaited in list order
    * and counted; the first that raises ends the batch with its error. */
  function RunAll(hub: Hub, files: map<string, nat>, n: nat, tasks: seq<Task>): (r: Run)
    ensures r.result.Success? ==> r.result.value == |tasks| && n + |tasks| <= r.requests <= n + TRIES * |tasks|
    ensures r.result.Failure? ==> r.result.error in {ValueError, DownloadError}
    decreases |tasks|
  {
    if |tasks| == 0 then Run(Success(0), files, n)
    else
      var prev := RunAll(hub, files, n, tasks[..|tasks| - 1]);
      if prev.result.Failure? then prev
      else
        var d := Retry(hub, prev.files, prev.requests, tasks[|tasks| - 1], TRIES);
        RetryRequests(hub, prev.files, prev.requests, tasks[|tasks| - 1], TRIES);
        if d.result.Failure? then Run(Failure(d.result.error), d.files, d.requests)
        else Run(Success(prev.result.value + 1), d.files, d.requests)
  }

  /** The outcome of a whole batch, the files afterwards, and the requests
    * made so far. */
  datatype Batch = Batch(result: Result<()>, files: map<string, nat>, requests: nat)

  /** `batch_download` as written: scenes with an appended marker are not
    * queued, and the batch fails unless the number of completed downloads
    * equals the number of inventory rows. */
  function BatchAsWritten(hub: Hub, files: map<string, nat>, n: nat, inv: seq<Row>, dir: string): Batch
  {
    match Queue(inv, dir, files, AppendedMarker)
    case Failure(e) => Batch(Failure(e), files, n)
    case Success(tasks) =>
      var run := RunAll(hub, files, n, tasks);
      if run.result.Failure? then Batch(Failure(run.result.error), run.files, run.requests)
      else if |inv| == run.result.value then Batch(Success(()), run.files, run.requests)
      else Batch(Failure(DownloadError), run.files, run.requests)
  }

  /** `batch_download` as intended: scenes carrying the marker a download
    * writes are not queued, and the batch fails unless every queued
    * download completed. */
  function BatchOutcome(hub: Hub, files: map<string, nat>, n: nat, inv: seq<Row>, dir: string): Batch
  {
    match Queue(inv, dir, files, ArchiveSuffixMarker)
    case Failure(e) => Batch(Failure(e), files, n)
    case Success(tasks) =>
      var run := RunAll(hub, files, n, tasks);
      if run.result.Failure? then Batch(Failure(run.result.error), run.files, run.requests)
      else if |tasks| == run.result.value then Batch(Success(()), run.files, run.requests)
      else Batch(Failure(DownloadError), run.files, run.requests)
  }

  /** One row of the inventory, as the loop body of `batch_download`. */
  method QueueRow(inv: seq<Row>, row: Row, dir: string, files: map<string, nat>, rule: MarkerRule)
    returns (r: Result<seq<Task>>)
    ensures r == QueueStep(inv, row, dir, files, rule)
  {
    var scene := S1Scene.Parse(row.identifier);
    if scene.Failure? {
      return Failure(scene.error);
    }
    var path := S1Scene.DownloadPath(dir, scene.value);
    if SkipMarker(path, rule) in files {
      return Success([]);
    }
    var uuid := UuidOf(inv, row.identifier);
    if uuid.Failure? {
      return Failure(IndexError);
    }
    r := Success([Task(uuid.value, path)]);
  }

  /** The download list, built row by row. */
  method QueueDownloads(area: DownloadArea, inv: seq<Row>, dir: string, rule: MarkerRule)
    returns (r: Result<seq<Task>>)
    ensures r == Queue(inv, dir, area.files, rule)
  {
    var files := area.files;
    var tasks := [];
    for i := 0 to |inv|
      invariant QueuedUpTo(inv, dir, files, rule, i) == Success(tasks)
    {
      var step := QueueRow(inv, inv[i], dir, files, rule);
      QueueNext(inv, dir, files, rule, i, tasks);
      if step.Failure? {
        return Failure(step.error);
      }
      tasks := tasks + step.value;
    }
    QueueAll(inv, dir, files, rule);
    r := Success(tasks);
  }

  /** The download list from the first `i` rows. */
  function QueuedUpTo(inv: seq<Row>, dir: string, files: map<string, nat>, rule: MarkerRule, i: nat)
    : Result<seq<Task>>
    requires i <= |inv|
  {
    Collect(Steps(inv, inv, dir, files, rule)[..i])
  }

  lemma QueueAll(inv: seq<Row>, dir: string, files: map<string, nat>, rule: MarkerRule)
    ensures QueuedUpTo(inv, dir, files, rule, |inv|) == Queue(inv, dir, files, rule)
  {
    var steps := Steps(inv, inv, dir, files, rule);
    assert steps[..|inv|] == steps;
  }

  /** One more row after rows that all passed: its outcome extends the
    * list, or its error is the outcome of the whole inventory. */
  lemma QueueNext(inv: seq<Row>, dir: string, files: map<string, nat>, rule: MarkerRule, i: nat, tasks: seq<Task>)
    requires i < |inv| && QueuedUpTo(inv, dir, files, rule, i) == Success(tasks)
    ensures var s := QueueStep(inv, inv[i], dir, files, rule);
      (s.Failure? ==> Queue(inv, dir, files, rule) == Failure(s.error))
      && (s.Success? ==> QueuedUpTo(inv, dir, files, rule, i + 1) == Success(tasks + s.value))
  {
    var steps := Steps(inv, inv, dir, files, rule);
    StepsAt(inv, inv, dir, files, rule, i);
    CollectNext(steps, i, tasks);
    if steps[i].Failure? {
      CollectFailure(steps, i + 1);
    }
  }

  /** One more row's outcome after rows that all passed. */
  lemma CollectNext(steps: seq<Result<seq<Task>>>, i: nat, tasks: seq<Task>)
    requires forall k :: 0 <= k < |steps| && steps[k].Success? ==> |steps[k].value| <= 1
    requires i < |steps| && Collect(steps[..i]) == Success(tasks)
    ensures Collect(steps[..i + 1])
      == if steps[i].Failure? then Failure(steps[i].error) else Success(tasks + steps[i].value)
  {
    assert steps[..i + 1][..i] == steps[..i];
  }

  /** Once a row has raised, the rows after it do not change the outcome. */
  lemma {:induction false} CollectFailure(steps: seq<Result<seq<Task>>>, m: nat)
    requires forall k :: 0 <= k < |steps| && steps[k].Success? ==> |steps[k].value| <= 1
    requires 0 < m <= |steps| && Collect(steps[..m]).Failure?
    ensures Collect(steps) == Collect(steps[..m])
    decreases |steps| - m
  {
    if m < |steps| {
      assert steps[..m + 1][..m] == steps[..m];
      CollectFailure(steps, m + 1);
    } else {
      assert steps[..m] == steps;
    }
  }

  /** The executor's loop over the download list. */
  method RunDownloads(area: DownloadArea, tasks: seq<Task>) returns (r: Result<nat>)
    modifies area
    ensures Run(r, area.files, area.requests) == RunAll(area.hub, old(area.files), old(area.requests), tasks)
  {
    var count := 0;
    for i := 0 to |tasks|
      invariant Run(Success(count), area.files, area.requests)
        == RunAll(area.hub, old(area.files), old(area.requests), tasks[..i])
    {
      assert tasks[..i + 1][..i] == tasks[..i];
      var d := area.S1Download(tasks[i]);
      if d.Failure? {
        r := Failure(d.error);
        RunFailure(area.hub, old(area.files), old(area.requests), tasks, i + 1);
        return;
      }
      count := count + 1;
    }
    assert tasks[..|tasks|] == tasks;
    r := Success(count);
  }

  /** A download that raises ends the loop with its error. */
  lemma {:induction false} RunFailure(hub: Hub, files: map<string, nat>, n: nat, tasks: seq<Task>, m: nat)
    requires 0 < m <= |tasks| && RunAll(hub, files, n, tasks[..m]).result.Failure?
    ensures RunAll(hub, files, n, tasks) == RunAll(hub, files, n, tasks[..m])
    decreases |tasks| - m
  {
    if m < |tasks| {
      assert tasks[..m + 1][..m] == tasks[..m];
      RunFailure(hub, files, n, tasks, m + 1);
    } else {
      assert tasks[..m] == tasks;
    }
  }

  /** `batch_download` as written. */
  method BatchDownloadAsWritten(area: DownloadArea, inv: seq<Row>, dir: string) returns (r: Result<()>)
    modifies area
    ensures Batch(r, area.files, area.requests) == BatchAsWritten(area.hub, old(area.files), old(area.requests), inv, dir)
  {
    var queue := QueueDownloads(area, inv, dir, AppendedMarker);
    if queue.Failure? {
      return Failure(queue.error);
    }
    var run := RunDownloads(area, queue.value);
    if run.Failure? {
      return Failure(run.error);
    }
    if |inv| == run.value {
      r := Success(());
    } else {
      r := Failure(DownloadError);
    }
  }

  /** `batch_download` with the marker check and the completion count
    * corrected. */
  method BatchDownload(area: DownloadArea, inv: seq<Row>, dir: string) returns (r: Result<()>)
    modifies area
    ensures Batch(r, area.files, area.requests) == BatchOutcome(area.hub, old(area.files), old(area.requests), inv, dir)
  {
    var queue := QueueDownloads(area, inv, dir, ArchiveSuffixMarker);
    if queue.Failure? {
      return Failure(queue.error);
    }
    var run := RunDownloads(area, queue.value);
    if run.Failure? {
      return Failure(run.error);
    }
    if |queue.value| == run.value {
      r := Success(());
    } else {
      r := Failure(DownloadError);
    }
  }

  // ------------------------------------------------------------ batch lemmas

  /** The archive path and the marker of a scene differ only in the
    * extension of the last field. */
  lemma {:induction false} ScenePaths(dir: string, s: S1Scene.Scene)
    ensures S1Scene.DownloadPath(dir, s) == Host.PathJoin(dir, Join(S1Scene.DownloadFields(s, ""), '/')) + ".zip"
    ensures S1Scene.DownloadMarker(dir, s) == Host.PathJoin(dir, Join(S1Scene.DownloadFields(s, ""), '/')) + ".downloaded"
  {
    var f := S1Scene.DownloadFields(s, "");
    assert s.sceneId + "" == s.sceneId;
    assert S1Scene.DownloadFields(s, ".zip") == f[..5] + [f[5] + ".zip"];
    assert S1Scene.DownloadFields(s, ".downloaded") == f[..5] + [f[5] + ".downloaded"];
    JoinExtendLast(f, '/', ".zip");
    JoinExtendLast(f, '/', ".downloaded");
    var j := Join(f, '/');
    assert dir + "/" + (j + ".zip") == dir + "/" + j + ".zip";
    assert dir + "/" + (j + ".downloaded") == dir + "/" + j + ".downloaded";
  }

  /** A completed download leaves exactly the scene's marker beside its
    * archive, while `batch_download` looks for a different name: the
    * archive path with `.downloaded` appended. */
  lemma MarkerNotChecked(dir: string, s: S1Scene.Scene)
    ensures ArchiveMarker(S1Scene.DownloadPath(dir, s)) == S1Scene.DownloadMarker(dir, s)
    ensures CheckedMarker(S1Scene.DownloadPath(dir, s)) != S1Scene.DownloadMarker(dir, s)
  {
    ScenePaths(dir, s);
    var stem := Host.PathJoin(dir, Join(S1Scene.DownloadFields(s, ""), '/'));
    var path := stem + ".zip";
    assert path[|path| - 4..] == ".zip";
    assert path[..|path| - 4] == stem;
    assert |CheckedMarker(path)| == |stem| + 15;
  }

  /** A scene whose download completed is queued again by the code as
    * written, and skipped when the marker a download writes is looked for. */
  lemma CompletedSceneRequeued(inv: seq<Row>, row: Row, dir: string, files: map<string, nat>)
    requires S1Scene.Parse(row.identifier).Success?
    requires S1Scene.DownloadMarker(dir, S1Scene.Parse(row.identifier).value) in files
    requires CheckedMarker(S1Scene.DownloadPath(dir, S1Scene.Parse(row.identifier).value)) !in files
    requires UuidOf(inv, row.identifier).Success?
    ensures QueueStep(inv, row, dir, files, AppendedMarker)
         == Success([Task(UuidOf(inv, row.identifier).value, S1Scene.DownloadPath(dir, S1Scene.Parse(row.identifier).value))])
    ensures QueueStep(inv, row, dir, files, ArchiveSuffixMarker) == Success([])
  {
    MarkerNotChecked(dir, S1Scene.Parse(row.identifier).value);
  }

  /** The task a row queues is its uuid with the scene's archive path. */
  lemma RowTask(inv: seq<Row>, row: Row, dir: string, files: map<string, nat>, rule: MarkerRule, t: Task)
    requires QueueStep(inv, row, dir, files, rule).Success? && t in QueueStep(inv, row, dir, files, rule).value
    ensures S1Scene.Parse(row.identifier).Success? && UuidOf(inv, row.identifier) == Success(t.uuid)
    ensures t.path == S1Scene.DownloadPath(dir, S1Scene.Parse(row.identifier).value)
  {
  }

  /** Every queued task is a row's uuid with the scene's archive path. */
  lemma QueuedTasks(inv: seq<Row>, dir: string, files: map<string, nat>, rule: MarkerRule, t: Task)
    requires Queue(inv, dir, files, rule).Success? && t in Queue(inv, dir, files, rule).value
    ensures
      exists k :: 0 <= k < |inv| && S1Scene.Parse(inv[k].identifier).Success?
        && UuidOf(inv, inv[k].identifier) == Success(t.uuid)
        && t.path == S1Scene.DownloadPath(dir, S1Scene.Parse(inv[k].identifier).value)
  {
    var steps := Steps(inv, inv, dir, files, rule);
    assert Collect(steps) == Queue(inv, dir, files, rule);
    var k :| 0 <= k < |steps| && t in steps[k].value;
    StepsAt(inv, inv, dir, files, rule, k);
    RowTask(inv, inv[k], dir, files, rule, t);
  }

  /** A scene whose download completed is skipped by the corrected batch. */
  lemma RowSkipped(inv: seq<Row>, row: Row, dir: string, files: map<string, nat>)
    requires S1Scene.Parse(row.identifier).Success?
    requires S1Scene.DownloadMarker(dir, S1Scene.Parse(row.identifier).value) in files
    ensures QueueStep(inv, row, dir, files, ArchiveSuffixMarker) == Success([])
  {
    MarkerNotChecked(dir, S1Scene.Parse(row.identifier).value);
  }

  /** Scenes whose download completed are all skipped: the corrected batch
    * makes no request and changes nothing. */
  lemma MarkedScenesSkipped(hub: Hub, files: map<string, nat>, n: nat, inv: seq<Row>, dir: string)
    requires forall k :: 0 <= k < |inv| ==> S1Scene.Parse(inv[k].identifier).Success?
    requires forall k :: 0 <= k < |inv| ==>
      S1Scene.DownloadMarker(dir, S1Scene.Parse(inv[k].identifier).value) in files
    ensures BatchOutcome(hub, files, n, inv, dir) == Batch(Success(()), files, n)
  {
    var steps := Steps(inv, inv, dir, files, ArchiveSuffixMarker);
    forall k | 0 <= k < |steps| ensures steps[k] == Success([]) {
      StepsAt(inv, inv, dir, files, ArchiveSuffixMarker, k);
      RowSkipped(inv, inv[k], dir, files);
    }
    NothingCollected(steps);
    NothingQueued(hub, files, n, inv, dir);
  }

  /** Rows that all queue nothing give an empty download list. */
  lemma NothingCollected(steps: seq<Result<seq<Task>>>)
    requires forall k :: 0 <= k < |steps| ==> steps[k] == Success([])
    ensures Collect(steps) == Success([])
  {
  }

  /** An empty download list leaves the corrected batch with nothing to do. */
  lemma NothingQueued(hub: Hub, files: map<string, nat>, n: nat, inv: seq<Row>, dir: string)
    requires Queue(inv, dir, files, ArchiveSuffixMarker) == Success([])
    ensures BatchOutcome(hub, files, n, inv, dir) == Batch(Success(()), files, n)
  {
    assert RunAll(hub, files, n, []) == Run(Success(0), files, n);
  }

  /** The corrected batch succeeds exactly when every row is queued or
    * skipped and every queued download completes. */
  lemma BatchDownloadSucceeds(hub: Hub, files: map<string, nat>, n: nat, inv: seq<Row>, dir: string)
    ensures BatchOutcome(hub, files, n, inv, dir).result.Success? <==>
      Queue(inv, dir, files, ArchiveSuffixMarker).Success?
      && RunAll(hub, files, n, Queue(inv, dir, files, ArchiveSuffixMarker).value).result.Success?
  {
  }

  /** The batch as written succeeds only when no row was skipped: the number
    * of completed downloads is compared with the number of rows. */
  lemma BatchAsWrittenSucceeds(hub: Hub, files: map<string, nat>, n: nat, inv: seq<Row>, dir: string)
    ensures BatchAsWritten(hub, files, n, inv, dir).result.Success? <==>
      Queue(inv, dir, files, AppendedMarker).Success?
      && RunAll(hub, files, n, Queue(inv, dir, files, AppendedMarker).value).result.Success?
      && forall k :: 0 <= k < |inv| ==> Steps(inv, inv, dir, files, AppendedMarker)[k].value != []
  {
  }

  /** A skipped row makes the batch as written raise DownloadError although
    * every queued download completed. */
  lemma SkippedSceneFails(hub: Hub, files: map<string, nat>, n: nat, inv: seq<Row>, dir: string)
    requires Queue(inv, dir, files, AppendedMarker).Success?
    requires RunAll(hub, files, n, Queue(inv, dir, files, AppendedMarker).value).result.Success?
    requires |Queue(inv, dir, files, AppendedMarker).value| < |inv|
    ensures BatchAsWritten(hub, files, n, inv, dir).result == Failure(DownloadError)
  {
  }

  /** A batch raises the error of the row or download that failed. */
  lemma BatchErrors(hub: Hub, files: map<string, nat>, n: nat, inv: seq<Row>, dir: string)
    ensures BatchOutcome(hub, files, n, inv, dir).result.Failure? ==>
      BatchOutcome(hub, files, n, inv, dir).result.error in {IndexError, ValueError, AttributeError, DownloadError}
  {
    var q := Queue(inv, dir, files, ArchiveSuffixMarker);
    if q.Failure? {
      var steps := Steps(inv, inv, dir, files, ArchiveSuffixMarker);
      var k :| 0 <= k < |steps| && steps[k] == Failure(q.error);
      StepsAt(inv, inv, dir, files, ArchiveSuffixMarker, k);
    }
  }
}

/**
 * The business lookup of backend/services/tavily.js: the sentinel answers of the
 * two search calls, the fold of search snippets into one business record, the
 * structure of the hours extractor, the closed-day heuristic and the business-name
 * cleanup. The search endpoint's answer is a parameter; the three regular-expression
 * extractors are uninterpreted functions.
 */
module Tavily {
  import opened Wrappers
  import opened JsValues

  /** One search hit as the endpoint returns it; any field may be missing. */
  datatype SearchResult = SearchResult(title: Option<string>, url: Option<string>, content: Option<string>)

  /** A hit recorded in `sources`, its content cut to 300 characters. */
  datatype Source = Source(title: Option<string>, url: Option<string>, content: Option<string>)

  /** What the HTTP call to the search endpoint produced: a transport failure, or `data.results`. */
  datatype Transport = TransportFailure | Answered(results: Option<seq<SearchResult>>)

  /** `response.data.results || []` */
  function ResultsOf(t: Transport): seq<SearchResult>
    requires t.Answered?
  {
    if t.results.Some? then t.results.value else []
  }

  /** The three hour patterns, tried in this order: day range, "open(s)" range, bare time range. */
  datatype HourPattern = DayRange | OpenRange | BareRange

  const HourPatterns: seq<HourPattern> := [DayRange, OpenRange, BareRange]

  /**
   * The regular-expression extractors: all global matches of an hour pattern, and
   * the phone and address extractors, whose regex semantics are not modelled.
   */
  datatype Extractors = Extractors(
    hourMatches: (HourPattern, string) -> seq<string>,
    phone: string -> Option<string>,
    address: string -> Option<string>)

  datatype BusinessStatus = Found | LimitedInfo | Unknown | ApiNotConfigured

  /**
   * A business record: either consolidated from search hits, or the fixed record
   * returned when the key is missing or the call fails. Both shapes also carry
   * `contact: null`, which is left implicit.
   */
  datatype BusinessInfo =
    | Consolidated(name: Value, hours: Option<string>, phone: Option<string>, address: Option<string>,
                   status: BusinessStatus, sources: seq<Source>)
    | Sentinel(name: Value, location: Value, status: BusinessStatus, error: string)

  /** `businessInfo.hours` */
  function HoursOf(info: BusinessInfo): Option<string> {
    if info.Consolidated? then info.hours else None
  }

  const NotConfiguredError := "Tavily API key not provided"
  const FetchFailedError := "Failed to fetch business information"

  // ---------------------------------------------------------------------------
  // extractHours

  /** The first pattern of `ps` with any match gives its first three matches joined by ", ". */
  function FirstMatches(ps: seq<HourPattern>, text: string, m: (HourPattern, string) -> seq<string>): Option<string> {
    if ps == [] then None
    else if |m(ps[0], text)| > 0 then Some(Join(Take(m(ps[0], text), 3), ", "))
    else FirstMatches(ps[1..], text, m)
  }

  /** The first-pattern-wins rule, stated outright. */
  lemma {:induction false} FirstMatchesMeaning(ps: seq<HourPattern>, text: string, m: (HourPattern, string) -> seq<string>)
    ensures FirstMatches(ps, text, m).None? <==> forall k :: 0 <= k < |ps| ==> m(ps[k], text) == []
    ensures FirstMatches(ps, text, m).Some? ==>
      exists k :: 0 <= k < |ps| && m(ps[k], text) != []
        && (forall j :: 0 <= j < k ==> m(ps[j], text) == [])
        && FirstMatches(ps, text, m).value == Join(Take(m(ps[k], text), 3), ", ")
  {
    if ps != [] && |m(ps[0], text)| == 0 {
      FirstMatchesMeaning(ps[1..], text, m);
      if FirstMatches(ps, text, m).Some? {
        var k :| 0 <= k < |ps| - 1 && m(ps[1..][k], text) != []
          && (forall j :: 0 <= j < k ==> m(ps[1..][j], text) == [])
          && FirstMatches(ps[1..], text, m).value == Join(Take(m(ps[1..][k], text), 3), ", ");
        assert m(ps[k + 1], text) != [];
        assert forall j :: 0 <= j < k + 1 ==> m(ps[j], text) == [] by {
          forall j | 0 <= j < k + 1 ensures m(ps[j], text) == [] {
            if j > 0 { assert ps[j] == ps[1..][j - 1]; }
          }
        }
      } else {
        forall k | 0 <= k < |ps| ensures m(ps[k], text) == [] {
          if k > 0 { assert ps[k] == ps[1..][k - 1]; }
        }
      }
    }
  }

  /** `extractHours(text)`: the loop over the patterns with its early return. */
  method ExtractHours(text: string, m: (HourPattern, string) -> seq<string>) returns (r: Option<string>)
    ensures r == FirstMatches(HourPatterns, text, m)
  {
    var i := 0;
    while i < |HourPatterns|
      invariant 0 <= i <= |HourPatterns|
      invariant FirstMatches(HourPatterns[i..], text, m) == FirstMatches(HourPatterns, text, m)
    {
      var matches := m(HourPatterns[i], text);
      if |matches| > 0 {
        return Some(Join(Take(matches, 3), ", "));
      }
      assert HourPatterns[i..][1..] == HourPatterns[i + 1..];
      i := i + 1;
    }
    return None;
  }

  // ---------------------------------------------------------------------------
  // extractBusinessInfo

  /** A hit mentions the business when its lowercased title or content contains the lowercased name. */
  predicate Mentions(r: SearchResult, name: string) {
    Contains(Lower(OrEmpty(r.title)), Lower(name)) || Contains(Lower(OrEmpty(r.content)), Lower(name))
  }

  /** The hits that mention the business, in input order. */
  function Matching(rs: seq<SearchResult>, name: string): seq<SearchResult> {
    if rs == [] then []
    else Matching(rs[..|rs| - 1], name) + (if Mentions(rs[|rs| - 1], name) then [rs[|rs| - 1]] else [])
  }

  /** Filtering distributes over concatenation, so the kept hits stay in input order. */
  lemma {:induction false} MatchingAppend(a: seq<SearchResult>, b: seq<SearchResult>, name: string)
    ensures Matching(a + b, name) == Matching(a, name) + Matching(b, name)
  {
    if b != [] {
      var b' := b[..|b| - 1];
      MatchingAppend(a, b', name);
      assert (a + b)[..|a + b| - 1] == a + b';
      assert (a + b)[|a + b| - 1] == b[|b| - 1];
    } else {
      assert a + b == a;
    }
  }

  /** Exactly the hits that mention the business are kept. */
  lemma {:induction false} MatchingMembers(rs: seq<SearchResult>, name: string, x: SearchResult)
    ensures x in Matching(rs, name) <==> x in rs && Mentions(x, name)
  {
    if rs != [] {
      var rs' := rs[..|rs| - 1];
      MatchingMembers(rs', name, x);
      assert rs == rs' + [rs[|rs| - 1]];
    }
  }

  /** `{title, url, content: content?.substring(0, 300)}` */
  function ToSource(r: SearchResult): (s: Source)
    ensures r.content.Some? ==>
      s.content.Some? && s.content.value
        == if |r.content.value| <= 300 then r.content.value else r.content.value[..300]
    ensures r.content.None? ==> s.content.None?
    ensures s.title == r.title && s.url == r.url
  {
    Source(r.title, r.url, if r.content.Some? then Some(Take(r.content.value, 300)) else None)
  }

  function SourcesOf(hits: seq<SearchResult>): (r: seq<Source>)
    ensures |r| == |hits|
    ensures forall i :: 0 <= i < |hits| ==> r[i] == ToSource(hits[i])
  {
    if hits == [] then [] else SourcesOf(hits[..|hits| - 1]) + [ToSource(hits[|hits| - 1])]
  }

  /** The three fields a hit can fill in. */
  datatype Field = HoursField | PhoneField | AddressField

  /** What one hit yields for a field: hours and phone read the lowercased content, address the raw one. */
  function Extract(f: Field, r: SearchResult, ex: Extractors): Option<string> {
    var content := Lower(OrEmpty(r.content));
    match f
    case HoursField => FirstMatches(HourPatterns, content, ex.hourMatches)
    case PhoneField => ex.phone(content)
    case AddressField => ex.address(OrEmpty(r.content))
  }

  /** The field after the loop: a truthy value is stored only while none is stored yet. */
  function FirstHit(hits: seq<SearchResult>, f: Field, ex: Extractors): (r: Option<string>)
    ensures r.None? || Present(r)
  {
    if hits == [] then None
    else
      var prev := FirstHit(hits[..|hits| - 1], f, ex);
      var v := Extract(f, hits[|hits| - 1], ex);
      if Present(v) && !Present(prev) then v else prev
  }

  /** The first hit to yield a truthy value wins; `None` when no hit yields one. */
  lemma {:induction false} FirstHitIsFirst(hits: seq<SearchResult>, f: Field, ex: Extractors)
    ensures FirstHit(hits, f, ex).None? <==> forall j :: 0 <= j < |hits| ==> !Present(Extract(f, hits[j], ex))
    ensures FirstHit(hits, f, ex).Some? ==>
      exists i :: 0 <= i < |hits| && FirstHit(hits, f, ex) == Extract(f, hits[i], ex)
        && forall j :: 0 <= j < i ==> !Present(Extract(f, hits[j], ex))
  {
    if hits != [] {
      var h' := hits[..|hits| - 1];
      FirstHitIsFirst(h', f, ex);
      assert forall j :: 0 <= j < |h'| ==> h'[j] == hits[j];
      if FirstHit(h', f, ex).Some? {
        var i :| 0 <= i < |h'| && FirstHit(h', f, ex) == Extract(f, h'[i], ex)
          && forall j :: 0 <= j < i ==> !Present(Extract(f, h'[j], ex));
        assert FirstHit(hits, f, ex) == Extract(f, hits[i], ex);
      }
    }
  }

  /** Later hits never overwrite a field that is already filled. */
  lemma {:induction false} FirstHitNeverOverwritten(a: seq<SearchResult>, b: seq<SearchResult>, f: Field, ex: Extractors)
    requires FirstHit(a, f, ex).Some?
    ensures FirstHit(a + b, f, ex) == FirstHit(a, f, ex)
  {
    if b != [] {
      var b' := b[..|b| - 1];
      FirstHitNeverOverwritten(a, b', f, ex);
      assert (a + b)[..|a + b| - 1] == a + b';
    } else {
      assert a + b == a;
    }
  }

  lemma MatchingSnoc(rs: seq<SearchResult>, i: nat, name: string)
    requires i < |rs|
    ensures Matching(rs[..i + 1], name) == Matching(rs[..i], name) + (if Mentions(rs[i], name) then [rs[i]] else [])
  {
    assert rs[..i + 1][..i] == rs[..i];
  }

  lemma FirstHitSnoc(hits: seq<SearchResult>, x: SearchResult, f: Field, ex: Extractors)
    ensures FirstHit(hits + [x], f, ex)
      == if Present(Extract(f, x, ex)) && !Present(FirstHit(hits, f, ex)) then Extract(f, x, ex) else FirstHit(hits, f, ex)
  {
    assert (hits + [x])[..|hits|] == hits;
  }

  lemma SourcesSnoc(hits: seq<SearchResult>, x: SearchResult)
    ensures SourcesOf(hits + [x]) == SourcesOf(hits) + [ToSource(x)]
  {
    assert (hits + [x])[..|hits|] == hits;
  }

  /**
   * The record `extractBusinessInfo` builds when it does not throw: sources and
   * fields from the hits that mention the business, status from the hours.
   */
  function Consolidate(results: seq<SearchResult>, businessName: Value, ex: Extractors): (r: BusinessInfo)
    requires businessName.Str? || results == []
    ensures r.Consolidated? && r.name == businessName
    ensures r.status == Found <==> r.hours.Some?
    ensures r.status != Unknown && r.status != ApiNotConfigured
    ensures |r.sources| <= |results|
  {
    var name := if businessName.Str? then businessName.s else "";
    var hits := Matching(results, name);
    MatchingLength(results, name);
    var hours := FirstHit(hits, HoursField, ex);
    Consolidated(businessName, hours, FirstHit(hits, PhoneField, ex), FirstHit(hits, AddressField, ex),
                 if Present(hours) then Found else LimitedInfo, SourcesOf(hits))
  }

  lemma {:induction false} MatchingLength(rs: seq<SearchResult>, name: string)
    ensures |Matching(rs, name)| <= |rs|
  {
    if rs != [] {
      MatchingLength(rs[..|rs| - 1], name);
    }
  }

  /**
   * `extractBusinessInfo(results, businessName)`; `None` is the TypeError thrown by
   * `businessName.toLowerCase()` when the name is not a string and there is a hit.
   */
  method ExtractBusinessInfo(results: seq<SearchResult>, businessName: Value, ex: Extractors) returns (r: Option<BusinessInfo>)
    ensures r.None? <==> !businessName.Str? && results != []
    ensures r.Some? ==> r.value == Consolidate(results, businessName, ex)
  {
    var name := if businessName.Str? then businessName.s else "";
    var hours: Option<string> := None;
    var phone: Option<string> := None;
    var address: Option<string> := None;
    var sources: seq<Source> := [];
    ghost var hits: seq<SearchResult> := [];
    var i := 0;
    while i < |results|
      invariant 0 <= i <= |results|
      invariant !businessName.Str? ==> i == 0
      invariant hits == Matching(results[..i], name)
      invariant sources == SourcesOf(hits)
      invariant hours == FirstHit(hits, HoursField, ex)
      invariant phone == FirstHit(hits, PhoneField, ex)
      invariant address == FirstHit(hits, AddressField, ex)
    {
      var result := results[i];
      var content := Lower(OrEmpty(result.content));
      if !businessName.Str? {
        return None;
      }
      MatchingSnoc(results, i, name);
      // `title.includes(name.toLowerCase()) || content.includes(name.toLowerCase())`
      if Mentions(result, name) {
        SourcesSnoc(hits, result);
        sources := sources + [ToSource(result)];
        var h := ExtractHours(content, ex.hourMatches);
        assert h == Extract(HoursField, result, ex);
        FirstHitSnoc(hits, result, HoursField, ex);
        if Present(h) && !Present(hours) {
          hours := h;
        }
        var p := ex.phone(content);
        assert p == Extract(PhoneField, result, ex);
        FirstHitSnoc(hits, result, PhoneField, ex);
        if Present(p) && !Present(phone) {
          phone := p;
        }
        var a := ex.address(OrEmpty(result.content));
        assert a == Extract(AddressField, result, ex);
        FirstHitSnoc(hits, result, AddressField, ex);
        if Present(a) && !Present(address) {
          address := a;
        }
        hits := hits + [result];
      }
      assert hits == Matching(results[..i + 1], name);
      i := i + 1;
    }
    assert results[..i] == results;
    r := Some(Consolidated(businessName, hours, phone, address,
                           if Present(hours) then Found else LimitedInfo, sources));
  }

  /**
   * `searchBusiness(businessName, location)`: a fixed record when no key is set,
   * another when the call or the extraction throws; it never throws itself.
   */
  method SearchBusiness(businessName: Value, location: Value, configured: bool, transport: Transport, ex: Extractors)
    returns (r: BusinessInfo)
    ensures !configured ==> r == Sentinel(businessName, location, ApiNotConfigured, NotConfiguredError)
    ensures configured && transport.TransportFailure? ==> r == Sentinel(businessName, location, Unknown, FetchFailedError)
    ensures configured && transport.Answered? ==>
      if !businessName.Str? && ResultsOf(transport) != [] then r == Sentinel(businessName, location, Unknown, FetchFailedError)
      else r == Consolidate(ResultsOf(transport), businessName, ex)
    ensures r.status == Unknown <==>
      configured && (transport.TransportFailure? || (!businessName.Str? && ResultsOf(transport) != []))
  {
    if !configured {
      return Sentinel(businessName, location, ApiNotConfigured, NotConfiguredError);
    }
    if transport.TransportFailure? {
      return Sentinel(businessName, location, Unknown, FetchFailedError);
    }
    var info := ExtractBusinessInfo(ResultsOf(transport), businessName, ex);
    if info.None? {
      return Sentinel(businessName, location, Unknown, FetchFailedError);
    }
    r := info.value;
  }

  // ---------------------------------------------------------------------------
  // validateBusinessHours

  datatype HoursCheck = HoursCheck(isValid: bool, reason: string, suggestions: seq<string>)

  const InsufficientReason := "Insufficient information to validate hours"

  const WeekdayNames: seq<string> :=
    ["sunday", "monday", "tuesday", "wednesday", "thursday", "friday", "saturday"]

  /**
   * The lowercased long weekday name of a day number (day 0 is Thursday,
   * 1 January 1970); an unparseable date prints as "invalid date".
   */
  function DayName(day: Option<int>): (r: string)
    ensures |r| >= 6
  {
    if day.None? then "invalid date" else WeekdayNames[(day.value + 4) % 7]
  }

  /** The heuristic: the hours text mentions "closed" and the first three letters of the weekday. */
  predicate LooksClosed(hours: string, day: Option<int>) {
    Contains(Lower(hours), "closed") && Contains(Lower(hours), DayName(day)[..3])
  }

  /** `validateBusinessHours(businessInfo, scheduledDate)`, with `parseDay` standing for `new Date`. */
  function ValidateBusinessHours(info: BusinessInfo, scheduledDate: Value, parseDay: Value -> Option<int>): (r: HoursCheck)
    ensures !Present(HoursOf(info)) || !Truthy(scheduledDate) ==>
      r == HoursCheck(false, InsufficientReason, ["Contact the business directly to confirm hours"])
    ensures Present(HoursOf(info)) && Truthy(scheduledDate) ==>
      (r.isValid <==> !LooksClosed(HoursOf(info).value, parseDay(scheduledDate)))
    ensures Present(HoursOf(info)) && Truthy(scheduledDate) && !r.isValid ==>
      r == HoursCheck(false, "Business appears to be closed on " + DayName(parseDay(scheduledDate)),
                      ["Try a different day", "Contact the business to confirm current hours",
                       "Look for alternative businesses nearby"])
    ensures r.isValid ==>
      && Present(HoursOf(info)) && r.reason == "Business appears to be open"
      && r.suggestions == ["Consider calling ahead to confirm availability"]
  {
    if !Present(HoursOf(info)) || !Truthy(scheduledDate) then
      HoursCheck(false, InsufficientReason, ["Contact the business directly to confirm hours"])
    else
      var dayOfWeek := DayName(parseDay(scheduledDate));
      var hoursText := Lower(HoursOf(info).value);
      if Contains(hoursText, "closed") && Contains(hoursText, dayOfWeek[..3]) then
        HoursCheck(false, "Business appears to be closed on " + dayOfWeek,
                   ["Try a different day", "Contact the business to confirm current hours",
                    "Look for alternative businesses nearby"])
      else
        HoursCheck(true, "Business appears to be open", ["Consider calling ahead to confirm availability"])
  }

  // ---------------------------------------------------------------------------
  // searchNearbyBusinesses and extractBusinessName

  /** `title.split('-')[0].split('|')[0].trim()` */
  function ExtractBusinessName(title: string): (r: string)
    ensures exists k {:trigger title[..k]} ::
      && 0 <= k <= |title|
      && (forall j :: 0 <= j < k ==> title[j] != '-' && title[j] != '|')
      && (k < |title| ==> title[k] == '-' || title[k] == '|')
      && r == Trim(title[..k])
    ensures '-' !in r && '|' !in r
    ensures r == [] || (!IsJsWhitespace(r[0]) && !IsJsWhitespace(r[|r| - 1]))
    ensures forall c :: c in r ==> c in title
  {
    var head := SplitHead(title, '-');
    var part := SplitHead(head, '|');
    assert forall c :: c in part ==> c in head;
    assert forall c :: c in head ==> c in title;
    NameCut(title);
    assert part == title[..|part|];
    Trim(part)
  }

  /** The part kept before trimming is the title up to its first '-' or '|'. */
  lemma NameCut(title: string)
    ensures var part := SplitHead(SplitHead(title, '-'), '|');
      && part == title[..|part|]
      && (forall j :: 0 <= j < |part| ==> title[j] != '-' && title[j] != '|')
      && (|part| < |title| ==> title[|part|] == '-' || title[|part|] == '|')
  {
    var head := SplitHead(title, '-');
    var part := SplitHead(head, '|');
    assert forall j :: 0 <= j < |part| ==> title[j] == head[j] == part[j];
    if |part| < |head| {
      assert title[|part|] == head[|part|];
    }
  }

  lemma {:induction false} SplitHeadAbsent(s: string, c: char)
    requires c !in s
    ensures SplitHead(s, c) == s
  {
    if s != [] {
      SplitHeadAbsent(s[1..], c);
    }
  }

  /** Cleaning a cleaned name changes nothing. */
  lemma ExtractBusinessNameIdempotent(title: string)
    ensures ExtractBusinessName(ExtractBusinessName(title)) == ExtractBusinessName(title)
  {
    var x := ExtractBusinessName(title);
    SplitHeadAbsent(x, '-');
    SplitHeadAbsent(x, '|');
    assert TrimStart(x) == x;
    assert TrimEnd(x) == x;
  }

  /** One entry of the nearby list. */
  datatype Nearby = Nearby(name: string, url: Option<string>, description: Option<string>, source: Option<string>)

  function ToNearby(r: SearchResult): Nearby
    requires r.title.Some?
  {
    Nearby(ExtractBusinessName(r.title.value), r.url,
           if r.content.Some? then Some(Take(r.content.value, 200)) else None, r.title)
  }

  predicate AllTitled(rs: seq<SearchResult>) {
    forall i :: 0 <= i < |rs| ==> rs[i].title.Some?
  }

  /**
   * `searchNearbyBusinesses(type, location, maxResults)`: `[]` when no key is set or
   * the call throws (a hit without a title throws inside the mapping); otherwise one
   * entry per hit, in order.
   */
  function SearchNearbyBusinesses(configured: bool, transport: Transport): (r: seq<Nearby>)
    ensures !configured || transport.TransportFailure? ==> r == []
    ensures configured && transport.Answered? && !AllTitled(ResultsOf(transport)) ==> r == []
    ensures configured && transport.Answered? && AllTitled(ResultsOf(transport)) ==>
      |r| == |ResultsOf(transport)|
      && forall i :: 0 <= i < |r| ==>
        var hit := ResultsOf(transport)[i];
        && r[i].name == ExtractBusinessName(hit.title.value)
        && r[i].url == hit.url
        && r[i].description
           == (if hit.content.None? then None
               else if |hit.content.value| <= 200 then hit.content
               else Some(hit.content.value[..200]))
        && r[i].source == hit.title
    ensures forall i :: 0 <= i < |r| ==> '-' !in r[i].name && '|' !in r[i].name
  {
    if !configured || transport.TransportFailure? then []
    else
      var rs := ResultsOf(transport);
      if AllTitled(rs) then seq(|rs|, i requires 0 <= i < |rs| => ToNearby(rs[i])) else []
  }
}

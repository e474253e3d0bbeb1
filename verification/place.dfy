/**
 * The `Place` class of routes.py: walking time from a distance, the
 * encyclopedia link of a title, and the shaping of a parsed geosearch
 * response into one result record per candidate.
 */
module Place {
  import opened Wrappers
  import opened Json

  // ---------------------------------------------------------------------------
  // Walking time
  // ---------------------------------------------------------------------------

  /** Walking speed: 80 meters is one minute of walking. */
  const MetersPerMinute: int := 80

  /**
   * `int(meters / 80)`: the quotient truncated toward zero, so for a
   * non-negative distance the whole minutes walked.
   */
  function WalkingTime(meters: real): (minutes: int)
    ensures 0.0 <= meters ==>
      0 <= minutes && (MetersPerMinute * minutes) as real <= meters < (MetersPerMinute * (minutes + 1)) as real
    ensures meters < 0.0 ==>
      minutes <= 0 && (MetersPerMinute * (minutes - 1)) as real < meters <= (MetersPerMinute * minutes) as real
  {
    if 0.0 <= meters then (meters / MetersPerMinute as real).Floor
    else -((-meters) / MetersPerMinute as real).Floor
  }

  /** A whole number of meters gives its integer quotient by 80. */
  lemma WalkingTimeOfWholeMeters(meters: nat)
    ensures WalkingTime(meters as real) == meters / MetersPerMinute
  {
    var t := WalkingTime(meters as real);
    assert MetersPerMinute * t <= meters < MetersPerMinute * (t + 1);
  }

  /** Farther never means fewer minutes. */
  lemma WalkingTimeMonotonic(a: real, b: real)
    requires a <= b
    ensures WalkingTime(a) <= WalkingTime(b)
  {
  }

  // ---------------------------------------------------------------------------
  // Encyclopedia link
  // ---------------------------------------------------------------------------

  const WikiBase: string := "http://en.wikipedia.org/wiki/"

  /** `title.replace(' ', '_')`. */
  function Slug(title: string): (slug: string)
    ensures |slug| == |title|
    ensures forall i :: 0 <= i < |title| ==> slug[i] != ' '
    ensures forall i :: 0 <= i < |title| && title[i] != ' ' ==> slug[i] == title[i]
  {
    seq(|title|, i requires 0 <= i < |title| => if title[i] == ' ' then '_' else title[i])
  }

  /** Every space becomes `_`, every other character stays, so the slug has no space left. */
  lemma SlugReplacesOnlySpaces(title: string)
    ensures |Slug(title)| == |title|
    ensures forall i :: 0 <= i < |title| ==> Slug(title)[i] == if title[i] == ' ' then '_' else title[i]
    ensures forall i :: 0 <= i < |title| ==> Slug(title)[i] != ' '
    ensures (forall i :: 0 <= i < |title| ==> title[i] != ' ') ==> Slug(title) == title
  {
  }

  /**
   * A relative reference that Python's `urljoin` resolves against WikiBase
   * by plain concatenation. That function follows section 5.2 of RFC 3986
   * and, for an `http` URL, also splits off a `;params` part as RFC 1808
   * does. So the reference has no scheme separator, no path separator, no
   * parameters, no query or fragment, no character at or below U+0020 (the
   * ASCII space and the C0 controls), and is not a dot segment. The URL
   * parser strips such characters only at the start and removes only tab,
   * CR and LF elsewhere, so excluding every C0 control inside the reference
   * is conservative: Python concatenates some of those too.
   */
  predicate SimpleReference(ref: string) {
    && ref != "." && ref != ".."
    && forall i :: 0 <= i < |ref| ==> ref[i] > ' ' && !Delimiter(ref[i])
  }

  /** The characters that end a path segment or start a scheme, parameters, query or fragment. */
  predicate Delimiter(c: char) {
    c == ':' || c == '/' || c == ';' || c == '?' || c == '#'
  }

  /**
   * The outcome of `urljoin(WikiBase, ref)`: a resolved URL when the
   * reference is simple; otherwise the reference is kept unresolved, since
   * general resolution is not part of this model.
   */
  datatype Link = Url(text: string) | Unresolved(reference: string)

  function JoinOnWikiBase(ref: string): Link
  {
    if SimpleReference(ref) then Url(WikiBase + ref) else Unresolved(ref)
  }

  /** `wiki_path(title)`, with the join the code evidently intends. */
  function WikiPath(title: string): (link: Link)
    ensures link.Url? <==> SimpleTitle(title)
  {
    SlugSimpleIff(title);
    JoinOnWikiBase(Slug(title))
  }

  /** The slug is a simple reference exactly when the title is simple. */
  lemma SlugSimpleIff(title: string)
    ensures SimpleReference(Slug(title)) <==> SimpleTitle(title)
  {
    var slug := Slug(title);
    if title == "." || title == ".." {
      assert slug == title;
    }
    if slug == "." || slug == ".." {
      assert title == slug;
    }
    if SimpleReference(slug) {
      forall i | 0 <= i < |title|
        ensures title[i] == ' ' || (title[i] > ' ' && !Delimiter(title[i]))
      {
        assert slug[i] > ' ' && !Delimiter(slug[i]);
      }
    }
  }

  /**
   * A title whose slug is simple: spaces are allowed (they become `_`),
   * other characters at or below U+0020 (the C0 controls) and `:`, `/`, `;`,
   * `?`, `#` are not,
   * and the title is not a dot segment.
   */
  predicate SimpleTitle(title: string) {
    && title != "." && title != ".."
    && forall i :: 0 <= i < |title| ==> title[i] == ' ' || (title[i] > ' ' && !Delimiter(title[i]))
  }

  /**
   * The link of a simple title is the base followed by the title with every
   * space replaced by `_` and every other character kept; the link is
   * resolved for exactly the simple titles.
   */
  lemma WikiPathOfTitle(title: string)
    ensures WikiPath(title).Url? <==> SimpleTitle(title)
    ensures SimpleTitle(title) ==>
      var url := WikiPath(title).text;
      && |url| == |WikiBase| + |title|
      && url[..|WikiBase|] == WikiBase
      && forall i :: 0 <= i < |title| ==>
           url[|WikiBase| + i] == if title[i] == ' ' then '_' else title[i]
  {
    var slug := Slug(title);
    if SimpleTitle(title) {
      var url := WikiPath(title).text;
      assert url == WikiBase + slug;
      forall i | 0 <= i < |title|
        ensures url[|WikiBase| + i] == if title[i] == ' ' then '_' else title[i]
      {
        assert url[|WikiBase| + i] == slug[i];
      }
    }
  }

  /**
   * As written, `wiki_path` calls `urllib2.urlparse.urljoin`, but only
   * `urllib.request` is imported, so every call raises NameError.
   */
  function WikiPathAsWritten(title: string): (r: Result<Link, string>)
    ensures r.Failure?
  {
    Failure("NameError: name 'urllib2' is not defined")
  }

  // ---------------------------------------------------------------------------
  // Shaping the geosearch response
  // ---------------------------------------------------------------------------

  /** What the Python code raises while walking the parsed response. */
  datatype LookupError =
    | MissingKey(key: string)   // KeyError: a dictionary lacks the key
    | NotAnObject               // TypeError: a key looked up in a list, string, number, boolean or null
    | NotIterable               // TypeError: `for` over null, a boolean or a number
    | TitleNotText              // AttributeError: `replace` on a title that is not a string
    | DistanceNotNumeric        // TypeError: a distance that cannot be divided by 80

  /** One output dictionary: `name`, `url`, `time`, `lat`, `lng`. */
  datatype PlaceResult = PlaceResult(name: string, url: Link, time: int, lat: Json, lng: Json)

  /** `v[key]` on a parsed JSON value. */
  function Lookup(v: Json, key: string): Result<Json, LookupError>
  {
    match v
    case JObject(m) => if key in m then Success(m[key]) else Failure(MissingKey(key))
    case _ => Failure(NotAnObject)
  }

  /**
   * The elements `for place in g` visits. A list gives its elements and a
   * string its characters. A dictionary gives its keys, which are strings,
   * so the first `place['title']` already fails: only an empty dictionary
   * gets through. Null, booleans and numbers are not iterable.
   */
  function Iterate(g: Json): (r: Result<seq<Json>, LookupError>)
    ensures r.Success? <==> g.JArray? || g.JString? || g == JObject(map[])
    ensures g.JArray? ==> r == Success(g.elems)
    ensures g.JString? ==> r.Success? && |r.value| == |g.str| && forall x :: x in r.value ==> x.JString?
    ensures !g.JArray? && !g.JString? && !g.JObject? ==> r == Failure(NotIterable)
  {
    match g
    case JArray(items) => Success(items)
    case JString(s) => Success(seq(|s|, i requires 0 <= i < |s| => JString([s[i]])))
    case JObject(m) => if m == map[] then Success([]) else Failure(NotAnObject)
    case _ => Failure(NotIterable)
  }

  /** `data['query']['geosearch']`, as the sequence of candidates the loop visits. */
  function Candidates(data: Json): Result<seq<Json>, LookupError>
  {
    var q :- Lookup(data, "query");
    var g :- Lookup(q, "geosearch");
    Iterate(g)
  }

  /** Python's `/` accepts integers, floats and booleans (True is 1, False is 0). */
  predicate Numeric(v: Json) {
    v.JNumber? || v.JBool?
  }

  function NumericValue(v: Json): real
    requires Numeric(v)
  {
    match v
    case JNumber(n) => n
    case JBool(b) => if b then 1.0 else 0.0
  }

  function TitleText(name: Json): Result<string, LookupError>
  {
    if name.JString? then Success(name.str) else Failure(TitleNotText)
  }

  function Meters(dist: Json): Result<real, LookupError>
  {
    if Numeric(dist) then Success(NumericValue(dist)) else Failure(DistanceNotNumeric)
  }

  /** The keys each candidate is asked for, in the order the loop asks. */
  const RequiredKeys: seq<string> := ["title", "dist", "lat", "lon"]

  /** A candidate the loop body turns into a record without raising. */
  predicate WellFormedCandidate(c: Json) {
    && c.JObject?
    && "title" in c.members && "dist" in c.members && "lat" in c.members && "lon" in c.members
    && c.members["title"].JString?
    && Numeric(c.members["dist"])
  }

  /**
   * One pass of the loop body: read `title`, `dist`, `lat` and `lon`, build
   * the link from the title and the walking time from the distance.
   */
  function ShapePlace(c: Json): (r: Result<PlaceResult, LookupError>)
    ensures r.Success? <==> WellFormedCandidate(c)
    ensures r.Success? ==>
      && r.value.name == c.members["title"].str
      && r.value.url == WikiPath(c.members["title"].str)
      && r.value.time == WalkingTime(NumericValue(c.members["dist"]))
      && r.value.lat == c.members["lat"]
      && r.value.lng == c.members["lon"]
  {
    var name :- Lookup(c, "title");
    var dist :- Lookup(c, "dist");
    var lat :- Lookup(c, "lat");
    var lng :- Lookup(c, "lon");
    var title :- TitleText(name);
    var meters :- Meters(dist);
    Success(PlaceResult(title, WikiPath(title), WalkingTime(meters), lat, lng))
  }

  /** A candidate lacking a required key fails on the first one missing, in the loop's order. */
  lemma ShapePlaceMissingKey(c: Json, k: nat)
    requires c.JObject? && k < |RequiredKeys| && RequiredKeys[k] !in c.members
    requires forall j :: 0 <= j < k ==> RequiredKeys[j] in c.members
    ensures ShapePlace(c) == Failure(MissingKey(RequiredKeys[k]))
  {
    assert RequiredKeys[0] == "title" && RequiredKeys[1] == "dist";
    assert RequiredKeys[2] == "lat" && RequiredKeys[3] == "lon";
  }

  /** Every candidate shaped in order; the first failure ends the whole walk. */
  function ShapeAll(candidates: seq<Json>): (r: Result<seq<PlaceResult>, LookupError>)
    ensures r.Success? ==> |r.value| == |candidates|
    ensures r.Success? ==> forall i :: 0 <= i < |candidates| ==> ShapePlace(candidates[i]) == Success(r.value[i])
  {
    if candidates == [] then Success([])
    else
      var first :- ShapePlace(candidates[0]);
      var rest :- ShapeAll(candidates[1..]);
      Success([first] + rest)
  }

  /**
   * Shaping succeeds exactly when every candidate does, and then yields one
   * record per candidate, in the candidates' order.
   */
  lemma {:induction false} ShapeAllSucceeds(cs: seq<Json>)
    ensures ShapeAll(cs).Success? <==> forall i :: 0 <= i < |cs| ==> ShapePlace(cs[i]).Success?
    ensures ShapeAll(cs).Success? ==>
      && |ShapeAll(cs).value| == |cs|
      && forall i :: 0 <= i < |cs| ==> ShapeAll(cs).value[i] == ShapePlace(cs[i]).value
  {
    if cs != [] {
      var tail := cs[1..];
      ShapeAllSucceeds(tail);
      assert forall i :: 1 <= i < |cs| ==> cs[i] == tail[i - 1];
      if ShapeAll(cs).Success? {
        var rs := ShapeAll(cs).value;
        assert rs == [ShapePlace(cs[0]).value] + ShapeAll(tail).value;
      }
    }
  }

  /** The walk fails with the error of the first candidate that fails; nothing partial is returned. */
  lemma {:induction false} ShapeAllFirstFailure(cs: seq<Json>, k: nat)
    requires k < |cs|
    requires forall j :: 0 <= j < k ==> ShapePlace(cs[j]).Success?
    requires ShapePlace(cs[k]).Failure?
    ensures ShapeAll(cs) == Failure(ShapePlace(cs[k]).error)
  {
    if k > 0 {
      var tail := cs[1..];
      assert forall j :: 0 <= j < k - 1 ==> tail[j] == cs[j + 1];
      ShapeAllFirstFailure(tail, k - 1);
    }
  }

  /** What `query` returns once the response is parsed. */
  function QueryResult(data: Json): Result<seq<PlaceResult>, LookupError>
  {
    var candidates :- Candidates(data);
    ShapeAll(candidates)
  }

  /**
   * The loop of `query`: start from an empty list and append one record per
   * candidate; any exception aborts the call.
   */
  method Query(data: Json) returns (r: Result<seq<PlaceResult>, LookupError>)
    ensures r == QueryResult(data)
  {
    var candidates :- Candidates(data);
    var places: seq<PlaceResult> := [];
    for i := 0 to |candidates|
      invariant |places| == i
      invariant forall j :: 0 <= j < i ==> ShapePlace(candidates[j]) == Success(places[j])
    {
      var shaped := ShapePlace(candidates[i]);
      if shaped.Failure? {
        ShapeAllFirstFailure(candidates, i);
        return Failure(shaped.error);
      }
      places := places + [shaped.value];
    }
    ShapeAllSucceeds(candidates);
    assert places == ShapeAll(candidates).value;
    return Success(places);
  }

  /**
   * For a response that has its candidate list, `query` succeeds exactly
   * when every candidate is well formed, and then returns one record per
   * candidate, in order, copying the title, latitude and longitude and
   * deriving the link and the walking time.
   */
  lemma QueryOneRecordPerCandidate(data: Json, cs: seq<Json>)
    requires Candidates(data) == Success(cs)
    ensures QueryResult(data).Success? <==> forall i :: 0 <= i < |cs| ==> WellFormedCandidate(cs[i])
    ensures QueryResult(data).Success? ==>
      var places := QueryResult(data).value;
      && |places| == |cs|
      && forall i :: 0 <= i < |cs| ==>
           && places[i].name == cs[i].members["title"].str
           && places[i].url == WikiPath(cs[i].members["title"].str)
           && places[i].time == WalkingTime(NumericValue(cs[i].members["dist"]))
           && places[i].lat == cs[i].members["lat"]
           && places[i].lng == cs[i].members["lon"]
  {
    ShapeAllSucceeds(cs);
  }

  /** The first malformed candidate's error is the error of the whole call. */
  lemma QueryFailsAtFirstMalformed(data: Json, cs: seq<Json>, k: nat)
    requires Candidates(data) == Success(cs)
    requires k < |cs| && !WellFormedCandidate(cs[k])
    requires forall j :: 0 <= j < k ==> WellFormedCandidate(cs[j])
    ensures QueryResult(data) == Failure(ShapePlace(cs[k]).error)
  {
    ShapeAllFirstFailure(cs, k);
  }

  /** A response without `query`, or whose `query` lacks `geosearch`, fails with that key. */
  lemma QueryMissingSections(data: Json)
    requires data.JObject?
    ensures "query" !in data.members ==> QueryResult(data) == Failure(MissingKey("query"))
    ensures "query" in data.members && data.members["query"].JObject? &&
            "geosearch" !in data.members["query"].members ==>
              QueryResult(data) == Failure(MissingKey("geosearch"))
  {
  }

  /**
   * What the loop makes of each kind of `geosearch` value: a list is shaped
   * element by element; a dictionary or a string yields only strings, so
   * the call succeeds (with no records) only when it is empty; null, a
   * boolean or a number cannot be iterated.
   */
  lemma QueryOfGeosearchValue(data: Json, g: Json)
    requires data.JObject? && "query" in data.members
    requires data.members["query"].JObject? && "geosearch" in data.members["query"].members
    requires data.members["query"].members["geosearch"] == g
    ensures g.JArray? ==> QueryResult(data) == ShapeAll(g.elems)
    ensures g.JObject? ==> QueryResult(data) == if g.members == map[] then Success([]) else Failure(NotAnObject)
    ensures g.JString? ==> QueryResult(data) == if g.str == [] then Success([]) else Failure(NotAnObject)
    ensures g.JNull? || g.JBool? || g.JNumber? ==> QueryResult(data) == Failure(NotIterable)
  {
    if g.JString? && g.str != [] {
      var cs := Candidates(data).value;
      assert ShapePlace(cs[0]) == Failure(NotAnObject);
      ShapeAllFirstFailure(cs, 0);
    }
  }

  /** A response with a single well-formed candidate gives a single record. */
  lemma QuerySingleCandidate(title: string, dist: real, lat: Json, lon: Json)
    ensures
      var candidate := JObject(map["title" := JString(title), "dist" := JNumber(dist), "lat" := lat, "lon" := lon]);
      var data := JObject(map["query" := JObject(map["geosearch" := JArray([candidate])])]);
      QueryResult(data) == Success([PlaceResult(title, WikiPath(title), WalkingTime(dist), lat, lon)])
  {
    var candidate := JObject(map["title" := JString(title), "dist" := JNumber(dist), "lat" := lat, "lon" := lon]);
    var data := JObject(map["query" := JObject(map["geosearch" := JArray([candidate])])]);
    assert Candidates(data) == Success([candidate]);
    var record := PlaceResult(title, WikiPath(title), WalkingTime(dist), lat, lon);
    assert ShapePlace(candidate) == Success(record);
    assert [candidate][1..] == [];
    assert ShapeAll([candidate]) == Success([record] + []);
    assert [record] + [] == [record];
  }
}

/**
 * Worked examples: walking times for 0, 79, 80, 800 and 240 meters, the
 * link of "Golden Gate Park", and one response shaped end to end.
 */
module PlaceExamples {
  import opened Wrappers
  import opened Json
  import opened Place

  lemma WalkingTimeExamples()
    ensures WalkingTime(0.0) == 0
    ensures WalkingTime(79.0) == 0
    ensures WalkingTime(80.0) == 1
    ensures WalkingTime(800.0) == 10
    ensures WalkingTime(240.0) == 3
  {
    WalkingTimeOfWholeMeters(0);
    WalkingTimeOfWholeMeters(79);
    WalkingTimeOfWholeMeters(80);
    WalkingTimeOfWholeMeters(800);
    WalkingTimeOfWholeMeters(240);
  }

  lemma SlugOfGoldenGatePark()
    ensures Slug("Golden Gate Park") == "Golden_Gate_Park"
  {
  }

  /** A slug made only of letters and `_` needs no resolution beyond concatenation. */
  lemma GoldenGateSlugIsSimple(slug: string)
    requires slug == "Golden_Gate_Park"
    ensures SimpleReference(slug)
  {
    forall i | 0 <= i < |slug|
      ensures slug[i] > ' ' && !Delimiter(slug[i])
    {
    }
  }

  lemma GoldenGatePark()
    ensures WikiPath("Golden Gate Park") == Url("http://en.wikipedia.org/wiki/Golden_Gate_Park")
  {
    SlugOfGoldenGatePark();
    GoldenGateSlugIsSimple("Golden_Gate_Park");
  }

  /** Even the plainest title gets no link as written; the intended join gives one. */
  lemma WikiPathAsWrittenFails()
    ensures WikiPathAsWritten("Golden Gate Park").Failure?
    ensures WikiPath("Golden Gate Park").Url?
  {
    GoldenGatePark();
  }

  /**
   * A title with `;` is not joined by concatenation: `urljoin` would split off
   * the parameters, so the model leaves the reference unresolved.
   */
  lemma ParamsTitleUnresolved(title: string)
    requires title == "Foo;"
    ensures WikiPath(title) == Unresolved(title)
  {
    assert title[3] == ';';
    assert Slug(title) == title;
  }

  lemma ExampleParkSlugIsSimple(slug: string)
    requires slug == "Example_Park"
    ensures SimpleReference(slug)
  {
    forall i | 0 <= i < |slug|
      ensures slug[i] > ' ' && !Delimiter(slug[i])
    {
    }
  }

  lemma ExamplePark()
    ensures WikiPath("Example Park") == Url("http://en.wikipedia.org/wiki/Example_Park")
  {
    assert Slug("Example Park") == "Example_Park";
    ExampleParkSlugIsSimple("Example_Park");
  }

  /** A single candidate 240 m away is a three-minute walk. */
  lemma QueryExample()
    ensures
      var candidate := JObject(map["title" := JString("Example Park"), "dist" := JNumber(240.0),
                                   "lat" := JNumber(37.42), "lon" := JNumber(-122.08)]);
      var data := JObject(map["query" := JObject(map["geosearch" := JArray([candidate])])]);
      QueryResult(data) == Success([PlaceResult("Example Park", Url("http://en.wikipedia.org/wiki/Example_Park"),
                                                3, JNumber(37.42), JNumber(-122.08))])
  {
    QuerySingleCandidate("Example Park", 240.0, JNumber(37.42), JNumber(-122.08));
    WalkingTimeExamples();
    ExamplePark();
  }
}

/**
 * What `ItineraryDisplay` shows for an assistant message: the text itself
 * when it does not look like an itinerary, otherwise the parsed day sections
 * (the carousel), the parsed summary sections, and the text again when the
 * parse found no section at all.
 */
module ItineraryView {
  import opened Wrappers
  import opened Text
  import opened ItinerarySections

  /** `isItinerary`: "Day " and at least one of the route, driving or delimiter markers. */
  predicate IsItinerary(content: string) {
    && Contains(content, "Day ")
    && (|| Contains(content, "Route:")
        || Contains(content, "Driving:")
        || Contains(content, "- Route:")
        || Contains(content, "- Driving:")
        || Contains(content, DayMarker)
        || Contains(content, SummaryMarker))
  }

  /** The `- Route:` and `- Driving:` alternatives add nothing: they contain `Route:` and `Driving:`. */
  lemma {:induction false} IsItineraryMarkers(content: string)
    ensures IsItinerary(content) <==>
      && Contains(content, "Day ")
      && (|| Contains(content, "Route:")
          || Contains(content, "Driving:")
          || Contains(content, DayMarker)
          || Contains(content, SummaryMarker))
  {
    if Contains(content, "- Route:") {
      assert "- Route:" == "- " + "Route:";
      ContainsSuffixOf(content, "- ", "Route:");
    }
    if Contains(content, "- Driving:") {
      assert "- Driving:" == "- " + "Driving:";
      ContainsSuffixOf(content, "- ", "Driving:");
    }
  }

  /** A short day block with a route line is taken for an itinerary. */
  lemma DayWithRouteIsItinerary()
    ensures IsItinerary("Day 1\n- Route: A to B")
  {
    var s := "Day 1\n- Route: A to B";
    assert OccursAt(s, "Day ", 0) by { assert s[0..4] == "Day "; }
    ContainsIff(s, "Day ", 0);
    assert OccursAt(s, "Route:", 8) by { assert s[8..14] == "Route:"; }
    ContainsIff(s, "Route:", 8);
  }

  /** Text without "Day " is never an itinerary, whatever markers it holds. */
  lemma {:induction false} NoDayNoItinerary(content: string)
    requires forall j :: !OccursAt(content, "Day ", j)
    ensures !IsItinerary(content)
  {
    if Contains(content, "Day ") {
      ContainsIff(content, "Day ", 0);
    }
  }

  /** `sections.filter(section => section.type === 'day')`. */
  function DaysOf(s: seq<Section>): (r: seq<Section>)
    ensures |r| <= |s|
  {
    if s == [] then []
    else (if s[0].Day? then [s[0]] else []) + DaysOf(s[1..])
  }

  /** `sections.filter(section => section.type === 'summary')`. */
  function SummariesOf(s: seq<Section>): (r: seq<Section>)
    ensures |r| <= |s|
  {
    if s == [] then []
    else (if s[0].Summary? then [s[0]] else []) + SummariesOf(s[1..])
  }

  /** The day filter keeps exactly the day sections, and the summary filter exactly the summaries. */
  lemma {:induction false} FilterMembers(s: seq<Section>)
    ensures forall x :: x in DaysOf(s) <==> x in s && x.Day?
    ensures forall x :: x in SummariesOf(s) <==> x in s && x.Summary?
  {
    if s != [] {
      FilterMembers(s[1..]);
      assert s == [s[0]] + s[1..];
    }
  }

  /** Every section is a day or a summary, so the two filters share out all of them. */
  lemma {:induction false} FiltersPartition(s: seq<Section>)
    ensures |DaysOf(s)| + |SummariesOf(s)| == |s|
  {
    if s != [] {
      FiltersPartition(s[1..]);
    }
  }

  /** Filtering distributes over concatenation. */
  lemma {:induction false} FiltersAppend(a: seq<Section>, b: seq<Section>)
    ensures DaysOf(a + b) == DaysOf(a) + DaysOf(b)
    ensures SummariesOf(a + b) == SummariesOf(a) + SummariesOf(b)
  {
    DaysAppend(a, b);
    SummariesAppend(a, b);
  }

  lemma {:induction false} DaysAppend(a: seq<Section>, b: seq<Section>)
    ensures DaysOf(a + b) == DaysOf(a) + DaysOf(b)
  {
    if a == [] {
      assert a + b == b;
    } else {
      var head := if a[0].Day? then [a[0]] else [];
      assert (a + b)[1..] == a[1..] + b;
      DaysAppend(a[1..], b);
      assert DaysOf(a + b) == head + DaysOf(a[1..] + b);
      assert DaysOf(a) == head + DaysOf(a[1..]);
    }
  }

  lemma {:induction false} SummariesAppend(a: seq<Section>, b: seq<Section>)
    ensures SummariesOf(a + b) == SummariesOf(a) + SummariesOf(b)
  {
    if a == [] {
      assert a + b == b;
    } else {
      var head := if a[0].Summary? then [a[0]] else [];
      assert (a + b)[1..] == a[1..] + b;
      SummariesAppend(a[1..], b);
      assert SummariesOf(a + b) == head + SummariesOf(a[1..] + b);
      assert SummariesOf(a) == head + SummariesOf(a[1..]);
    }
  }

  /** A list of day sections is its own day filter and has no summaries. */
  lemma {:induction false} FilterOnlyDays(s: seq<Section>)
    requires forall x :: x in s ==> x.Day?
    ensures DaysOf(s) == s && SummariesOf(s) == []
  {
    if s != [] {
      assert forall x :: x in s[1..] ==> x in s;
      FilterOnlyDays(s[1..]);
    }
  }

  /** A list of summary sections is its own summary filter and has no days. */
  lemma {:induction false} FilterOnlySummaries(s: seq<Section>)
    requires forall x :: x in s ==> x.Summary?
    ensures SummariesOf(s) == s && DaysOf(s) == []
  {
    if s != [] {
      assert forall x :: x in s[1..] ==> x in s;
      FilterOnlySummaries(s[1..]);
    }
  }

  /** With both delimiters the carousel shows exactly the day region's sections and the summaries exactly the summary region's. */
  lemma {:induction false} DelimitedFilters(text: string)
    requires Delimited(text)
    ensures DaysOf(SectionsOf(text)) == DelimitedDays(text)
    ensures SummariesOf(SectionsOf(text)) == DelimitedSummaries(text)
  {
    var days, sums := DelimitedDays(text), DelimitedSummaries(text);
    DelimitedKinds(text);
    FiltersAppend(days, sums);
    FilterOnlyDays(days);
    FilterOnlySummaries(sums);
  }

  /** What the component renders, as data. */
  datatype View =
    | PlainMessage(text: string)
    | ItineraryView(days: seq<Section>, summaries: seq<Section>, unparsed: Option<string>)

  /** The view of an assistant message's content. */
  function Render(content: string): (v: View)
    ensures v.PlainMessage? <==> !IsItinerary(content)
    ensures v.PlainMessage? ==> v.text == content
    ensures v.ItineraryView? ==>
      && v.days == DaysOf(SectionsOf(content))
      && v.summaries == SummariesOf(SectionsOf(content))
      && (v.unparsed.Some? <==> v.days == [] && v.summaries == [])
      && (v.unparsed.Some? ==> v.unparsed.value == content)
  {
    if !IsItinerary(content) then PlainMessage(content)
    else
      var sections := SectionsOf(content);
      FiltersPartition(sections);
      ItineraryView(DaysOf(sections), SummariesOf(sections),
        if |sections| == 0 then Some(content) else None)
  }
}

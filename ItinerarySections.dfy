/**
 * `parseItinerary` of ItineraryDisplay.jsx: the assistant's itinerary text is
 * cut into blocks on blank lines ("\n\n") and each block becomes a day
 * section, a summary section or nothing. With both the `DAY_SECTIONS:` and the
 * `SUMMARY_SECTIONS:` delimiters present, day blocks are read from the text
 * between them and summary blocks from the text after the second; otherwise
 * the whole text is cut and each block classified by its first line.
 */
module ItinerarySections {
  import opened Wrappers
  import opened Text

  const DayMarker := "DAY_SECTIONS:"
  const SummaryMarker := "SUMMARY_SECTIONS:"

  datatype Section =
    | Day(title: string, content: string, dayNumber: nat)
    | Summary(title: string, content: string)

  // ---------------------------------------------------------------------
  // The two regular expressions, written out

  /** The end of the `\s*` run that starts at `from`. */
  function WhiteRunEnd(s: string, from: nat): (e: nat)
    requires from <= |s|
    ensures from <= e <= |s|
    ensures forall i :: from <= i < e ==> IsWhite(s[i])
    ensures e < |s| ==> !IsWhite(s[e])
    decreases |s| - from
  {
    if from < |s| && IsWhite(s[from]) then WhiteRunEnd(s, from + 1) else from
  }

  /** The last newline in `s[lo..hi]`. */
  function LastNewline(s: string, lo: nat, hi: nat): (r: Option<nat>)
    requires lo <= hi <= |s|
    ensures r.Some? ==> lo <= r.value < hi && s[r.value] == '\n'
    ensures r.Some? ==> forall i :: r.value < i < hi ==> s[i] != '\n'
    ensures r.None? ==> forall i :: lo <= i < hi ==> s[i] != '\n'
    decreases hi - lo
  {
    if hi == lo then None
    else if s[hi - 1] == '\n' then Some(hi - 1)
    else LastNewline(s, lo, hi - 1)
  }

  /**
   * Where the group after `marker\s*\n` starts for the occurrence of `marker`
   * at `at`: the greedy `\s*` gives back characters until a newline follows,
   * so the group starts after the last newline of the white space run.
   */
  function GroupStart(s: string, at: nat, marker: string): (b: Option<nat>)
    requires OccursAt(s, marker, at)
    ensures b.Some? ==> at + |marker| < b.value <= |s| && s[b.value - 1] == '\n'
    ensures b.Some? ==> forall i :: at + |marker| <= i < b.value ==> IsWhite(s[i])
    ensures b.Some? ==> b.value <= WhiteRunEnd(s, at + |marker|)
    ensures b.Some? ==> forall i :: b.value <= i < WhiteRunEnd(s, at + |marker|) ==> s[i] != '\n'
    ensures b.None? ==> forall i :: at + |marker| <= i < WhiteRunEnd(s, at + |marker|) ==> s[i] != '\n'
  {
    var q := at + |marker|;
    match LastNewline(s, q, WhiteRunEnd(s, q))
    case None => None
    case Some(k) => Some(k + 1)
  }

  /** The first occurrence of `p` at or after `from`. */
  function IndexOfFrom(s: string, p: string, from: nat): (r: Option<nat>)
    requires from <= |s|
    ensures r.Some? ==> from <= r.value && OccursAt(s, p, r.value)
    ensures r.Some? ==> forall j :: from <= j < r.value ==> !OccursAt(s, p, j)
    ensures r.None? ==> forall j :: from <= j ==> !OccursAt(s, p, j)
  {
    var t := s[from..];
    assert forall j :: from <= j ==> (OccursAt(s, p, j) <==> OccursAt(t, p, j - from)) by {
      forall j | from <= j ensures OccursAt(s, p, j) <==> OccursAt(t, p, j - from) {
        if j + |p| <= |s| { assert s[j..j + |p|] == t[j - from..j - from + |p|]; }
      }
    }
    match IndexOf(t, p)
    case None => None
    case Some(i) => Some(from + i)
  }

  /** A match of `/DAY_SECTIONS:\s*\n(.*?)SUMMARY_SECTIONS:/s`: the marker's position and the group's bounds. */
  datatype Span = Span(at: nat, start: nat, end: nat)

  /**
   * What a match of `open\s*\n(.*?)close` (with the `s` flag) is: `open`,
   * then white space ending in a newline, then the group up to the first
   * `close` after it.
   */
  predicate SpanBetween(s: string, open: string, close: string, sp: Span) {
    && OccursAt(s, open, sp.at)
    && sp.at + |open| < sp.start <= sp.end <= |s| && s[sp.start - 1] == '\n'
    && (forall i :: sp.at + |open| <= i < sp.start ==> IsWhite(s[i]))
    && OccursAt(s, close, sp.end)
    && (forall j :: sp.start <= j < sp.end ==> !OccursAt(s, close, j))
  }

  /** What a match of `open\s*\n(.*)` (with the `s` flag) is: the group runs to the end. */
  predicate SpanToEnd(s: string, open: string, sp: Span) {
    && OccursAt(s, open, sp.at)
    && sp.at + |open| < sp.start <= sp.end == |s| && s[sp.start - 1] == '\n'
    && (forall i :: sp.at + |open| <= i < sp.start ==> IsWhite(s[i]))
  }

  /**
   * `r` is what `String.prototype.match` gives for `open\s*\n(.*?)close`
   * when the search starts at `from`: no match starts between `from` and the
   * span found, the span's group starts as late as any match at that
   * position allows (the `\s*` is greedy), and `None` means there is no
   * match at or after `from`.
   */
  ghost predicate FirstSpanBetween(s: string, open: string, close: string, from: nat, r: Option<Span>) {
    && (r.None? ==> forall sp: Span {:trigger SpanBetween(s, open, close, sp)} ::
          from <= sp.at ==> !SpanBetween(s, open, close, sp))
    && (r.Some? ==> forall sp: Span {:trigger SpanBetween(s, open, close, sp)} ::
          from <= sp.at < r.value.at ==> !SpanBetween(s, open, close, sp))
    && (r.Some? ==> forall sp: Span {:trigger SpanBetween(s, open, close, sp)} ::
          sp.at == r.value.at && SpanBetween(s, open, close, sp) ==> sp.start <= r.value.start)
  }

  /** The same for `open\s*\n(.*)`. */
  ghost predicate FirstSpanToEnd(s: string, open: string, from: nat, r: Option<Span>) {
    && (r.None? ==> forall sp: Span {:trigger SpanToEnd(s, open, sp)} ::
          from <= sp.at ==> !SpanToEnd(s, open, sp))
    && (r.Some? ==> forall sp: Span {:trigger SpanToEnd(s, open, sp)} ::
          from <= sp.at < r.value.at ==> !SpanToEnd(s, open, sp))
    && (r.Some? ==> forall sp: Span {:trigger SpanToEnd(s, open, sp)} ::
          sp.at == r.value.at && SpanToEnd(s, open, sp) ==> sp.start <= r.value.start)
  }

  /** A closing marker that does not start with white space, as `SUMMARY_SECTIONS:` does not. */
  predicate SolidStart(close: string) {
    close != [] && !IsWhite(close[0])
  }

  /**
   * Every match of `open\s*\n(.*?)close` at a position has its group start
   * at or before the one `GroupStart` gives: the greedy `\s*` keeps as much
   * white space as still lets a newline follow.
   */
  lemma {:induction false} MatchStartBound(s: string, open: string, close: string, sp: Span)
    requires SpanBetween(s, open, close, sp)
    ensures GroupStart(s, sp.at, open).Some? && sp.start <= GroupStart(s, sp.at, open).value
  {
    var q := sp.at + |open|;
    var w := WhiteRunEnd(s, q);
    assert w >= sp.start;
    assert s[sp.start - 1] == '\n';
  }

  /** The same bound for a match of `open\s*\n(.*)`. */
  lemma {:induction false} MatchToEndStartBound(s: string, open: string, sp: Span)
    requires SpanToEnd(s, open, sp)
    ensures GroupStart(s, sp.at, open).Some? && sp.start <= GroupStart(s, sp.at, open).value
  {
    var q := sp.at + |open|;
    var w := WhiteRunEnd(s, q);
    assert w >= sp.start;
    assert s[sp.start - 1] == '\n';
  }

  /**
   * When `close` does not start with white space, a match at a position
   * implies that `close` occurs after the group start `GroupStart` gives:
   * giving back white space cannot reveal an earlier `close`.
   */
  lemma {:induction false} MatchHasCloseAfterStart(s: string, open: string, close: string, sp: Span)
    requires SolidStart(close)
    requires SpanBetween(s, open, close, sp)
    ensures GroupStart(s, sp.at, open).Some?
    ensures IndexOfFrom(s, close, GroupStart(s, sp.at, open).value).Some?
  {
    MatchStartBound(s, open, close, sp);
    var b := GroupStart(s, sp.at, open).value;
    assert s[sp.end] == close[0] by { assert s[sp.end..sp.end + |close|][0] == s[sp.end]; }
  }

  /** Where `open` occurs but the rest of the pattern fails, no match starts. */
  lemma {:induction false} NoMatchAtSkip(s: string, open: string, close: string, at: nat)
    requires OccursAt(s, open, at)
    requires var b := GroupStart(s, at, open); b.None? || IndexOfFrom(s, close, b.value).None?
    ensures SolidStart(close) ==> forall sp: Span {:trigger SpanBetween(s, open, close, sp)} ::
      sp.at == at ==> !SpanBetween(s, open, close, sp)
  {
    if SolidStart(close) {
      forall sp: Span | sp.at == at ensures !SpanBetween(s, open, close, sp) {
        if SpanBetween(s, open, close, sp) { MatchHasCloseAfterStart(s, open, close, sp); }
      }
    }
  }

  /** Passing over the first occurrence of `open`, where no match starts, keeps the search leftmost. */
  lemma {:induction false} SkipBetweenCombine(s: string, open: string, close: string, from: nat, at: nat, r: Option<Span>)
    requires from <= |s| && IndexOfFrom(s, open, from) == Some(at)
    requires SolidStart(close) ==> forall sp: Span {:trigger SpanBetween(s, open, close, sp)} ::
      sp.at == at ==> !SpanBetween(s, open, close, sp)
    requires SolidStart(close) ==> FirstSpanBetween(s, open, close, at + 1, r)
    requires r.Some? ==> at + 1 <= r.value.at
    ensures SolidStart(close) ==> FirstSpanBetween(s, open, close, from, r)
  {
  }

  /** The match found at the first occurrence of `open` has the latest group start. */
  lemma {:induction false} FoundBetweenStart(s: string, open: string, close: string, at: nat)
    requires OccursAt(s, open, at) && GroupStart(s, at, open).Some?
    ensures forall sp: Span {:trigger SpanBetween(s, open, close, sp)} ::
      sp.at == at && SpanBetween(s, open, close, sp) ==> sp.start <= GroupStart(s, at, open).value
  {
    forall sp: Span | sp.at == at && SpanBetween(s, open, close, sp) ensures sp.start <= GroupStart(s, at, open).value {
      MatchStartBound(s, open, close, sp);
    }
  }

  /**
   * The match of `open\s*\n(.*?)close` that `String.prototype.match` finds
   * when the search starts at `from`.
   */
  function SpanBetweenFrom(s: string, open: string, close: string, from: nat): (r: Option<Span>)
    requires from <= |s| && open != []
    ensures r.Some? ==> SpanBetween(s, open, close, r.value) && from <= r.value.at
    ensures SolidStart(close) ==> FirstSpanBetween(s, open, close, from, r)
    decreases |s| - from
  {
    var found := IndexOfFrom(s, open, from);
    if found.None? then None
    else
      var at := found.value;
      var b := GroupStart(s, at, open);
      if b.None? || IndexOfFrom(s, close, b.value).None? then
        var r := SpanBetweenFrom(s, open, close, at + 1);
        NoMatchAtSkip(s, open, close, at);
        SkipBetweenCombine(s, open, close, from, at, r);
        r
      else
        var e := IndexOfFrom(s, close, b.value).value;
        assert at + |open| < b.value <= e;
        FoundBetweenStart(s, open, close, at);
        Some(Span(at, b.value, e))
  }

  /** Where `open` occurs but no newline ends the white space after it, no match starts. */
  lemma {:induction false} NoMatchToEndAtSkip(s: string, open: string, at: nat)
    requires OccursAt(s, open, at) && GroupStart(s, at, open).None?
    ensures forall sp: Span {:trigger SpanToEnd(s, open, sp)} :: sp.at == at ==> !SpanToEnd(s, open, sp)
  {
    forall sp: Span | sp.at == at ensures !SpanToEnd(s, open, sp) {
      if SpanToEnd(s, open, sp) { MatchToEndStartBound(s, open, sp); }
    }
  }

  /** Passing over the first occurrence of `open`, where no match starts, keeps the search leftmost. */
  lemma {:induction false} SkipToEndCombine(s: string, open: string, from: nat, at: nat, r: Option<Span>)
    requires from <= |s| && IndexOfFrom(s, open, from) == Some(at)
    requires forall sp: Span {:trigger SpanToEnd(s, open, sp)} :: sp.at == at ==> !SpanToEnd(s, open, sp)
    requires FirstSpanToEnd(s, open, at + 1, r)
    requires r.Some? ==> at + 1 <= r.value.at
    ensures FirstSpanToEnd(s, open, from, r)
  {
  }

  /** The match found at the first occurrence of `open` has the latest group start. */
  lemma {:induction false} FoundToEndStart(s: string, open: string, at: nat)
    requires OccursAt(s, open, at) && GroupStart(s, at, open).Some?
    ensures forall sp: Span {:trigger SpanToEnd(s, open, sp)} ::
      sp.at == at && SpanToEnd(s, open, sp) ==> sp.start <= GroupStart(s, at, open).value
  {
    forall sp: Span | sp.at == at && SpanToEnd(s, open, sp) ensures sp.start <= GroupStart(s, at, open).value {
      MatchToEndStartBound(s, open, sp);
    }
  }

  /** The match of `open\s*\n(.*)` that `String.prototype.match` finds when the search starts at `from`. */
  function SpanToEndFrom(s: string, open: string, from: nat): (r: Option<Span>)
    requires from <= |s| && open != []
    ensures r.Some? ==> SpanToEnd(s, open, r.value) && from <= r.value.at
    ensures FirstSpanToEnd(s, open, from, r)
    decreases |s| - from
  {
    var found := IndexOfFrom(s, open, from);
    if found.None? then None
    else
      var at := found.value;
      var b := GroupStart(s, at, open);
      if b.None? then
        var r := SpanToEndFrom(s, open, at + 1);
        NoMatchToEndAtSkip(s, open, at);
        SkipToEndCombine(s, open, from, at, r);
        r
      else
        FoundToEndStart(s, open, at);
        Some(Span(at, b.value, |s|))
  }

  /** The match of the day regex, `/DAY_SECTIONS:\s*\n(.*?)SUMMARY_SECTIONS:/s`, from `from` on. */
  function DaySpanFrom(s: string, from: nat): (r: Option<Span>)
    requires from <= |s|
    ensures r.Some? ==> SpanBetween(s, DayMarker, SummaryMarker, r.value) && from <= r.value.at
    ensures FirstSpanBetween(s, DayMarker, SummaryMarker, from, r)
  {
    assert SummaryMarker[0] == 'S';
    SpanBetweenFrom(s, DayMarker, SummaryMarker, from)
  }

  /** The match of the summary regex, `/SUMMARY_SECTIONS:\s*\n(.*)/s`, from `from` on. */
  function SummarySpanFrom(s: string, from: nat): (r: Option<Span>)
    requires from <= |s|
    ensures r.Some? ==> SpanToEnd(s, SummaryMarker, r.value) && from <= r.value.at
    ensures FirstSpanToEnd(s, SummaryMarker, from, r)
  {
    SpanToEndFrom(s, SummaryMarker, from)
  }

  /** Group 1 of the day regex, when it matches. */
  function DayRegion(text: string): Option<string> {
    match DaySpanFrom(text, 0)
    case None => None
    case Some(sp) => Some(text[sp.start..sp.end])
  }

  /** Group 1 of the summary regex, when it matches. */
  function SummaryRegion(text: string): Option<string> {
    match SummarySpanFrom(text, 0)
    case None => None
    case Some(sp) => Some(text[sp.start..])
  }

  // ---------------------------------------------------------------------
  // Blocks

  /** `/^Day \d+$/i`: "day" in any case, one space, then one or more ASCII digits to the end. */
  predicate IsDayHeading(t: string) {
    && |t| >= 5
    && (t[0] == 'D' || t[0] == 'd') && (t[1] == 'A' || t[1] == 'a') && (t[2] == 'Y' || t[2] == 'y')
    && t[3] == ' ' && AllDigits(t[4..])
  }

  /** The number of a day heading: the value of its digits. */
  function DayNumber(first: string): nat
    requires IsDayHeading(first)
  {
    DecimalValue(first[4..])
  }

  /** `parseInt(firstLine.split(' ')[1])` on a day heading is the value of its digits. */
  lemma {:induction false} DayNumberParse(first: string)
    requires IsDayHeading(first)
    ensures |Split(first, " ")| >= 2 && ParseInt(Split(first, " ")[1]) == Some(DayNumber(first))
  {
    var digits := first[4..];
    assert IndexOf(first, " ") == Some(3) by {
      assert OccursAt(first, " ", 3) by { assert first[3..4] == " "; }
      forall j | 0 <= j < 3 ensures !OccursAt(first, " ", j) {
        assert j + 1 <= |first| ==> first[j..j + 1] == [first[j]];
      }
    }
    assert first[3 + 1..] == digits;
    assert IndexOf(digits, " ").None? by {
      ContainsChar(digits, ' ');
      assert forall i :: 0 <= i < |digits| ==> IsDigit(digits[i]);
    }
    assert Split(digits, " ") == [digits];
    assert Split(first, " ") == [first[..3]] + Split(first[3 + 1..], " ");
    ParseIntDigits(digits);
  }

  /** A block's trimmed first line and the rest of it (`lines.slice(1).join('\n').trim()`), when the trimmed block is not empty. */
  function Block(part: string): Option<(string, string)> {
    var t := Trim(part);
    if t == "" then None
    else
      var lines := Split(t, "\n");
      Some((Trim(lines[0]), Trim(Join(lines[1..], "\n"))))
  }

  /** Which of the three loops of the source looks at the block. */
  datatype Region = DayRegionBlocks | SummaryRegionBlocks | WholeText

  /** What one block becomes in the given loop. */
  function Classify(part: string, region: Region): Option<Section> {
    ClassifyBlock(Block(part), region)
  }

  /** What a block with the given first line and rest becomes in the given loop. */
  function ClassifyBlock(block: Option<(string, string)>, region: Region): Option<Section> {
    match block
    case None => None
    case Some((first, rest)) =>
      match region
      case DayRegionBlocks =>
        if IsDayHeading(first) then Some(Day(first, rest, DayNumber(first))) else None
      case SummaryRegionBlocks =>
        if first != "" && !StartsWith(first, "-") then Some(Summary(first, rest)) else None
      case WholeText =>
        if IsDayHeading(first) then Some(Day(first, rest, DayNumber(first)))
        else if Contains(first, "Estimated total") || first == "Notes" || Contains(first, "total trip")
        then Some(Summary(first, rest))
        else None
  }

  function OptionToSeq<T>(o: Option<T>): seq<T> {
    match o
    case None => []
    case Some(x) => [x]
  }

  /** The sections the loop over `parts` pushes, in order. */
  function Sections(parts: seq<string>, region: Region): seq<Section> {
    if parts == [] then []
    else Sections(parts[..|parts| - 1], region) + OptionToSeq(Classify(parts[|parts| - 1], region))
  }

  /** One more block: its section, if any, goes after those of the blocks before it. */
  lemma {:induction false} SectionsSnoc(parts: seq<string>, region: Region, i: nat)
    requires i < |parts|
    ensures Sections(parts[..i + 1], region) == Sections(parts[..i], region) + OptionToSeq(Classify(parts[i], region))
  {
    assert parts[..i + 1][..i] == parts[..i];
  }

  predicate Delimited(text: string) {
    Contains(text, DayMarker) && Contains(text, SummaryMarker)
  }

  /** The day sections of delimited text. */
  function DelimitedDays(text: string): seq<Section> {
    match DayRegion(text)
    case None => []
    case Some(g) => Sections(Split(Trim(g), "\n\n"), DayRegionBlocks)
  }

  /** The summary sections of delimited text. */
  function DelimitedSummaries(text: string): seq<Section> {
    match SummaryRegion(text)
    case None => []
    case Some(g) => Sections(Split(Trim(g), "\n\n"), SummaryRegionBlocks)
  }

  /** What `parseItinerary(text)` returns. */
  function SectionsOf(text: string): seq<Section> {
    if Delimited(text) then DelimitedDays(text) + DelimitedSummaries(text)
    else Sections(Split(text, "\n\n"), WholeText)
  }

  /** `parseItinerary`: the delimited or the fallback reading, each a loop that pushes onto `sections`. */
  method ParseItinerary(text: string) returns (sections: seq<Section>)
    ensures sections == SectionsOf(text)
  {
    sections := [];
    if Contains(text, DayMarker) && Contains(text, SummaryMarker) {
      var dayMatch := DayRegion(text);
      var summaryMatch := SummaryRegion(text);
      if dayMatch.Some? {
        sections := PushDayBlocks(sections, Split(Trim(dayMatch.value), "\n\n"));
      }
      assert sections == DelimitedDays(text);
      if summaryMatch.Some? {
        sections := PushSummaryBlocks(sections, Split(Trim(summaryMatch.value), "\n\n"));
      }
      assert sections == DelimitedDays(text) + DelimitedSummaries(text);
    } else {
      sections := PushFallbackBlocks(sections, Split(text, "\n\n"));
    }
  }

  /** The loop over the blocks of the day region: only `Day <n>` blocks are kept. */
  method PushDayBlocks(init: seq<Section>, dayParts: seq<string>) returns (sections: seq<Section>)
    ensures sections == init + Sections(dayParts, DayRegionBlocks)
  {
    sections := init;
    var i := 0;
    while i < |dayParts|
      invariant 0 <= i <= |dayParts|
      invariant sections == init + Sections(dayParts[..i], DayRegionBlocks)
    {
      SectionsSnoc(dayParts, DayRegionBlocks, i);
      sections := PushDayPart(sections, dayParts[i]);
      i := i + 1;
    }
    assert dayParts[..i] == dayParts;
  }

  /** One turn of the day-region loop: the block is pushed when its first line is a day heading. */
  method PushDayPart(sections: seq<Section>, part: string) returns (r: seq<Section>)
    ensures r == sections + OptionToSeq(Classify(part, DayRegionBlocks))
  {
    r := sections;
    var block := Block(part);
    if block.Some? {
      var firstLine, rest := block.value.0, block.value.1;
      if IsDayHeading(firstLine) {
        r := r + [Day(firstLine, rest, DayNumber(firstLine))];
      }
    }
  }

  /** The loop over the blocks of the summary region: blocks whose first line does not start with `-` are kept. */
  method PushSummaryBlocks(init: seq<Section>, summaryParts: seq<string>) returns (sections: seq<Section>)
    ensures sections == init + Sections(summaryParts, SummaryRegionBlocks)
  {
    sections := init;
    var i := 0;
    while i < |summaryParts|
      invariant 0 <= i <= |summaryParts|
      invariant sections == init + Sections(summaryParts[..i], SummaryRegionBlocks)
    {
      SectionsSnoc(summaryParts, SummaryRegionBlocks, i);
      sections := PushSummaryPart(sections, summaryParts[i]);
      i := i + 1;
    }
    assert summaryParts[..i] == summaryParts;
  }

  /** One turn of the summary-region loop. */
  method PushSummaryPart(sections: seq<Section>, part: string) returns (r: seq<Section>)
    ensures r == sections + OptionToSeq(Classify(part, SummaryRegionBlocks))
  {
    r := sections;
    var block := Block(part);
    if block.Some? {
      var firstLine, rest := block.value.0, block.value.1;
      if firstLine != "" && !StartsWith(firstLine, "-") {
        r := r + [Summary(firstLine, rest)];
      }
    }
  }

  /** The loop of the fallback reading: day blocks and the blocks headed by a summary keyword are kept. */
  method PushFallbackBlocks(init: seq<Section>, parts: seq<string>) returns (sections: seq<Section>)
    ensures sections == init + Sections(parts, WholeText)
  {
    sections := init;
    var i := 0;
    while i < |parts|
      invariant 0 <= i <= |parts|
      invariant sections == init + Sections(parts[..i], WholeText)
    {
      SectionsSnoc(parts, WholeText, i);
      sections := PushFallbackPart(sections, parts[i]);
      i := i + 1;
    }
    assert parts[..i] == parts;
  }

  /** One turn of the fallback loop. */
  method PushFallbackPart(sections: seq<Section>, part: string) returns (r: seq<Section>)
    ensures r == sections + OptionToSeq(Classify(part, WholeText))
  {
    r := sections;
    var block := Block(part);
    if block.Some? {
      var firstLine, rest := block.value.0, block.value.1;
      if IsDayHeading(firstLine) {
        r := r + [Day(firstLine, rest, DayNumber(firstLine))];
      } else if Contains(firstLine, "Estimated total") || firstLine == "Notes" || Contains(firstLine, "total trip") {
        r := r + [Summary(firstLine, rest)];
      }
    }
  }

  // ---------------------------------------------------------------------
  // Properties

  /** The loop keeps block order: the sections of two runs of blocks are those of each, one after the other. */
  lemma {:induction false} SectionsAppend(a: seq<string>, b: seq<string>, region: Region)
    ensures Sections(a + b, region) == Sections(a, region) + Sections(b, region)
    decreases |b|
  {
    if b == [] {
      assert a + b == a;
    } else {
      var b', last := b[..|b| - 1], b[|b| - 1];
      assert (a + b)[..|a + b| - 1] == a + b';
      assert (a + b)[|a + b| - 1] == last;
      SectionsAppend(a, b', region);
      calc {
        Sections(a + b, region);
        Sections(a + b', region) + OptionToSeq(Classify(last, region));
        Sections(a, region) + Sections(b', region) + OptionToSeq(Classify(last, region));
        Sections(a, region) + Sections(b, region);
      }
    }
  }

  /** Every section comes from one block, and no block gives more than one. */
  lemma {:induction false} SectionsFromBlocks(parts: seq<string>, region: Region)
    ensures |Sections(parts, region)| <= |parts|
    ensures forall x :: x in Sections(parts, region) ==>
      exists j :: 0 <= j < |parts| && Classify(parts[j], region) == Some(x)
  {
    if parts != [] {
      var init := parts[..|parts| - 1];
      SectionsFromBlocks(init, region);
      forall x | x in Sections(parts, region)
        ensures exists j :: 0 <= j < |parts| && Classify(parts[j], region) == Some(x)
      {
        if x in Sections(init, region) {
          var j :| 0 <= j < |init| && Classify(init[j], region) == Some(x);
          assert parts[j] == init[j];
        } else {
          assert Classify(parts[|parts| - 1], region) == Some(x);
        }
      }
    }
  }

  /** The day region yields only day sections and the summary region only summary sections. */
  lemma {:induction false} RegionKinds(parts: seq<string>)
    ensures forall x :: x in Sections(parts, DayRegionBlocks) ==> x.Day?
    ensures forall x :: x in Sections(parts, SummaryRegionBlocks) ==> x.Summary?
  {
    SectionsFromBlocks(parts, DayRegionBlocks);
    SectionsFromBlocks(parts, SummaryRegionBlocks);
    forall x | x in Sections(parts, DayRegionBlocks)
      ensures x.Day?
    {
      var j :| 0 <= j < |parts| && Classify(parts[j], DayRegionBlocks) == Some(x);
      ClassifiedKind(parts[j], DayRegionBlocks);
    }
    forall x | x in Sections(parts, SummaryRegionBlocks)
      ensures x.Summary?
    {
      var j :| 0 <= j < |parts| && Classify(parts[j], SummaryRegionBlocks) == Some(x);
      ClassifiedKind(parts[j], SummaryRegionBlocks);
    }
  }

  /** Days followed by summaries: no day comes after a summary. */
  lemma {:induction false} DaysThenSummaries(days: seq<Section>, sums: seq<Section>)
    requires forall x :: x in days ==> x.Day?
    requires forall x :: x in sums ==> x.Summary?
    ensures var s := days + sums;
      forall i, j :: 0 <= i < j < |s| && s[i].Summary? ==> s[j].Summary?
  {
    var s := days + sums;
    assert forall i :: 0 <= i < |days| ==> s[i] == days[i] && days[i] in days;
    assert forall i :: |days| <= i < |s| ==> s[i] == sums[i - |days|] && sums[i - |days|] in sums;
  }

  /** Delimited text gives all its day sections first and then all its summary sections. */
  lemma {:induction false} DelimitedDaysFirst(text: string)
    requires Delimited(text)
    ensures var s := SectionsOf(text);
      forall i, j :: 0 <= i < j < |s| && s[i].Summary? ==> s[j].Summary?
  {
    DelimitedKinds(text);
    DaysThenSummaries(DelimitedDays(text), DelimitedSummaries(text));
  }

  /** The day region of delimited text gives only days, and the summary region only summaries. */
  lemma {:induction false} DelimitedKinds(text: string)
    ensures forall x :: x in DelimitedDays(text) ==> x.Day?
    ensures forall x :: x in DelimitedSummaries(text) ==> x.Summary?
  {
    match DayRegion(text) {
      case None =>
      case Some(g) => RegionKinds(Split(Trim(g), "\n\n"));
    }
    match SummaryRegion(text) {
      case None =>
      case Some(g) => RegionKinds(Split(Trim(g), "\n\n"));
    }
  }

  /** Every day section's title is a `Day <digits>` heading and its number is the value of those digits. */
  lemma {:induction false} DayTitles(parts: seq<string>, region: Region)
    ensures forall x :: x in Sections(parts, region) && x.Day? ==>
      IsDayHeading(x.title) && x.dayNumber == DecimalValue(x.title[4..])
  {
    SectionsFromBlocks(parts, region);
    forall x | x in Sections(parts, region) && x.Day?
      ensures IsDayHeading(x.title) && x.dayNumber == DecimalValue(x.title[4..])
    {
      var j :| 0 <= j < |parts| && Classify(parts[j], region) == Some(x);
      ClassifiedKind(parts[j], region);
    }
  }

  /** What one block can become: a day only under a day heading, with its number, and a summary only outside the day region. */
  lemma {:induction false} ClassifiedKind(part: string, region: Region)
    ensures var c := Classify(part, region);
      (c.Some? && c.value.Day? ==>
        (region != SummaryRegionBlocks && IsDayHeading(c.value.title) && c.value.dayNumber == DecimalValue(c.value.title[4..])))
      && (c.Some? && c.value.Summary? ==> region != DayRegionBlocks)
  {
  }

  /** The trimmed first line of a non-empty trimmed block is not empty and starts with the block's first character. */
  lemma {:induction false} FirstLineOfBlock(part: string)
    requires Trim(part) != ""
    ensures var t := Trim(part);
      var first := Trim(Split(t, "\n")[0]);
      first != "" && first[0] == t[0]
  {
    var t := Trim(part);
    var line := Split(t, "\n")[0];
    assert !OccursAt(t, "\n", 0) by { assert t[0..1] == [t[0]]; }
    assert line != [] && line[0] == t[0] by {
      match IndexOf(t, "\n") {
        case None =>
        case Some(i) => assert i != 0; assert line == t[..i];
      }
    }
    assert TrimStart(line) == line;
    TrimEndPrefix(line);
    assert TrimEnd(line) != [] by { assert !IsWhite(line[0]); }
  }

  /** In the summary region a block is a summary exactly when, trimmed, it is not empty and does not start with `-`. */
  lemma {:induction false} SummaryRegionBlockIff(part: string)
    ensures Classify(part, SummaryRegionBlocks).Some? <==> (Trim(part) != "" && Trim(part)[0] != '-')
  {
    if Trim(part) != "" {
      FirstLineOfBlock(part);
    }
  }

  /** A block is a day section exactly when its trimmed first line is a day heading, in either loop that looks for days. */
  lemma {:induction false} DayBlockIff(part: string, region: Region)
    requires region != SummaryRegionBlocks
    ensures (Classify(part, region).Some? && Classify(part, region).value.Day?) <==>
      (Block(part).Some? && IsDayHeading(Block(part).value.0))
  {
  }

  /**
   * Outside the delimited mode a block is a summary exactly when its trimmed
   * first line is not a day heading and mentions `Estimated total` or
   * `total trip`, or is `Notes`; its title is that line and its content the
   * rest of the block.
   */
  lemma {:induction false} FallbackSummaryIff(part: string)
    ensures var c := Classify(part, WholeText);
      (c.Some? && c.value.Summary?) <==>
        (Block(part).Some? && !IsDayHeading(Block(part).value.0) &&
         (Contains(Block(part).value.0, "Estimated total") || Block(part).value.0 == "Notes" ||
          Contains(Block(part).value.0, "total trip")))
    ensures var c := Classify(part, WholeText);
      c.Some? && c.value.Summary? ==> c.value == Summary(Block(part).value.0, Block(part).value.1)
  {
  }
}

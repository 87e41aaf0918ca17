/**
 * `parseDayContent` of ItineraryDisplay.jsx: the lines of a day section's
 * content are read one by one. A line whose trimmed text starts with one of
 * six field prefixes sets that field and becomes the current field; while the
 * current field is the overnight stay, detail bullets are added to its list;
 * before any field has been seen, other bullets are collected apart.
 */
module DayContent {
  import opened Wrappers
  import opened Text

  /** The fields a day's content can set, in the order the source tests their prefixes. */
  datatype Field = Route | RouteCoordinates | Driving | StartTime | Notes | Overnight

  function Prefix(f: Field): string {
    match f
    case Route => "- Route:"
    case RouteCoordinates => "- Route Coordinates:"
    case Driving => "- Driving:"
    case StartTime => "- Start time suggestion:"
    case Notes => "- Notes:"
    case Overnight => "- Overnight:"
  }

  /**
   * How many leading characters of the trimmed line `substring` drops: every
   * prefix but the start-time one loses one more character than its length.
   */
  function Cut(f: Field): (n: nat)
    ensures n == |Prefix(f)| + (if f == StartTime then 0 else 1)
  {
    match f
    case Route => 9
    case RouteCoordinates => 21
    case Driving => 11
    case StartTime => 24
    case Notes => 9
    case Overnight => 13
  }

  /** The first prefix test, in the source's order, that a trimmed line passes. */
  function FieldOf(t: string): Option<Field> {
    if StartsWith(t, Prefix(Route)) then Some(Route)
    else if StartsWith(t, Prefix(RouteCoordinates)) then Some(RouteCoordinates)
    else if StartsWith(t, Prefix(Driving)) then Some(Driving)
    else if StartsWith(t, Prefix(StartTime)) then Some(StartTime)
    else if StartsWith(t, Prefix(Notes)) then Some(Notes)
    else if StartsWith(t, Prefix(Overnight)) then Some(Overnight)
    else None
  }

  /** No line starts with two different prefixes. */
  lemma {:induction false} PrefixesExclusive(t: string, f: Field, g: Field)
    requires f != g
    ensures !(StartsWith(t, Prefix(f)) && StartsWith(t, Prefix(g)))
  {
    var p, q := Prefix(f), Prefix(g);
    assert p[2] != q[2] || p[7] != q[7];
    assert StartsWith(t, p) ==> t[2] == p[2] && t[7] == p[7];
    assert StartsWith(t, q) ==> t[2] == q[2] && t[7] == q[7];
  }

  /** The order of the tests does not matter: a line is read as a field exactly when it starts with that field's prefix. */
  lemma {:induction false} FieldOfIff(t: string, f: Field)
    ensures FieldOf(t) == Some(f) <==> StartsWith(t, Prefix(f))
  {
    forall g | g != f {
      PrefixesExclusive(t, f, g);
    }
  }

  /** The value a field line gives its field: the trimmed line less `Cut(f)` characters, trimmed. */
  function FieldValue(t: string, f: Field): string {
    Trim(Drop(t, Cut(f)))
  }

  /** A field line written as its prefix, a space (none after the start-time prefix) and a value gives that value, trimmed. */
  lemma {:induction false} FieldValueOfLine(f: Field, v: string)
    ensures var gap := if f == StartTime then "" else " ";
      FieldValue(Prefix(f) + gap + v, f) == Trim(v)
  {
    var gap := if f == StartTime then "" else " ";
    var line := Prefix(f) + gap + v;
    assert |line| == Cut(f) + |v|;
    assert line[Cut(f)..] == v;
  }

  /** Without the space after the colon, the value loses its first character. */
  lemma FieldValueWithoutSpace()
    ensures FieldValue("- Route:Seattle", Route) == "eattle"
  {
    assert Drop("- Route:Seattle", 9) == "eattle";
    TrimOfTrimmed("eattle");
  }

  /** A line the source adds to the overnight details while the overnight stay is current. */
  predicate IsDetailLine(t: string) {
    || StartsWith(t, "  - ")
    || (StartsWith(t, "- ")
        && (Contains(t, "Accommodation options:") || Contains(t, "Dining options:") || Contains(t, "Why ")))
  }

  /** A detail line without its bullet, trimmed. */
  function DetailText(t: string): string {
    Trim(Drop(t, if StartsWith(t, "  - ") then 4 else 2))
  }

  /** A trimmed line never starts with white space, so the indented-bullet test never fires and details always lose `- `. */
  lemma {:induction false} TrimmedNotIndented(line: string)
    ensures !StartsWith(Trim(line), "  - ")
    ensures DetailText(Trim(line)) == Trim(Drop(Trim(line), 2))
  {
  }

  datatype OvernightStay = OvernightStay(city: string, details: seq<string>)

  /** The `sections` object: a field is absent until its line is seen; `other` is created by its first bullet. */
  datatype DayFields = DayFields(
    route: Option<string>,
    routeCoordinates: Option<string>,
    driving: Option<string>,
    startTime: Option<string>,
    notes: Option<string>,
    overnight: Option<OvernightStay>,
    other: Option<seq<string>>)

  const NoFields := DayFields(None, None, None, None, None, None, None)

  /** The value held for a field; for the overnight stay, its city. */
  function Value(d: DayFields, f: Field): Option<string> {
    match f
    case Route => d.route
    case RouteCoordinates => d.routeCoordinates
    case Driving => d.driving
    case StartTime => d.startTime
    case Notes => d.notes
    case Overnight => if d.overnight.Some? then Some(d.overnight.value.city) else None
  }

  /** The object after a field line for `f` with value `v`: a new overnight stay starts with no details. */
  function SetField(d: DayFields, f: Field, v: string): (r: DayFields)
    ensures Value(r, f) == Some(v)
    ensures forall g :: g != f ==> Value(r, g) == Value(d, g)
    ensures r.other == d.other
    ensures f == Overnight ==> r.overnight == Some(OvernightStay(v, []))
    ensures f != Overnight ==> r.overnight == d.overnight
  {
    match f
    case Route => d.(route := Some(v))
    case RouteCoordinates => d.(routeCoordinates := Some(v))
    case Driving => d.(driving := Some(v))
    case StartTime => d.(startTime := Some(v))
    case Notes => d.(notes := Some(v))
    case Overnight => d.(overnight := Some(OvernightStay(v, [])))
  }

  /** The scanner's state: the object built so far and `currentSection`. */
  datatype Scan = Scan(fields: DayFields, current: Option<Field>)

  /** `currentSubItems` is the current overnight stay's list whenever the overnight stay is current. */
  predicate Linked(sc: Scan) {
    sc.current == Some(Overnight) ==> sc.fields.overnight.Some?
  }

  /** One pass of the loop body over `line`. */
  function Step(sc: Scan, line: string): (r: Scan)
    requires Linked(sc)
    ensures Linked(r)
  {
    var t := Trim(line);
    var f := FieldOf(t);
    if f.Some? then Scan(SetField(sc.fields, f.value, FieldValue(t, f.value)), f)
    else if IsDetailLine(t) && sc.current == Some(Overnight) then
      var stay := sc.fields.overnight.value;
      Scan(sc.fields.(overnight := Some(stay.(details := stay.details + [DetailText(t)]))), sc.current)
    else if StartsWith(t, "- ") && sc.current.None? then
      Scan(sc.fields.(other := Some(sc.fields.other.GetOr([]) + [Trim(Drop(t, 2))])), sc.current)
    else sc
  }

  /** The state after the loop has read `lines`. */
  function ScanLines(lines: seq<string>): (r: Scan)
    ensures Linked(r)
  {
    if lines == [] then Scan(NoFields, None)
    else Step(ScanLines(lines[..|lines| - 1]), lines[|lines| - 1])
  }

  /** What `parseDayContent(text)` returns. */
  function DayFieldsOf(text: string): DayFields {
    ScanLines(Split(text, "\n")).fields
  }

  lemma {:induction false} ScanSnoc(lines: seq<string>, i: nat)
    requires i < |lines|
    ensures ScanLines(lines[..i + 1]) == Step(ScanLines(lines[..i]), lines[i])
  {
    assert lines[..i + 1][..i] == lines[..i];
  }

  /** The object the loop's variables stand for: the overnight stay's details are `currentSubItems`. */
  function Assemble(route: Option<string>, routeCoordinates: Option<string>, driving: Option<string>,
                    startTime: Option<string>, notes: Option<string>, overnightCity: Option<string>,
                    currentSubItems: seq<string>, other: Option<seq<string>>): DayFields
  {
    DayFields(route, routeCoordinates, driving, startTime, notes,
      if overnightCity.Some? then Some(OvernightStay(overnightCity.value, currentSubItems)) else None,
      other)
  }

  /**
   * `parseDayContent`. `currentSubItems` aliases the details list of the
   * overnight stay, so the stay is kept as its city plus that one list.
   */
  method ParseDayContent(text: string) returns (fields: DayFields)
    ensures fields == DayFieldsOf(text)
  {
    var lines := Split(text, "\n");
    var route, routeCoordinates, driving, startTime, notes := None, None, None, None, None;
    var overnightCity: Option<string> := None;
    var other: Option<seq<string>> := None;
    var currentSection: Option<Field> := None;
    var currentSubItems: seq<string> := [];
    var i := 0;
    while i < |lines|
      invariant 0 <= i <= |lines|
      invariant ScanLines(lines[..i]) ==
        Scan(Assemble(route, routeCoordinates, driving, startTime, notes, overnightCity, currentSubItems, other),
             currentSection)
    {
      ghost var before := ScanLines(lines[..i]);
      ScanSnoc(lines, i);
      var trimmed := Trim(lines[i]);
      if StartsWith(trimmed, "- Route:") {
        currentSection := Some(Route);
        route := Some(Trim(Drop(trimmed, 9)));
      } else if StartsWith(trimmed, "- Route Coordinates:") {
        currentSection := Some(RouteCoordinates);
        routeCoordinates := Some(Trim(Drop(trimmed, 21)));
      } else if StartsWith(trimmed, "- Driving:") {
        currentSection := Some(Driving);
        driving := Some(Trim(Drop(trimmed, 11)));
      } else if StartsWith(trimmed, "- Start time suggestion:") {
        currentSection := Some(StartTime);
        startTime := Some(Trim(Drop(trimmed, 24)));
      } else if StartsWith(trimmed, "- Notes:") {
        currentSection := Some(Notes);
        notes := Some(Trim(Drop(trimmed, 9)));
      } else if StartsWith(trimmed, "- Overnight:") {
        currentSection := Some(Overnight);
        overnightCity := Some(Trim(Drop(trimmed, 13)));
        currentSubItems := [];
      } else if (StartsWith(trimmed, "  - ")
                 || (StartsWith(trimmed, "- ")
                     && (Contains(trimmed, "Accommodation options:") || Contains(trimmed, "Dining options:")
                         || Contains(trimmed, "Why "))))
                && currentSection == Some(Overnight) {
        var prefix := if StartsWith(trimmed, "  - ") then "  - " else "- ";
        currentSubItems := currentSubItems + [Trim(Drop(trimmed, |prefix|))];
      } else if StartsWith(trimmed, "- ") && currentSection.None? {
        other := Some(other.GetOr([]) + [Trim(Drop(trimmed, 2))]);
      }
      assert ScanLines(lines[..i + 1]) == Step(before, lines[i]);
      i := i + 1;
    }
    assert lines[..i] == lines;
    fields := Assemble(route, routeCoordinates, driving, startTime, notes, overnightCity, currentSubItems, other);
  }

  // ---------------------------------------------------------------------
  // What the scan computes, stated line by line

  /** A line whose trimmed text sets a field. */
  predicate IsFieldLine(line: string) {
    FieldOf(Trim(line)).Some?
  }

  /** The index of the last line for `f`, or -1 when there is none. */
  function LastIndexOf(lines: seq<string>, f: Field): (k: int)
    ensures -1 <= k < |lines|
    ensures k >= 0 ==> FieldOf(Trim(lines[k])) == Some(f)
    ensures forall j :: k < j < |lines| ==> FieldOf(Trim(lines[j])) != Some(f)
  {
    if lines == [] then -1
    else if FieldOf(Trim(lines[|lines| - 1])) == Some(f) then |lines| - 1
    else
      var init := lines[..|lines| - 1];
      assert forall j :: 0 <= j < |init| ==> init[j] == lines[j];
      LastIndexOf(init, f)
  }

  /** The index of the last field line, or -1 when there is none. */
  function LastFieldIndex(lines: seq<string>): (k: int)
    ensures -1 <= k < |lines|
    ensures k >= 0 ==> IsFieldLine(lines[k])
    ensures forall j :: k < j < |lines| ==> !IsFieldLine(lines[j])
  {
    if lines == [] then -1
    else if IsFieldLine(lines[|lines| - 1]) then |lines| - 1
    else
      var init := lines[..|lines| - 1];
      assert forall j :: 0 <= j < |init| ==> init[j] == lines[j];
      LastFieldIndex(init)
  }

  /** The index of the first field line, or the number of lines when there is none. */
  function FirstFieldIndex(lines: seq<string>): (k: nat)
    ensures k <= |lines|
    ensures k < |lines| ==> IsFieldLine(lines[k])
    ensures forall j :: 0 <= j < k ==> !IsFieldLine(lines[j])
  {
    if lines == [] then 0
    else
      var init := lines[..|lines| - 1];
      var k := FirstFieldIndex(init);
      assert forall j :: 0 <= j < |init| ==> init[j] == lines[j];
      if k < |init| then k
      else if IsFieldLine(lines[|lines| - 1]) then |lines| - 1
      else |lines|
  }

  /** The items of the plain bullets (`- ` lines that set no field), in order. */
  function Bullets(lines: seq<string>): seq<string> {
    if lines == [] then [] else Bullets(lines[..|lines| - 1]) + BulletItem(lines[|lines| - 1])
  }

  /** The item a plain bullet line contributes: its text after `- `, trimmed. */
  function BulletItem(line: string): seq<string> {
    var t := Trim(line);
    if StartsWith(t, "- ") && FieldOf(t).None? then [Trim(Drop(t, 2))] else []
  }

  /** The items of the detail lines that set no field, in order. */
  function Details(lines: seq<string>): seq<string> {
    if lines == [] then []
    else
      var t := Trim(lines[|lines| - 1]);
      Details(lines[..|lines| - 1]) + (if FieldOf(t).None? && IsDetailLine(t) then [DetailText(t)] else [])
  }

  /** `other` is absent until a first item is added. */
  function AsOther(items: seq<string>): Option<seq<string>> {
    if items == [] then None else Some(items)
  }

  /** One line changes a field's value only when it is a line for that field. */
  lemma {:induction false} StepValue(sc: Scan, line: string, f: Field)
    requires Linked(sc)
    ensures Value(Step(sc, line).fields, f) ==
      if FieldOf(Trim(line)) == Some(f) then Some(FieldValue(Trim(line), f)) else Value(sc.fields, f)
  {
  }

  /** One line changes `other` only when it is a plain bullet read before any field. */
  lemma {:induction false} StepOther(sc: Scan, line: string)
    requires Linked(sc)
    ensures var t := Trim(line);
      Step(sc, line).fields.other ==
        if FieldOf(t).None? && sc.current.None? && StartsWith(t, "- ")
        then Some(sc.fields.other.GetOr([]) + [Trim(Drop(t, 2))])
        else sc.fields.other
  {
  }

  /** One line changes the overnight stay only when it starts one, or adds a detail while the stay is current. */
  lemma {:induction false} StepOvernight(sc: Scan, line: string)
    requires Linked(sc)
    ensures var t := Trim(line);
      Step(sc, line).fields.overnight ==
        if FieldOf(t) == Some(Overnight) then Some(OvernightStay(FieldValue(t, Overnight), []))
        else if FieldOf(t).None? && IsDetailLine(t) && sc.current == Some(Overnight) then
          Some(sc.fields.overnight.value.(details := sc.fields.overnight.value.details + [DetailText(t)]))
        else sc.fields.overnight
  {
  }

  /** A later line for the same field overwrites the earlier one: each field holds the value of its last line. */
  lemma {:induction false} ValueIsLast(lines: seq<string>, f: Field)
    ensures var k := LastIndexOf(lines, f);
      Value(ScanLines(lines).fields, f) == if k < 0 then None else Some(FieldValue(Trim(lines[k]), f))
  {
    if lines != [] {
      var init := lines[..|lines| - 1];
      ValueIsLast(init, f);
      StepValue(ScanLines(init), lines[|lines| - 1], f);
      var k := LastIndexOf(init, f);
      assert k >= 0 ==> init[k] == lines[k];
    }
  }

  /** `currentSection` is the field of the last field line, and is never reset. */
  lemma {:induction false} CurrentIsLastField(lines: seq<string>)
    ensures var k := LastFieldIndex(lines);
      ScanLines(lines).current == if k < 0 then None else FieldOf(Trim(lines[k]))
  {
    if lines != [] {
      var init := lines[..|lines| - 1];
      CurrentIsLastField(init);
      var k := LastFieldIndex(init);
      assert k >= 0 ==> init[k] == lines[k];
    }
  }

  /** Before any field, a line that sets no field adds its bullet item, if any, to `other`. */
  lemma {:induction false} StepOtherItem(sc: Scan, line: string, items: seq<string>)
    requires Linked(sc) && sc.current.None? && sc.fields.other == AsOther(items)
    requires !IsFieldLine(line)
    ensures Step(sc, line).fields.other == AsOther(items + BulletItem(line))
  {
    StepOther(sc, line);
    if BulletItem(line) == [] {
      assert items + BulletItem(line) == items;
    }
  }

  /** `other` holds the plain bullets that come before the first field line, and nothing once a field has been seen. */
  lemma {:induction false} OtherBeforeFirstField(lines: seq<string>)
    ensures ScanLines(lines).fields.other == AsOther(Bullets(lines[..FirstFieldIndex(lines)]))
  {
    if lines != [] {
      var init := lines[..|lines| - 1];
      OtherBeforeFirstField(init);
      if FirstFieldIndex(init) < |init| {
        OtherAfterField(lines);
      } else {
        OtherBeforeField(lines);
      }
    }
  }

  /** Once a field line has been read, later lines leave `other` alone. */
  lemma {:induction false} OtherAfterField(lines: seq<string>)
    requires lines != [] && FirstFieldIndex(lines[..|lines| - 1]) < |lines| - 1
    requires var init := lines[..|lines| - 1];
      ScanLines(init).fields.other == AsOther(Bullets(init[..FirstFieldIndex(init)]))
    ensures ScanLines(lines).fields.other == AsOther(Bullets(lines[..FirstFieldIndex(lines)]))
  {
    var init := lines[..|lines| - 1];
    var k := FirstFieldIndex(init);
    CurrentIsLastField(init);
    StepOther(ScanLines(init), lines[|lines| - 1]);
    assert LastFieldIndex(init) >= k by { assert IsFieldLine(init[k]); }
    assert FirstFieldIndex(lines) == k;
    assert lines[..k] == init[..k];
  }

  /** While no field line has been read, each line adds its bullet item to `other`. */
  lemma {:induction false} OtherBeforeField(lines: seq<string>)
    requires lines != [] && FirstFieldIndex(lines[..|lines| - 1]) == |lines| - 1
    requires var init := lines[..|lines| - 1];
      ScanLines(init).fields.other == AsOther(Bullets(init[..FirstFieldIndex(init)]))
    ensures ScanLines(lines).fields.other == AsOther(Bullets(lines[..FirstFieldIndex(lines)]))
  {
    var n := |lines| - 1;
    var init, y := lines[..n], lines[n];
    assert init[..n] == init;
    var sc := ScanLines(init);
    CurrentIsLastField(init);
    if IsFieldLine(y) {
      StepOther(sc, y);
      assert FirstFieldIndex(lines) == n;
    } else {
      assert FirstFieldIndex(lines) == |lines|;
      assert lines[..|lines|] == lines;
      StepOtherItem(sc, y, Bullets(init));
    }
  }

  /**
   * The overnight stay is the one of the last overnight line: its city, and as
   * details the detail lines after it up to the next field line.
   */
  lemma {:induction false} OvernightIsLastStay(lines: seq<string>)
    ensures var k := LastIndexOf(lines, Overnight);
      var after := lines[k + 1..];
      ScanLines(lines).fields.overnight ==
        if k < 0 then None
        else Some(OvernightStay(FieldValue(Trim(lines[k]), Overnight), Details(after[..FirstFieldIndex(after)])))
  {
    if lines != [] {
      var n := |lines| - 1;
      var init, y := lines[..n], lines[n];
      var sc := ScanLines(init);
      assert ScanLines(lines) == Step(sc, y);
      OvernightIsLastStay(init);
      CurrentIsLastField(init);
      StepOvernight(sc, y);
      var t := Trim(y);
      var k := LastIndexOf(init, Overnight);
      if FieldOf(t) == Some(Overnight) {
        assert LastIndexOf(lines, Overnight) == n;
        var after: seq<string> := lines[n + 1..];
        assert after == [];
        assert Details(after[..FirstFieldIndex(after)]) == [];
        assert Step(sc, y).fields.overnight == Some(OvernightStay(FieldValue(t, Overnight), []));
        assert ScanLines(lines).fields.overnight ==
          Some(OvernightStay(FieldValue(Trim(lines[n]), Overnight), Details(after[..FirstFieldIndex(after)])));
      } else if k < 0 {
        assert LastIndexOf(lines, Overnight) == -1;
        assert sc.fields.overnight == None;
        assert Step(sc, y).fields.overnight == None;
      } else {
        assert LastIndexOf(lines, Overnight) == k;
        assert init[k] == lines[k];
        var city := FieldValue(Trim(lines[k]), Overnight);
        var before := init[k + 1..];
        DropSnoc(lines, k);
        var m := FirstFieldIndex(before);
        if m < |before| {
          assert IsFieldLine(init[k + 1 + m]);
          assert LastFieldIndex(init) >= k + 1 + m;
        } else {
          assert LastFieldIndex(init) == k;
        }
        OvernightStep(sc.fields.overnight, Step(sc, y).fields.overnight, sc.current == Some(Overnight),
          y, city, before);
      }
    }
  }

  /**
   * The inductive step of `OvernightIsLastStay` for a line `y` that does not
   * start a new stay: `next` is the stay after `y`, as `StepOvernight` gives it.
   */
  lemma {:induction false} OvernightStep(prev: Option<OvernightStay>, next: Option<OvernightStay>, staying: bool,
                      y: string, city: string, before: seq<string>)
    requires prev == Some(OvernightStay(city, Details(before[..FirstFieldIndex(before)])))
    requires staying <==> FirstFieldIndex(before) == |before|
    requires FieldOf(Trim(y)) != Some(Overnight)
    requires next == if FieldOf(Trim(y)).None? && IsDetailLine(Trim(y)) && staying
      then Some(prev.value.(details := prev.value.details + [DetailText(Trim(y))]))
      else prev
    ensures var after := before + [y];
      next == Some(OvernightStay(city, Details(after[..FirstFieldIndex(after)])))
  {
    var t := Trim(y);
    if FirstFieldIndex(before) < |before| || IsFieldLine(y) {
      DetailsKept(before, y);
    } else {
      assert before[..FirstFieldIndex(before)] == before;
      DetailsGrow(before, y);
      NextGrown(prev, next, FieldOf(t).None? && IsDetailLine(t), staying, DetailText(t), city, Details(before));
    }
  }

  /** A stay that gains `d` exactly when `c` holds. */
  lemma {:induction false} NextGrown(prev: Option<OvernightStay>, next: Option<OvernightStay>, c: bool, staying: bool,
                  d: string, city: string, details: seq<string>)
    requires prev == Some(OvernightStay(city, details))
    requires staying
    requires next == if c && staying then Some(prev.value.(details := prev.value.details + [d])) else prev
    ensures next == Some(OvernightStay(city, details + (if c then [d] else [])))
  {
    if !c {
      AppendNothing(details);
    }
  }

  /** Once a field line has been read, the details up to the first one stay as they are. */
  lemma {:induction false} DetailsKept(before: seq<string>, y: string)
    requires FirstFieldIndex(before) < |before| || IsFieldLine(y)
    ensures var m, after := FirstFieldIndex(before), before + [y];
      Details(after[..FirstFieldIndex(after)]) == Details(before[..m])
  {
    var m, after := FirstFieldIndex(before), before + [y];
    FirstFieldSnoc(before, y);
    assert after[..m] == before[..m];
  }

  /** Before any field line, a line that sets no field adds its detail, if it is one. */
  lemma {:induction false} DetailsGrow(before: seq<string>, y: string)
    requires FirstFieldIndex(before) == |before| && !IsFieldLine(y)
    ensures var after, t := before + [y], Trim(y);
      Details(after[..FirstFieldIndex(after)]) ==
        Details(before) + (if FieldOf(t).None? && IsDetailLine(t) then [DetailText(t)] else [])
  {
    NoFieldLineSnoc(before, y);
    WholePrefix(before + [y]);
    DetailsSnoc(before, y);
  }

  lemma {:induction false} NoFieldLineSnoc(before: seq<string>, y: string)
    requires FirstFieldIndex(before) == |before| && !IsFieldLine(y)
    ensures FirstFieldIndex(before + [y]) == |before| + 1
  {
    FirstFieldSnoc(before, y);
  }

  lemma {:induction false} AppendNothing(s: seq<string>)
    ensures s + [] == s
  {
  }

  lemma {:induction false} WholePrefix(lines: seq<string>)
    requires FirstFieldIndex(lines) == |lines|
    ensures lines[..FirstFieldIndex(lines)] == lines
  {
  }

  /** Appending a line that sets no field appends its detail, if it is one. */
  lemma {:induction false} DetailsSnoc(before: seq<string>, y: string)
    ensures var t := Trim(y);
      Details(before + [y]) ==
        Details(before) + (if FieldOf(t).None? && IsDetailLine(t) then [DetailText(t)] else [])
  {
    assert (before + [y])[..|before|] == before;
  }

  lemma {:induction false} DropSnoc(lines: seq<string>, k: nat)
    requires k < |lines| - 1
    ensures lines[k + 1..] == lines[..|lines| - 1][k + 1..] + [lines[|lines| - 1]]
  {
  }

  /** Appending a line keeps an earlier first field line, and otherwise the new line may be the first. */
  lemma {:induction false} FirstFieldSnoc(lines: seq<string>, y: string)
    ensures var k := FirstFieldIndex(lines);
      FirstFieldIndex(lines + [y]) ==
        if k < |lines| then k else if IsFieldLine(y) then |lines| else |lines| + 1
  {
    assert (lines + [y])[..|lines|] == lines;
  }
}

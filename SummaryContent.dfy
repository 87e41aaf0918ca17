/**
 * `parseSummaryContent` of ItineraryDisplay.jsx: the lines of a summary
 * section become paragraphs and bullet lists. Consecutive `- ` lines are
 * gathered into one list; a blank line or a line of plain text closes the
 * open list, and each line of plain text is a paragraph of its own.
 */
module SummaryContent {
  import opened Text

  datatype Element = Paragraph(text: string) | BulletList(items: seq<string>)

  /** A trimmed line that is a bullet point. */
  predicate IsBullet(t: string) {
    StartsWith(t, "- ")
  }

  /** The parser's state: `elements`, and whether `currentList` is open, in which case it is the last element. */
  datatype Grouping = Grouping(elements: seq<Element>, open: bool)

  predicate Linked(g: Grouping) {
    g.open ==> |g.elements| > 0 && g.elements[|g.elements| - 1].BulletList?
  }

  /** One pass of the loop body over `line`. */
  function Step(g: Grouping, line: string): (r: Grouping)
    requires Linked(g)
    ensures Linked(r)
  {
    var t := Trim(line);
    if IsBullet(t) then
      if g.open then
        var n := |g.elements| - 1;
        Grouping(g.elements[..n] + [BulletList(g.elements[n].items + [Drop(t, 2)])], true)
      else Grouping(g.elements + [BulletList([Drop(t, 2)])], true)
    else if t == "" then Grouping(g.elements, false)
    else Grouping(g.elements + [Paragraph(t)], false)
  }

  /** The state after the loop has read `lines`. */
  function Group(lines: seq<string>): (r: Grouping)
    ensures Linked(r)
  {
    if lines == [] then Grouping([], false)
    else Step(Group(lines[..|lines| - 1]), lines[|lines| - 1])
  }

  /** What `parseSummaryContent(text)` returns. */
  function SummaryElements(text: string): seq<Element> {
    Group(Split(text, "\n")).elements
  }

  lemma {:induction false} GroupSnoc(lines: seq<string>, i: nat)
    requires i < |lines|
    ensures Group(lines[..i + 1]) == Step(Group(lines[..i]), lines[i])
  {
    assert lines[..i + 1][..i] == lines[..i];
  }

  /**
   * `parseSummaryContent`. `currentList` is pushed onto `elements` when it is
   * created and filled afterwards, so the open list is the last element and
   * the flag `listOpen` says whether `currentList` holds it.
   */
  method ParseSummaryContent(text: string) returns (elements: seq<Element>)
    ensures elements == SummaryElements(text)
  {
    var lines := Split(text, "\n");
    elements := [];
    var listOpen := false;
    var i := 0;
    while i < |lines|
      invariant 0 <= i <= |lines|
      invariant Group(lines[..i]) == Grouping(elements, listOpen)
    {
      GroupSnoc(lines, i);
      var trimmed := Trim(lines[i]);
      if StartsWith(trimmed, "- ") {
        ghost var prior := elements;
        if !listOpen {
          elements := elements + [BulletList([])];
          listOpen := true;
        }
        var n := |elements| - 1;
        elements := elements[..n] + [BulletList(elements[n].items + [Drop(trimmed, 2)])];
        if |prior| == n {
          assert elements == prior + [BulletList([] + [Drop(trimmed, 2)])];
          assert [] + [Drop(trimmed, 2)] == [Drop(trimmed, 2)];
        } else {
          assert elements == prior[..n] + [BulletList(prior[n].items + [Drop(trimmed, 2)])];
        }
      } else if trimmed == "" {
        listOpen := false;
      } else {
        listOpen := false;
        elements := elements + [Paragraph(trimmed)];
      }
      i := i + 1;
    }
    assert lines[..i] == lines;
  }

  // ---------------------------------------------------------------------
  // What the grouping keeps

  /** The text a line contributes: a bullet without its `- `, otherwise the line itself. */
  function ItemOf(t: string): string {
    if IsBullet(t) then Drop(t, 2) else t
  }

  /** One item per non-blank line, in order. */
  function Items(lines: seq<string>): seq<string> {
    if lines == [] then []
    else
      var t := Trim(lines[|lines| - 1]);
      Items(lines[..|lines| - 1]) + (if t == "" then [] else [ItemOf(t)])
  }

  function ElementItems(e: Element): seq<string> {
    match e
    case Paragraph(t) => [t]
    case BulletList(items) => items
  }

  /** The items of all elements, in order. */
  function Flatten(es: seq<Element>): seq<string> {
    if es == [] then []
    else Flatten(es[..|es| - 1]) + ElementItems(es[|es| - 1])
  }

  lemma {:induction false} FlattenSnoc(es: seq<Element>, e: Element)
    ensures Flatten(es + [e]) == Flatten(es) + ElementItems(e)
  {
    assert (es + [e])[..|es|] == es;
  }

  /** Adding an item to the last list adds it at the end. */
  lemma {:induction false} FlattenExtend(es: seq<Element>, x: string)
    requires |es| > 0 && es[|es| - 1].BulletList?
    ensures var n := |es| - 1;
      Flatten(es[..n] + [BulletList(es[n].items + [x])]) == Flatten(es) + [x]
  {
    var n := |es| - 1;
    FlattenSnoc(es[..n], BulletList(es[n].items + [x]));
    assert Flatten(es) == Flatten(es[..n]) + es[n].items;
  }

  /** Every non-blank line gives exactly one item, in the order of the lines: nothing is lost, added or reordered. */
  lemma {:induction false} ItemsInOrder(lines: seq<string>)
    ensures Flatten(Group(lines).elements) == Items(lines)
  {
    if lines != [] {
      var n := |lines| - 1;
      var init, y := lines[..n], lines[n];
      var g := Group(init);
      ItemsInOrder(init);
      var t := Trim(y);
      assert Items(lines) == Items(init) + (if t == "" then [] else [ItemOf(t)]);
      if IsBullet(t) {
        if g.open {
          FlattenExtend(g.elements, Drop(t, 2));
        } else {
          FlattenSnoc(g.elements, BulletList([Drop(t, 2)]));
        }
      } else if t == "" {
        assert Items(lines) == Items(init) + [];
        assert Items(init) + [] == Items(init);
      } else {
        FlattenSnoc(g.elements, Paragraph(t));
      }
    }
  }

  /** No list is empty. */
  predicate NonEmptyLists(es: seq<Element>) {
    forall k :: 0 <= k < |es| && es[k].BulletList? ==> es[k].items != []
  }

  lemma {:induction false} ListsAreNonEmpty(lines: seq<string>)
    ensures NonEmptyLists(Group(lines).elements)
  {
    if lines != [] {
      var n := |lines| - 1;
      ListsAreNonEmpty(lines[..n]);
      var es := Group(lines[..n]).elements;
      var r := Group(lines).elements;
      assert forall k :: 0 <= k < |es| - 1 ==> k < |r| && r[k] == es[k];
    }
  }

  /** The list is open exactly when the last line read was a bullet. */
  lemma {:induction false} OpenAfterBullet(lines: seq<string>)
    ensures Group(lines).open <==> lines != [] && IsBullet(Trim(lines[|lines| - 1]))
  {
  }

  /** A non-blank line starts a new element unless it is a bullet right after a bullet. */
  predicate StartsElement(init: seq<string>, y: string) {
    var t := Trim(y);
    t != "" && (!IsBullet(t) || init == [] || !IsBullet(Trim(init[|init| - 1])))
  }

  /** The number of lines that start an element. */
  function Starts(lines: seq<string>): nat {
    if lines == [] then 0
    else
      var n := |lines| - 1;
      Starts(lines[..n]) + (if StartsElement(lines[..n], lines[n]) then 1 else 0)
  }

  /** One element per maximal run of consecutive bullet lines and per line of plain text. */
  lemma {:induction false} ElementPerRun(lines: seq<string>)
    ensures |Group(lines).elements| == Starts(lines)
  {
    if lines != [] {
      var n := |lines| - 1;
      ElementPerRun(lines[..n]);
      OpenAfterBullet(lines[..n]);
    }
  }

  /** The texts of the paragraphs, in order. */
  function Paragraphs(es: seq<Element>): seq<string> {
    if es == [] then []
    else
      var e := es[|es| - 1];
      Paragraphs(es[..|es| - 1]) + (if e.Paragraph? then [e.text] else [])
  }

  /** The trimmed lines of plain text, in order. */
  function PlainLines(lines: seq<string>): seq<string> {
    if lines == [] then []
    else
      var t := Trim(lines[|lines| - 1]);
      PlainLines(lines[..|lines| - 1]) + (if t != "" && !IsBullet(t) then [t] else [])
  }

  lemma {:induction false} ParagraphsSnoc(es: seq<Element>, e: Element)
    ensures Paragraphs(es + [e]) == Paragraphs(es) + (if e.Paragraph? then [e.text] else [])
  {
    assert (es + [e])[..|es|] == es;
  }

  /** Each line of plain text is one paragraph, trimmed, and the paragraphs keep the order of the lines. */
  lemma {:induction false} ParagraphsArePlainLines(lines: seq<string>)
    ensures Paragraphs(Group(lines).elements) == PlainLines(lines)
  {
    if lines != [] {
      var n := |lines| - 1;
      var init, y := lines[..n], lines[n];
      var g := Group(init);
      ParagraphsArePlainLines(init);
      var t := Trim(y);
      if IsBullet(t) {
        assert PlainLines(lines) == PlainLines(init) + [];
        assert PlainLines(init) + [] == PlainLines(init);
        if g.open {
          var m := |g.elements| - 1;
          var l := BulletList(g.elements[m].items + [Drop(t, 2)]);
          ParagraphsSnoc(g.elements[..m], l);
          assert Paragraphs(g.elements[..m] + [l]) == Paragraphs(g.elements[..m]) + [];
          assert Paragraphs(g.elements) == Paragraphs(g.elements[..m]) + [];
        } else {
          ParagraphsSnoc(g.elements, BulletList([Drop(t, 2)]));
        }
      } else if t == "" {
        assert PlainLines(lines) == PlainLines(init) + [];
        assert PlainLines(init) + [] == PlainLines(init);
      } else {
        ParagraphsSnoc(g.elements, Paragraph(t));
      }
    }
  }

  // ---------------------------------------------------------------------
  // The grouping, read front to back as maximal runs

  /** The number of bullet lines at the start of `lines`: the longest run of them. */
  function BulletRun(lines: seq<string>): (n: nat)
    ensures n <= |lines|
    ensures forall i :: 0 <= i < n ==> IsBullet(Trim(lines[i]))
    ensures n < |lines| ==> !IsBullet(Trim(lines[n]))
  {
    if lines != [] && IsBullet(Trim(lines[0])) then
      var n := 1 + BulletRun(lines[1..]);
      assert forall i :: 1 <= i < n ==> lines[i] == lines[1..][i - 1];
      n
    else 0
  }

  /** The items of bullet lines: each trimmed line without its `- `. */
  function BulletItems(lines: seq<string>): (items: seq<string>)
    ensures |items| == |lines|
    ensures forall i :: 0 <= i < |lines| ==> items[i] == Drop(Trim(lines[i]), 2)
  {
    if lines == [] then []
    else BulletItems(lines[..|lines| - 1]) + [Drop(Trim(lines[|lines| - 1]), 2)]
  }

  /**
   * The elements as runs, independently of the loop: each maximal run of
   * bullet lines is one list of their items, each plain line one paragraph,
   * and a blank line nothing.
   */
  function Runs(lines: seq<string>): seq<Element>
    decreases |lines|
  {
    if lines == [] then []
    else
      var t := Trim(lines[0]);
      if IsBullet(t) then
        var n := BulletRun(lines);
        [BulletList(BulletItems(lines[..n]))] + Runs(lines[n..])
      else if t == "" then Runs(lines[1..])
      else [Paragraph(t)] + Runs(lines[1..])
  }

  /** One loop pass on top of elements pushed earlier leaves those elements alone. */
  lemma {:induction false} StepAfter(prefix: seq<Element>, g: Grouping, y: string)
    requires Linked(g)
    ensures Step(Grouping(prefix + g.elements, g.open), y) ==
      Grouping(prefix + Step(g, y).elements, Step(g, y).open)
  {
    var t := Trim(y);
    if IsBullet(t) && g.open {
      var es := g.elements;
      var n := |es| - 1;
      var all := prefix + es;
      assert all[..|all| - 1] == prefix + es[..n];
      assert all[|all| - 1] == es[n];
      assert all[..|all| - 1] + [BulletList(all[|all| - 1].items + [Drop(t, 2)])]
        == prefix + (es[..n] + [BulletList(es[n].items + [Drop(t, 2)])]);
    }
  }

  /** After a line that closes the list, the rest of the lines are grouped on their own and appended. */
  lemma {:induction false} GroupAppend(a: seq<string>, b: seq<string>)
    requires !Group(a).open
    ensures Group(a + b) == Grouping(Group(a).elements + Group(b).elements, Group(b).open)
    decreases |b|
  {
    if b == [] {
      assert a + b == a;
      assert Group(a).elements + [] == Group(a).elements;
    } else {
      var n := |b| - 1;
      GroupAppend(a, b[..n]);
      assert (a + b)[..|a + b| - 1] == a + b[..n];
      assert (a + b)[|a + b| - 1] == b[n];
      StepAfter(Group(a).elements, Group(b[..n]), b[n]);
    }
  }

  /** A run of `k` bullet lines is one open list of their items. */
  lemma {:induction false} GroupBullets(lines: seq<string>, k: nat)
    requires 1 <= k <= |lines|
    requires forall i :: 0 <= i < k ==> IsBullet(Trim(lines[i]))
    ensures Group(lines[..k]) == Grouping([BulletList(BulletItems(lines[..k]))], true)
  {
    GroupSnoc(lines, k - 1);
    var t := Trim(lines[k - 1]);
    assert lines[..k][..k - 1] == lines[..k - 1];
    if k == 1 {
      assert lines[..0] == [];
      assert BulletItems(lines[..1]) == [Drop(t, 2)];
    } else {
      GroupBullets(lines, k - 1);
      assert BulletItems(lines[..k]) == BulletItems(lines[..k - 1]) + [Drop(t, 2)];
    }
  }

  /** The first line on its own, when it is not a bullet. */
  lemma {:induction false} GroupFirst(lines: seq<string>)
    requires lines != [] && !IsBullet(Trim(lines[0]))
    ensures lines == lines[..1] + lines[1..]
    ensures Group(lines[..1]) == Grouping(PlainElements(Trim(lines[0])), false)
  {
    GroupSnoc(lines, 0);
    assert lines[..0] == [];
  }

  /** What a line that is not a bullet contributes: a paragraph, or nothing when it is blank. */
  function PlainElements(t: string): seq<Element> {
    if t == "" then [] else [Paragraph(t)]
  }

  /** `Runs` on lines that start with a line that is not a bullet. */
  lemma {:induction false} RunsPlainHead(lines: seq<string>)
    requires lines != [] && !IsBullet(Trim(lines[0]))
    ensures Runs(lines) == PlainElements(Trim(lines[0])) + Runs(lines[1..])
  {
  }

  /**
   * The loop groups the lines into exactly the maximal runs of `Runs`: each
   * list holds the items of one maximal run of consecutive bullet lines,
   * and nothing else.
   */
  lemma {:induction false} GroupIsRuns(lines: seq<string>)
    ensures Group(lines).elements == Runs(lines)
    decreases |lines|, 2, 0
  {
    if lines != [] {
      if IsBullet(Trim(lines[0])) {
        GroupIsRunsBullet(lines);
      } else {
        GroupFirst(lines);
        GroupAfterClosed(lines, 1, PlainElements(Trim(lines[0])));
        RunsPlainHead(lines);
      }
    }
  }

  /** Once the first `k` lines leave the list closed, the rest are grouped as `Runs` and appended. */
  lemma {:induction false} GroupAfterClosed(lines: seq<string>, k: nat, x: seq<Element>)
    requires 1 <= k <= |lines| && Group(lines[..k]) == Grouping(x, false)
    ensures Group(lines).elements == x + Runs(lines[k..])
    decreases |lines|, 0, 0
  {
    assert lines == lines[..k] + lines[k..];
    GroupAppend(lines[..k], lines[k..]);
    GroupIsRuns(lines[k..]);
  }

  /** `Runs` on lines that start with a bullet: the list of the leading run, then the rest. */
  lemma {:induction false} RunsBulletHead(lines: seq<string>)
    requires lines != [] && IsBullet(Trim(lines[0]))
    ensures var n := BulletRun(lines);
      1 <= n && Runs(lines) == [BulletList(BulletItems(lines[..n]))] + Runs(lines[n..])
  {
  }

  /** `GroupIsRuns` for lines that start with a bullet. */
  lemma {:induction false} GroupIsRunsBullet(lines: seq<string>)
    requires lines != [] && IsBullet(Trim(lines[0]))
    ensures Group(lines).elements == Runs(lines)
    decreases |lines|, 1, 0
  {
    var n := BulletRun(lines);
    RunsBulletHead(lines);
    if n == |lines| {
      GroupBullets(lines, n);
      assert lines[..n] == lines;
      assert lines[n..] == [];
    } else {
      GroupIsRunsTail(lines, n);
      RunsAfterRun(lines, n);
      AppendAssoc([BulletList(BulletItems(lines[..n]))], PlainElements(Trim(lines[n])), Runs(lines[n + 1..]));
    }
  }

  lemma {:induction false} AppendAssoc(a: seq<Element>, b: seq<Element>, c: seq<Element>)
    ensures a + b + c == a + (b + c)
  {
  }

  /** `GroupIsRunsBullet` when a line that is not a bullet ends the leading run. */
  lemma {:induction false} GroupIsRunsTail(lines: seq<string>, n: nat)
    requires 1 <= n < |lines| && n == BulletRun(lines)
    ensures Group(lines).elements ==
      [BulletList(BulletItems(lines[..n]))] + PlainElements(Trim(lines[n])) + Runs(lines[n + 1..])
    decreases |lines|, 0, 1
  {
    RunThenLine(lines, n);
    GroupAfterClosed(lines, n + 1, [BulletList(BulletItems(lines[..n]))] + PlainElements(Trim(lines[n])));
  }

  /** `Runs` after a maximal run of bullets: the line that ends it, then the rest. */
  lemma {:induction false} RunsAfterRun(lines: seq<string>, n: nat)
    requires n < |lines| && !IsBullet(Trim(lines[n]))
    ensures Runs(lines[n..]) == PlainElements(Trim(lines[n])) + Runs(lines[n + 1..])
  {
    CutAfter(lines, n);
    RunsPlainHead(lines[n..]);
  }

  /** Cutting after position `n`. */
  lemma {:induction false} CutAfter(lines: seq<string>, n: nat)
    requires n < |lines|
    ensures lines[n..][0] == lines[n] && lines[n..][1..] == lines[n + 1..]
  {
  }

  /** A maximal run of bullets and the line that ends it: one closed list, then that line's paragraph, if any. */
  lemma {:induction false} RunThenLine(lines: seq<string>, n: nat)
    requires 1 <= n < |lines|
    requires forall i :: 0 <= i < n ==> IsBullet(Trim(lines[i]))
    requires !IsBullet(Trim(lines[n]))
    ensures Group(lines[..n + 1]) ==
      Grouping([BulletList(BulletItems(lines[..n]))] + PlainElements(Trim(lines[n])), false)
  {
    GroupBullets(lines, n);
    GroupSnoc(lines, n);
  }

  /** A bullet keeps what follows its `- ` untrimmed. */
  lemma BulletKeepsSpace()
    ensures Group(["-  b"]).elements == [BulletList([" b"])]
  {
    var lines := ["-  b"];
    assert lines[..0] == [];
    TrimOfTrimmed("-  b");
    assert Drop("-  b", 2) == " b";
  }

  /** A blank line between bullets starts a second list. */
  lemma BlankSplitsLists()
    ensures Group(["- a", "", "- c"]).elements == [BulletList(["a"]), BulletList(["c"])]
  {
    var lines := ["- a", "", "- c"];
    assert lines[..0] == [];
    GroupSnoc(lines, 0);
    TrimOfTrimmed("- a");
    assert Drop("- a", 2) == "a";
    assert Group(lines[..1]) == Grouping([BulletList(["a"])], true);
    GroupSnoc(lines, 1);
    TrimOfTrimmed("");
    assert Group(lines[..2]) == Grouping([BulletList(["a"])], false);
    GroupSnoc(lines, 2);
    TrimOfTrimmed("- c");
    assert Drop("- c", 2) == "c";
    assert lines[..3] == lines;
  }
}

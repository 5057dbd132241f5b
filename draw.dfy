/** An abstract jsPDF document: an append-only list of pages, each an ordered
    list of draw commands, and the vertical write cursor. Drawing always goes to
    the last page, as jsPDF draws on the page added most recently. Fonts and
    colours are not modelled; x coordinates are real because table columns are
    fractions of the content width, y coordinates are whole units. */
module Draw {

  datatype Align = Left | Center | Right

  datatype DrawCommand =
    | Text(text: string, x: real, y: int, align: Align)
      /** A text wrapped onto `lines` lines, as `splitTextToSize` then `text` draw it. */
    | Paragraph(text: string, lines: nat, x: real, y: int)
      /** A filled rectangle. */
    | Rect(x: real, y: int, w: real, h: int)
    | Line(x1: real, y1: int, x2: real, y2: int)
      /** A filled circle. */
    | Circle(x: real, y: int, r: int)

  type Page = seq<DrawCommand>

  /** The document so far and the cursor on its last page. */
  datatype Layout = Layout(pages: seq<Page>, y: int)

  /** jsPDF always has a current page once the document exists. */
  predicate HasPage(L: Layout) {
    |L.pages| > 0
  }

  /** Draw `cmds` on the current (last) page. */
  function AppendToLast(pages: seq<Page>, cmds: seq<DrawCommand>): (r: seq<Page>)
    requires |pages| > 0
    ensures |r| == |pages|
  {
    pages[|pages| - 1 := pages[|pages| - 1] + cmds]
  }

  /** Drawing changes the last page only, and only at its end. */
  lemma AppendToLastFacts(pages: seq<Page>, cmds: seq<DrawCommand>)
    requires |pages| > 0
    ensures AppendToLast(pages, cmds)[..|pages| - 1] == pages[..|pages| - 1]
    ensures AppendToLast(pages, cmds)[|pages| - 1] == pages[|pages| - 1] + cmds
  {
    var front := pages[..|pages| - 1];
    assert (front + [pages[|pages| - 1] + cmds])[..|front|] == front;
  }

  /** Draw `cmds` and leave the cursor where it is. */
  function Emit(L: Layout, cmds: seq<DrawCommand>): (r: Layout)
    requires HasPage(L)
  {
    Layout(AppendToLast(L.pages, cmds), L.y)
  }

  /** Move the cursor down by `dy` without drawing. */
  function Advance(L: Layout, dy: int): Layout {
    L.(y := L.y + dy)
  }

  /** Drawing on a page just added gives a page holding exactly what was drawn. */
  lemma AppendToNewPage(pages: seq<Page>, cmds: seq<DrawCommand>)
    ensures AppendToLast(pages + [[]], cmds) == pages + [cmds]
  {
    assert (pages + [[]])[..|pages|] == pages;
    assert [] + cmds == cmds;
  }

  /** Every command of the document, page after page. */
  function Flatten(pages: seq<Page>): seq<DrawCommand> {
    if pages == [] then [] else Flatten(pages[..|pages| - 1]) + pages[|pages| - 1]
  }

  lemma FlattenAppendPage(pages: seq<Page>, p: Page)
    ensures Flatten(pages + [p]) == Flatten(pages) + p
  {
    assert (pages + [p])[..|pages|] == pages;
  }

  lemma FlattenAppendToLast(pages: seq<Page>, cmds: seq<DrawCommand>)
    requires |pages| > 0
    ensures Flatten(AppendToLast(pages, cmds)) == Flatten(pages) + cmds
  {
    var r := AppendToLast(pages, cmds);
    AppendToLastFacts(pages, cmds);
    assert r[..|r| - 1] == pages[..|pages| - 1];
  }

  /** A title drawn on the current page, then a body, then a closing part
      drawn on whatever page is current by then: all three, in order. */
  lemma FlattenAround(pages: seq<Page>, title: seq<DrawCommand>, pages2: seq<Page>,
                      body: seq<DrawCommand>, closing: seq<DrawCommand>)
    requires |pages| > 0 && |pages2| > 0
    requires Flatten(pages2) == Flatten(AppendToLast(pages, title)) + body
    ensures Flatten(AppendToLast(pages2, closing)) == Flatten(pages) + (title + body + closing)
  {
    var f := Flatten(pages);
    FlattenAppendToLast(pages, title);
    FlattenAppendToLast(pages2, closing);
    assert Flatten(AppendToLast(pages2, closing)) == f + title + body + closing;
    ConcatAssoc(f, title, body);
    ConcatAssoc(f, title + body, closing);
  }

  /** Concatenation regroups freely. */
  lemma ConcatAssoc<T>(a: seq<T>, c: seq<T>, e: seq<T>)
    ensures a + c + e == a + (c + e)
  {
  }

  /** `L2` is `L1` with more drawn: every page but the last of `L1` is unchanged,
      the last one has only grown at its end, and pages may have been added. */
  ghost predicate Extends(L1: Layout, L2: Layout) {
    HasPage(L1) && |L1.pages| <= |L2.pages| &&
    L2.pages[..|L1.pages| - 1] == L1.pages[..|L1.pages| - 1] &&
    L1.pages[|L1.pages| - 1] <= L2.pages[|L1.pages| - 1]
  }

  lemma ExtendsReflexive(L: Layout)
    requires HasPage(L)
    ensures Extends(L, L)
  {
  }

  lemma ExtendsTransitive(L1: Layout, L2: Layout, L3: Layout)
    requires Extends(L1, L2) && Extends(L2, L3)
    ensures Extends(L1, L3)
  {
    var a, b := |L1.pages|, |L2.pages|;
    if a < b {
      forall k | 0 <= k < a - 1
        ensures L3.pages[k] == L1.pages[k]
      {
        assert L3.pages[k] == L3.pages[..b - 1][k] == L2.pages[..b - 1][k] == L2.pages[k];
        assert L2.pages[k] == L2.pages[..a - 1][k] == L1.pages[..a - 1][k] == L1.pages[k];
      }
      assert L3.pages[..a - 1] == L1.pages[..a - 1];
      assert L3.pages[a - 1] == L3.pages[..b - 1][a - 1] == L2.pages[..b - 1][a - 1] == L2.pages[a - 1];
    } else {
      var p1, p2, p3 := L1.pages[a - 1], L2.pages[a - 1], L3.pages[a - 1];
      assert p2 == p3[..|p2|] && p1 == p2[..|p1|];
      assert p1 == p3[..|p1|];
    }
  }

  /** A page that has been left behind never changes again. */
  lemma ExtendsKeepsPage(L1: Layout, L2: Layout, k: nat)
    requires Extends(L1, L2) && k < |L1.pages| - 1
    ensures L2.pages[k] == L1.pages[k]
  {
    assert L2.pages[k] == L2.pages[..|L1.pages| - 1][k];
  }

  /** Drawing after an extension is still an extension. */
  lemma ExtendsThenEmit(L1: Layout, L2: Layout, cmds: seq<DrawCommand>)
    requires Extends(L1, L2)
    ensures Extends(L1, Emit(L2, cmds))
  {
    EmitExtends(L2, cmds);
    ExtendsTransitive(L1, L2, Emit(L2, cmds));
  }

  lemma EmitExtends(L: Layout, cmds: seq<DrawCommand>)
    requires HasPage(L)
    ensures Extends(L, Emit(L, cmds)) && |Emit(L, cmds).pages| == |L.pages|
  {
    AppendToLastFacts(L.pages, cmds);
  }
}

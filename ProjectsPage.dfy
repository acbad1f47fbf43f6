/**
 * `generate_html_rows` and `generate_projects_page` of
 * generate_projects_page.py: the projet-52 photographs of each year laid
 * out three to a row, and the two galleries set into the projects page.
 */
module ProjectsPage {
  import opened Text
  import opened Lists
  import opened Dates
  import opened Projet52

  const RowOpen: string := "    <div class=\"row\">"
  const RowClose: string := "    </div>"

  /** One image cell: `src` is the article's image, `alt` and `title` its title. */
  function Cell(a: Article): string {
    CellHead + a.image + CellAlt + a.title + CellTitle + a.title + CellTail
  }

  const CellHead: string := "      <div class=\"col-lg-4 col-xs-12 row-images\">\n        <img src=\""
  const CellAlt: string := "\" alt=\""
  const CellTitle: string := "\"\n             title=\""
  const CellTail: string := "\" style=\"width:100%\" />\n      </div>"

  /** The cells of the articles of one row, in order. */
  function Cells(row: seq<Article>): seq<string> {
    if row == [] then [] else Cells(row[..|row| - 1]) + [Cell(row[|row| - 1])]
  }

  /** There is one cell per article, the cell of that article. */
  lemma {:induction false} CellsAt(row: seq<Article>)
    ensures |Cells(row)| == |row|
    ensures forall k | 0 <= k < |row| :: Cells(row)[k] == Cell(row[k])
  {
    if row != [] {
      CellsAt(row[..|row| - 1]);
    }
  }

  /** The articles three to a row, in order; no articles still make one (empty) row. */
  function Rows(xs: seq<Article>): (r: seq<seq<Article>>)
    ensures |r| >= 1
    decreases |xs|
  {
    if |xs| <= 3 then [xs] else [xs[..3]] + Rows(xs[3..])
  }

  /** The lines of `html_parts` for the given rows: each row opened, its cells, closed. */
  function Layout(rows: seq<seq<Article>>): seq<string> {
    if rows == [] then []
    else Layout(rows[..|rows| - 1]) + [RowOpen] + Cells(rows[|rows| - 1]) + [RowClose]
  }

  /** The gallery of one year: the lines of its layout joined by newlines. */
  function Gallery(articles: seq<Article>): string {
    Join(Layout(Rows(articles)), "\n")
  }

  /** `generate_html_rows` */
  method GenerateHtmlRows(articles: seq<Article>) returns (html: string)
    ensures html == Gallery(articles)
  {
    var parts := [RowOpen];
    for i := 0 to |articles|
      invariant parts + [RowClose] == Layout(Rows(articles[..i]))
    {
      LayoutGrows(articles, i, parts);
      if i > 0 && i % 3 == 0 {
        parts := parts + [RowClose];
        parts := parts + [RowOpen];
      }
      parts := parts + [Cell(articles[i])];
    }
    assert articles[..|articles|] == articles;
    parts := parts + [RowClose];
    html := Join(parts, "\n");
  }

  /** The loop's next lines: a cell after the open row, or after every third article a new row first. */
  lemma LayoutGrows(articles: seq<Article>, i: nat, parts: seq<string>)
    requires i < |articles| && parts + [RowClose] == Layout(Rows(articles[..i]))
    ensures Layout(Rows(articles[..i + 1])) ==
            (if i > 0 && i % 3 == 0 then parts + [RowClose] + [RowOpen] else parts) + [Cell(articles[i])] + [RowClose]
  {
    var lines := Layout(Rows(articles[..i]));
    assert articles[..i + 1] == articles[..i] + [articles[i]];
    LayoutSnoc(articles[..i], articles[i]);
    var cell := Cell(articles[i]);
    if i > 0 && i % 3 == 0 {
      SnocThree(lines, RowOpen, cell, RowClose);
    } else {
      assert lines[..|lines| - 1] == parts;
      SnocTwo(parts, cell, RowClose);
    }
  }

  lemma LayoutAppendRow(rows: seq<seq<Article>>, row: seq<Article>)
    ensures Layout(rows + [row]) == Layout(rows) + [RowOpen] + Cells(row) + [RowClose]
  {
    assert (rows + [row])[..|rows|] == rows;
  }

  /** One more article adds a cell to the last row, or after every third article a new row. */
  lemma LayoutSnoc(xs: seq<Article>, x: Article)
    ensures var lines := Layout(Rows(xs));
            lines != [] &&
            Layout(Rows(xs + [x])) == if xs != [] && |xs| % 3 == 0 then lines + [RowOpen, Cell(x), RowClose]
                                      else lines[..|lines| - 1] + [Cell(x), RowClose]
  {
    RowsSnoc(xs, x);
    var rows := Rows(xs);
    var init, last := rows[..|rows| - 1], rows[|rows| - 1];
    assert init + [last] == rows;
    LayoutAppendRow(init, last);
    if xs != [] && |xs| % 3 == 0 {
      LayoutNewRow(rows, x);
    } else {
      LayoutExtendRow(init, last, x);
    }
  }

  /** A new row holding one article adds its opening, its cell and its closing. */
  lemma LayoutNewRow(rows: seq<seq<Article>>, x: Article)
    ensures Layout(rows + [[x]]) == Layout(rows) + [RowOpen, Cell(x), RowClose]
  {
    LayoutAppendRow(rows, [x]);
    assert Cells([x]) == [Cell(x)] by {
      assert [x][..0] == [];
    }
    AppendTwo(Layout(rows), [RowOpen], Cell(x), RowClose);
  }

  /** One more article in the last row puts its cell just before that row's closing. */
  lemma LayoutExtendRow(init: seq<seq<Article>>, last: seq<Article>, x: Article)
    ensures var lines := Layout(init + [last]);
            lines != [] && Layout(init + [last + [x]]) == lines[..|lines| - 1] + [Cell(x), RowClose]
  {
    var head, cells, c := Layout(init) + [RowOpen], Cells(last), Cell(x);
    LayoutAppendRow(init, last);
    LayoutAppendRow(init, last + [x]);
    assert Cells(last + [x]) == cells + [c] by {
      assert (last + [x])[..|last|] == last;
    }
    assert (head + cells + [RowClose])[..|head + cells|] == head + cells;
    AppendTwo(head, cells, c, RowClose);
  }

  lemma SnocTwo<T>(a: seq<T>, c: T, d: T)
    ensures a + [c] + [d] == a + [c, d]
  {
  }

  lemma SnocThree<T>(a: seq<T>, b: T, c: T, d: T)
    ensures a + [b] + [c] + [d] == a + [b, c, d]
  {
  }

  lemma AppendTwo<T>(a: seq<T>, b: seq<T>, c: T, d: T)
    ensures a + (b + [c]) + [d] == (a + b) + [c, d]
  {
  }

  /** Adding an article starts a new row after every third article, and otherwise extends the last row. */
  lemma {:induction false} RowsSnoc(xs: seq<Article>, x: Article)
    ensures var r := Rows(xs);
            Rows(xs + [x]) == if xs != [] && |xs| % 3 == 0 then r + [[x]]
                              else r[..|r| - 1] + [r[|r| - 1] + [x]]
    decreases |xs|
  {
    var xs' := xs + [x];
    if |xs| < 3 {
    } else if |xs| == 3 {
      assert xs'[..3] == xs && xs'[3..] == [x];
    } else {
      assert xs'[..3] == xs[..3] && xs'[3..] == xs[3..] + [x];
      RowsSnoc(xs[3..], x);
    }
  }

  /** There is one row per started group of three, and exactly one when there are no articles. */
  lemma {:induction false} RowCount(xs: seq<Article>)
    ensures |Rows(xs)| == if xs == [] then 1 else (|xs| - 1) / 3 + 1
    decreases |xs|
  {
    if |xs| > 3 {
      RowCount(xs[3..]);
    }
  }

  /** The rows hold the articles in order: article `i` is cell `i % 3` of row `i / 3`. */
  lemma {:induction false} RowOf(xs: seq<Article>, i: nat)
    requires i < |xs|
    ensures i / 3 < |Rows(xs)| && i % 3 < |Rows(xs)[i / 3]| && Rows(xs)[i / 3][i % 3] == xs[i]
    decreases |xs|
  {
    if |xs| > 3 && i >= 3 {
      RowOf(xs[3..], i - 3);
      assert (i - 3) / 3 == i / 3 - 1 && (i - 3) % 3 == i % 3;
    }
  }

  /** Every row but possibly the last is full, and no row is empty unless there are no articles. */
  lemma {:induction false} RowSizes(xs: seq<Article>)
    ensures var r := Rows(xs);
            (forall k | 0 <= k < |r| - 1 :: |r[k]| == 3) &&
            (xs != [] ==> forall k | 0 <= k < |r| :: 1 <= |r[k]| <= 3)
    decreases |xs|
  {
    if |xs| > 3 {
      RowSizes(xs[3..]);
      var r := Rows(xs);
      assert forall k | 1 <= k < |r| :: r[k] == Rows(xs[3..])[k - 1];
    }
  }

  /** Read in order, the rows give back the articles. */
  lemma {:induction false} RowsFlatten(xs: seq<Article>)
    ensures Flatten(Rows(xs)) == xs
    decreases |xs|
  {
    if |xs| > 3 {
      RowsFlatten(xs[3..]);
      FlattenAppend([xs[..3]], Rows(xs[3..]));
      assert Flatten([xs[..3]]) == Flatten([xs[..3]][..0]) + xs[..3];
      assert xs == xs[..3] + xs[3..];
    } else {
      assert Flatten([xs]) == Flatten([xs][..0]) + xs;
    }
  }

  /** A line that is neither row marker (every cell is one: it is longer than both). */
  predicate IsCellLine(line: string) {
    line != RowOpen && line != RowClose
  }

  lemma CellIsCellLine(a: Article)
    ensures IsCellLine(Cell(a))
  {
    assert |Cell(a)| >= |CellHead| > |RowOpen| > |RowClose|;
  }

  /** Each row is opened once and closed once. */
  lemma {:induction false} LayoutMarkers(rows: seq<seq<Article>>)
    ensures multiset(Layout(rows))[RowOpen] == |rows|
    ensures multiset(Layout(rows))[RowClose] == |rows|
  {
    if rows != [] {
      var init, last := rows[..|rows| - 1], rows[|rows| - 1];
      LayoutMarkers(init);
      var cells := Cells(last);
      CellsAt(last);
      forall k | 0 <= k < |cells| ensures IsCellLine(cells[k]) {
        CellIsCellLine(last[k]);
      }
      assert multiset(cells)[RowOpen] == 0 && multiset(cells)[RowClose] == 0;
      assert Layout(rows) == Layout(init) + [RowOpen] + cells + [RowClose];
    }
  }

  /** Without the row markers, the lines are the cells of the articles in order. */
  lemma {:induction false} LayoutCells(rows: seq<seq<Article>>)
    ensures Filter(Layout(rows), IsCellLine) == Cells(Flatten(rows))
  {
    if rows != [] {
      var init, last := rows[..|rows| - 1], rows[|rows| - 1];
      LayoutCells(init);
      var cells := Cells(last);
      CellsAt(last);
      forall k | 0 <= k < |cells| ensures IsCellLine(cells[k]) {
        CellIsCellLine(last[k]);
      }
      CellsOnly(cells);
      var before := Layout(init);
      var withOpen := before + [RowOpen];
      assert Layout(rows) == (withOpen + cells) + [RowClose];
      FilterAppend(withOpen + cells, [RowClose], IsCellLine);
      FilterSingle(RowClose, IsCellLine);
      assert Filter(Layout(rows), IsCellLine) == Filter(withOpen + cells, IsCellLine);
      FilterAppend(withOpen, cells, IsCellLine);
      FilterAppend(before, [RowOpen], IsCellLine);
      FilterSingle(RowOpen, IsCellLine);
      assert Filter(withOpen, IsCellLine) == Filter(before, IsCellLine);
      CellsAppend(Flatten(init), last);
      assert Flatten(rows) == Flatten(init) + last;
    }
  }

  /** A list of cell lines passes the filter unchanged. */
  lemma {:induction false} CellsOnly(lines: seq<string>)
    requires forall k | 0 <= k < |lines| :: IsCellLine(lines[k])
    ensures Filter(lines, IsCellLine) == lines
  {
    if lines != [] {
      CellsOnly(lines[..|lines| - 1]);
    }
  }

  lemma {:induction false} CellsAppend(a: seq<Article>, b: seq<Article>)
    ensures Cells(a + b) == Cells(a) + Cells(b)
    decreases |b|
  {
    if b == [] {
      assert a + b == a;
    } else {
      var b' := b[..|b| - 1];
      assert (a + b)[..|a + b| - 1] == a + b';
      CellsAppend(a, b');
    }
  }


  /** The projects page text around the two galleries, which the model does not spell out. */
  datatype PageTemplate = PageTemplate(head: string, middle: string, tail: string)

  /**
   * `generate_projects_page`: the 2016 gallery, then the 2015 gallery, each
   * from the sorted projet-52 articles of its year.
   */
  method GenerateProjectsPage(pages: seq<Page>, parse: DateParser, tpl: PageTemplate) returns (content: string)
    ensures var articles := SortDesc(Collect(pages, parse), DateKey);
            content == tpl.head + Gallery(Filter(articles, InYear(2016))) + tpl.middle +
                       Gallery(Filter(articles, InYear(2015))) + tpl.tail
  {
    var p2015, p2016 := ExtractProjet52Articles(pages, parse);
    var html2015 := GenerateHtmlRows(p2015);
    var html2016 := GenerateHtmlRows(p2016);
    content := tpl.head + html2016 + tpl.middle + html2015 + tpl.tail;
  }
}

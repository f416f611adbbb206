/** The question-list builder of the HTML report
    (`generate_question_list_html`): one `<li class="question-item">` snippet
    per row of a category table, concatenated in row order, with the row's
    fields pasted in verbatim. */
module Report {

  import opened Paths

  /** One row of the category table, each field already formatted as the
      report prints it: `問題番号`, `リンク`, `問題名` and `出典`. */
  datatype Row = Row(id: string, link: string, name: string, source: string)

  const ItemHead := "\n            <li class=\"question-item\">\n                "
  const Newline16 := "\n                "
  const ItemTail := "\n            </li>\n        "

  /** The `question-id` div: the problem number. */
  function IdDiv(id: string): string {
    "<div class=\"question-id\">問題番号: " + id + "</div>"
  }

  /** The link to the problem, opening in a new tab, labelled with its name. */
  function Anchor(link: string, name: string): string {
    "<a href=\"" + link + "\" target=\"_blank\">" + name + "</a>"
  }

  /** The `source` div: where the problem comes from. */
  function SourceDiv(source: string): string {
    "<div class=\"source\">出典: " + source + "</div>"
  }

  /** The snippet one row contributes. */
  function Item(r: Row): string {
    ItemHead + IdDiv(r.id) + Newline16 + Anchor(r.link, r.name) + Newline16 + SourceDiv(r.source) + ItemTail
  }

  /** The snippets of `rows`, in row order. The empty table gives the empty
      string, and only it does. */
  function ListHtml(rows: seq<Row>): (html: string)
    ensures html == "" <==> rows == []
  {
    if rows == [] then "" else ListHtml(rows[..|rows| - 1]) + Item(rows[|rows| - 1])
  }

  /** `generate_question_list_html`: `html_list += ...` once per row. */
  method GenerateQuestionListHtml(rows: seq<Row>) returns (html: string)
    ensures html == ListHtml(rows)
  {
    html := "";
    for i := 0 to |rows|
      invariant html == ListHtml(rows[..i])
    {
      assert rows[..i + 1][..i] == rows[..i];
      html := html + Item(rows[i]);
    }
    assert rows[..|rows|] == rows;
  }

  // ---------------------------------------------------------------- properties

  /** The list of two tables one after the other is the two lists one after
      the other. */
  lemma {:induction false} ListHtmlAppend(a: seq<Row>, b: seq<Row>)
    decreases |b|
    ensures ListHtml(a + b) == ListHtml(a) + ListHtml(b)
  {
    if b != [] {
      var b', last := b[..|b| - 1], b[|b| - 1];
      assert (a + b)[..|a + b| - 1] == a + b';
      assert (a + b)[|a + b| - 1] == last;
      ListHtmlAppend(a, b');
      AppendAssoc(ListHtml(a), ListHtml(b'), Item(last));
    } else {
      assert a + b == a;
    }
  }

  /** Row i's snippet sits right after the snippets of rows `[0, i)`. */
  lemma ItemAt(rows: seq<Row>, i: nat)
    requires i < |rows|
    ensures ListHtml(rows) == ListHtml(rows[..i]) + Item(rows[i]) + ListHtml(rows[i + 1..])
  {
    var pre, post := rows[..i], rows[i + 1..];
    SplitAt(rows, i);
    ListHtmlAppend(pre + [rows[i]], post);
    ListHtmlAppend(pre, [rows[i]]);
    assert [rows[i]][..0] == [];
  }

  /** Row i's snippet, verbatim, starts right after the snippets of rows
      `[0, i)`. */
  lemma ItemInList(rows: seq<Row>, i: nat)
    requires i < |rows|
    ensures var s := |ListHtml(rows[..i])|;
      s + |Item(rows[i])| <= |ListHtml(rows)| && ListHtml(rows)[s..s + |Item(rows[i])|] == Item(rows[i])
  {
    ItemAt(rows, i);
    MiddleSlice(ListHtml(rows[..i]), Item(rows[i]), ListHtml(rows[i + 1..]));
  }

  /** Inside its snippet, a row's problem number is in the `question-id` div,
      its link and name make up the anchor, and its source is in the `source`
      div, each verbatim and at a fixed place. */
  lemma ItemShowsFields(r: Row)
    ensures var i := Item(r);
      var a := |ItemHead|;
      var b := a + |IdDiv(r.id)| + |Newline16|;
      var c := b + |Anchor(r.link, r.name)| + |Newline16|;
      && a + |IdDiv(r.id)| <= |i| && b + |Anchor(r.link, r.name)| <= |i| && c + |SourceDiv(r.source)| <= |i|
      && i[a..a + |IdDiv(r.id)|] == IdDiv(r.id)
      && i[b..b + |Anchor(r.link, r.name)|] == Anchor(r.link, r.name)
      && i[c..c + |SourceDiv(r.source)|] == SourceDiv(r.source)
  {
    Pieces(ItemHead, IdDiv(r.id), Newline16, Anchor(r.link, r.name), Newline16, SourceDiv(r.source), ItemTail);
  }

  // ---------------------------------------------------------------- sequence helpers

  lemma SplitAt<T>(s: seq<T>, i: nat)
    requires i < |s|
    ensures s == s[..i] + [s[i]] + s[i + 1..]
  {
  }

  lemma MiddleSlice(p: string, x: string, q: string)
    ensures (p + x + q)[|p|..|p| + |x|] == x
  {
    assert (p + x + q)[..|p| + |x|] == p + x;
    assert (p + x)[|p|..] == x;
  }

  /** Where the second, fourth and sixth of seven pieces sit in their
      concatenation. */
  lemma Pieces(p1: string, p2: string, p3: string, p4: string, p5: string, p6: string, p7: string)
    ensures var all := p1 + p2 + p3 + p4 + p5 + p6 + p7;
      var a := |p1|;
      var b := a + |p2| + |p3|;
      var c := b + |p4| + |p5|;
      && a + |p2| <= |all| && b + |p4| <= |all| && c + |p6| <= |all|
      && all[a..a + |p2|] == p2
      && all[b..b + |p4|] == p4
      && all[c..c + |p6|] == p6
  {
    var all := p1 + p2 + p3 + p4 + p5 + p6 + p7;
    MiddleSlice(p1, p2, p3 + p4 + p5 + p6 + p7);
    assert all == p1 + p2 + (p3 + p4 + p5 + p6 + p7);
    MiddleSlice(p1 + p2 + p3, p4, p5 + p6 + p7);
    assert all == p1 + p2 + p3 + p4 + (p5 + p6 + p7);
    MiddleSlice(p1 + p2 + p3 + p4 + p5, p6, p7);
  }

}

/**
 * `ArticleMetadataParser` and `extract_projet52_articles`, which appear
 * twice with the same logic (generate_projects_page.py and
 * extract_projet52.py): find the "projet-52" articles, read their title,
 * image and date, sort them newest first and split them by year.
 */
module Projet52 {
  import opened Wrappers
  import opened Text
  import opened Lists
  import opened Html
  import opened Dates

  /** The fields of `ArticleMetadataParser`. */
  datatype MetaState = MetaState(title: string, image: string, date: string, inTitle: bool)

  const Fresh: MetaState := MetaState("", "", "", false)

  /** `handle_starttag`: the title flag, then the `og:image` / `article:published_time` meta chain. */
  function OnStartTag(st: MetaState, tag: string, attrs: seq<(string, string)>): MetaState {
    var st1 := if tag == "h1" && Attr(attrs, "class") == Some("post-title") then st.(inTitle := true) else st;
    if tag != "meta" then st1
    else if Attr(attrs, "property") == Some("og:image") then st1.(image := AttrOr(attrs, "content", ""))
    else if Attr(attrs, "property") == Some("article:published_time") then st1.(date := AttrOr(attrs, "content", ""))
    else st1
  }

  /** `handle_data`: inside the title, the stripped text replaces the title read so far. */
  function OnData(st: MetaState, data: string): MetaState {
    if st.inTitle then st.(title := Strip(data)) else st
  }

  /** `handle_endtag` */
  function OnEndTag(st: MetaState, tag: string): MetaState {
    if tag == "h1" then st.(inTitle := false) else st
  }

  function Step(st: MetaState, e: Event): MetaState {
    match e
    case StartTag(tag, attrs) => OnStartTag(st, tag, attrs)
    case Data(text) => OnData(st, text)
    case EndTag(tag) => OnEndTag(st, tag)
  }

  /** The state after the parser has received `evs`, one event after another. */
  function Run(st: MetaState, evs: seq<Event>): MetaState {
    if evs == [] then st else Step(Run(st, evs[..|evs| - 1]), evs[|evs| - 1])
  }

  class ArticleMetadataParser {
    var title: string
    var image: string
    var date: string
    var inTitle: bool

    function State(): MetaState
      reads this
    {
      MetaState(title, image, date, inTitle)
    }

    constructor ()
      ensures State() == Fresh
    {
      title, image, date, inTitle := "", "", "", false;
    }

    method HandleStartTag(tag: string, attrs: seq<(string, string)>)
      modifies this
      ensures State() == OnStartTag(old(State()), tag, attrs)
    {
      if tag == "h1" && Attr(attrs, "class") == Some("post-title") {
        inTitle := true;
      }
      if tag == "meta" {
        if Attr(attrs, "property") == Some("og:image") {
          image := AttrOr(attrs, "content", "");
        } else if Attr(attrs, "property") == Some("article:published_time") {
          date := AttrOr(attrs, "content", "");
        }
      }
    }

    method HandleData(data: string)
      modifies this
      ensures State() == OnData(old(State()), data)
    {
      if inTitle {
        var text := Strip(data);
        title := text;
      }
    }

    method HandleEndTag(tag: string)
      modifies this
      ensures State() == OnEndTag(old(State()), tag)
    {
      if tag == "h1" {
        inTitle := false;
      }
    }

    /** `feed`: the tokenizer calls the handlers once per event, in document order. */
    method Feed(events: seq<Event>)
      modifies this
      ensures State() == Run(old(State()), events)
    {
      for i := 0 to |events|
        invariant State() == Run(old(State()), events[..i])
      {
        assert events[..i + 1][..i] == events[..i];
        match events[i]
        case StartTag(tag, attrs) => HandleStartTag(tag, attrs);
        case Data(text) => HandleData(text);
        case EndTag(tag) => HandleEndTag(tag);
      }
      assert events[..|events|] == events;
    }
  }

  /** `in_title` is on exactly when an `<h1 class="post-title">` was opened and no `</h1>` has come since. */
  lemma {:induction false} InTitleLatched(evs: seq<Event>)
    ensures Run(Fresh, evs).inTitle <==> Latched(evs, OpensTitle, ClosesTitle)
  {
    if evs != [] {
      var init, e := evs[..|evs| - 1], evs[|evs| - 1];
      InTitleLatched(init);
      LatchedSnoc(init, e, OpensTitle, ClosesTitle);
      assert evs == init + [e];
    }
  }

  /** The title is the stripped text of the last chunk read inside the title: later chunks overwrite. */
  lemma {:induction false} TitleIsLastChunk(evs: seq<Event>)
    ensures var chunks := TitleChunks(evs);
            Run(Fresh, evs).title == if chunks == [] then "" else Strip(chunks[|chunks| - 1])
  {
    if evs != [] {
      var init, e := evs[..|evs| - 1], evs[|evs| - 1];
      TitleIsLastChunk(init);
      InTitleLatched(init);
      var st := Run(Fresh, init);
      if e.Data? && st.inTitle {
        assert TitleChunks(evs) == TitleChunks(init) + [e.text];
      } else {
        assert TitleChunks(evs) == TitleChunks(init);
        assert Step(st, e).title == st.title;
      }
    }
  }

  /** `image` and `date` hold the content of the last matching `meta` tag, "" when there is none. */
  lemma {:induction false} MetaLastWins(evs: seq<Event>)
    ensures Run(Fresh, evs).image == LastMeta(evs, "og:image").GetOr("")
    ensures Run(Fresh, evs).date == LastMeta(evs, "article:published_time").GetOr("")
  {
    if evs != [] {
      MetaLastWins(evs[..|evs| - 1]);
    }
  }

  /** The membership test of the walk loop. */
  predicate Mentions(content: string) {
    Contains(Lower(content), "projet-52") || Contains(content, "tag-projet-52")
  }

  /** The second half of the membership test adds nothing: "tag-projet-52" contains "projet-52". */
  lemma MentionsLowered(content: string)
    ensures Mentions(content) <==> Contains(Lower(content), "projet-52")
  {
    if Contains(content, "tag-projet-52") {
      var i :| 0 <= i <= |content| - 13 && OccursAt(content, "tag-projet-52", i);
      OccursInside(content, "tag-projet-52", i, 4);
      assert "tag-projet-52"[4..] == "projet-52";
      LowerKeeps(content, "projet-52", i + 4);
      ContainsWitness(Lower(content), "projet-52", i + 4);
    }
  }

  /** One `index.html` the walk finds: its text, and the events the tokenizer makes of it. */
  datatype Page = Page(content: string, events: seq<Event>)

  /** The dictionary appended for a kept article. */
  datatype Article = Article(title: string, image: string, date: Timestamp, year: int)

  /** What the loop body appends for one page, if anything. */
  function Extract(page: Page, parse: DateParser): Option<Article> {
    if !Mentions(page.content) then None
    else
      var st := Run(Fresh, page.events);
      if st.date == "" then None
      else
        match parse(NormalizeZ(st.date))
        case None => None
        case Some(d) => Some(Article(st.title, st.image, d, d.year))
  }

  /**
   * A page yields an article exactly when its lower-cased text contains
   * "projet-52" and its last `article:published_time` is non-empty and
   * parses once 'Z' is replaced; the article then carries that date, its
   * year, the last `og:image` and the last title chunk.
   */
  lemma ExtractKeeps(page: Page, parse: DateParser)
    ensures var date := LastMeta(page.events, "article:published_time").GetOr("");
            Extract(page, parse).Some? <==>
              Contains(Lower(page.content), "projet-52") && date != "" && parse(NormalizeZ(date)).Some?
    ensures var date := LastMeta(page.events, "article:published_time").GetOr("");
            var chunks := TitleChunks(page.events);
            Extract(page, parse).Some? ==>
              var a := Extract(page, parse).value;
              a.date == parse(NormalizeZ(date)).value && a.year == a.date.year &&
              a.image == LastMeta(page.events, "og:image").GetOr("") &&
              a.title == if chunks == [] then "" else Strip(chunks[|chunks| - 1])
  {
    MentionsLowered(page.content);
    MetaLastWins(page.events);
    TitleIsLastChunk(page.events);
  }

  /** `Extract` for a fixed date parser, as a value `Choose` can take. */
  function Extractor(parse: DateParser): Page -> Option<Article> {
    p => Extract(p, parse)
  }

  /** The articles the walk appends, in walk order. */
  function Collect(pages: seq<Page>, parse: DateParser): seq<Article> {
    Choose(pages, Extractor(parse))
  }

  /** A page that is dropped (no date, or a date that fails to parse) does not stop the walk. */
  lemma CollectAppend(a: seq<Page>, b: seq<Page>, parse: DateParser)
    ensures Collect(a + b, parse) == Collect(a, parse) + Collect(b, parse)
  {
    ChooseAppend(a, b, Extractor(parse));
  }

  /** Every collected article comes from some page, and every page's article is collected. */
  lemma CollectMembers(pages: seq<Page>, parse: DateParser, a: Article)
    ensures a in Collect(pages, parse) <==> exists i :: 0 <= i < |pages| && Extract(pages[i], parse) == Some(a)
  {
    ChooseMembers(pages, Extractor(parse), a);
    assert forall i :: 0 <= i < |pages| ==> Extractor(parse)(pages[i]) == Extract(pages[i], parse);
  }

  /** The sort key `x['date']` */
  function DateKey(a: Article): int {
    a.date.instant
  }

  /** `a['year'] == year` */
  function InYear(year: int): Article -> bool {
    (a: Article) => a.year == year
  }

  /**
   * `extract_projet52_articles`: walk the pages, keep the dated projet-52
   * articles, sort them newest first and split them by year.
   */
  method ExtractProjet52Articles(pages: seq<Page>, parse: DateParser) returns (p2015: seq<Article>, p2016: seq<Article>)
    ensures p2015 == Filter(SortDesc(Collect(pages, parse), DateKey), InYear(2015))
    ensures p2016 == Filter(SortDesc(Collect(pages, parse), DateKey), InYear(2016))
    ensures SortedDesc(p2015, DateKey) && SortedDesc(p2016, DateKey)
    ensures multiset(p2015) == multiset(Filter(Collect(pages, parse), InYear(2015)))
    ensures multiset(p2016) == multiset(Filter(Collect(pages, parse), InYear(2016)))
    ensures forall a :: a in p2015 <==> a in Collect(pages, parse) && a.year == 2015
    ensures forall a :: a in p2016 <==> a in Collect(pages, parse) && a.year == 2016
  {
    var articles: seq<Article> := [];
    for i := 0 to |pages|
      invariant articles == Collect(pages[..i], parse)
    {
      assert pages[..i + 1][..i] == pages[..i];
      var content := pages[i].content;
      if Contains(Lower(content), "projet-52") || Contains(content, "tag-projet-52") {
        var parser := new ArticleMetadataParser();
        parser.Feed(pages[i].events);
        if parser.date != "" {
          var date := parse(NormalizeZ(parser.date));
          if date.Some? {
            articles := articles + [Article(parser.title, parser.image, date.value, date.value.year)];
          }
        }
      }
    }
    assert pages[..|pages|] == pages;
    YearSplit(articles, 2015);
    YearSplit(articles, 2016);
    articles := SortDesc(articles, DateKey);
    p2015 := Filter(articles, InYear(2015));
    p2016 := Filter(articles, InYear(2016));
  }

  /** The list of one year, taken from the sorted list, holds exactly that year's articles, newest first. */
  lemma YearSplit(articles: seq<Article>, year: int)
    ensures var part := Filter(SortDesc(articles, DateKey), InYear(year));
            SortedDesc(part, DateKey) &&
            multiset(part) == multiset(Filter(articles, InYear(year))) &&
            forall a :: a in part <==> a in articles && a.year == year
  {
    var sorted := SortDesc(articles, DateKey);
    var part := Filter(sorted, InYear(year));
    SortThenFilter(articles, DateKey, InYear(year));
    SortDescSorted(articles, DateKey);
    forall a ensures a in part <==> a in articles && a.year == year {
      FilterMembers(sorted, InYear(year), a);
      assert a in sorted <==> a in multiset(sorted);
    }
  }
}

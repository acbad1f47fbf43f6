/**
 * rebuild_blog_index.py beyond the parser: one record per article
 * directory, the records sorted newest first, and the paginated index
 * pages (six posts each) assembled from a template's header and footer.
 */
module BlogIndex {
  import opened Wrappers
  import opened Text
  import opened Lists
  import opened Html
  import opened Dates
  import opened BlogParser
  import opened AssetRewrite

  const PostsPerPage: nat := 6

  /** Directories of the blog that are not articles. */
  const ExcludedDirs: set<string> := {"page", "author", "tag", "public", "assets", "rss"}

  /** The dictionary `extract_article_metadata` returns. */
  datatype ArticleRecord = ArticleRecord(
    title: string, excerpt: string, image: string, date: Option<Timestamp>, dateStr: string,
    url: string, slug: string)

  /**
   * An entry of the blog directory: its name, whether it is a directory,
   * and the parser events of its `index.html` when it has one.
   */
  datatype DirEntry = DirEntry(name: string, isDir: bool, index: Option<seq<Event>>)

  // ---------------------------------------------------------------------
  // extract_article_metadata and collect_articles
  // ---------------------------------------------------------------------

  /** The record for article directory `name`, from the parser's final state. */
  function MakeRecord(name: string, st: ArticleState, parse: DateParser, format: DateFormatter): ArticleRecord {
    var date := if st.date != "" then parse(NormalizeZ(st.date)) else None;
    ArticleRecord(
      if st.title != "" then st.title else "Untitled",
      if st.excerpt != "" then Take(st.excerpt, ExcerptLength) else "",
      st.image,
      date,
      if date.Some? then format(date.value) else "",
      name + "/",
      name)
  }

  /** What `extract_article_metadata` returns for an entry: nothing when it has no `index.html`. */
  function ArticleMetadata(entry: DirEntry, parse: DateParser, format: DateFormatter): Option<ArticleRecord> {
    match entry.index
    case None => None
    case Some(evs) => Some(MakeRecord(entry.name, Run(Fresh, evs), parse, format))
  }

  method ExtractArticleMetadata(entry: DirEntry, parse: DateParser, format: DateFormatter)
    returns (r: Option<ArticleRecord>)
    ensures r == ArticleMetadata(entry, parse, format)
  {
    if entry.index.None? {
      return None;
    }
    var parser := new ArticleParser();
    parser.Feed(entry.index.value);
    var relUrl := entry.name + "/";
    var date: Option<Timestamp> := None;
    if parser.date != "" {
      date := parse(NormalizeZ(parser.date));
    }
    var title := if parser.title != "" then parser.title else "Untitled";
    var excerpt := if parser.excerpt != "" then Take(parser.excerpt, ExcerptLength) else "";
    var dateStr := if date.Some? then format(date.value) else "";
    r := Some(ArticleRecord(title, excerpt, parser.image, date, dateStr, relUrl, entry.name));
  }

  /**
   * The record's fields: "Untitled" stands in for an empty title, the
   * excerpt is at most 200 characters of the parsed one, the URL is the
   * directory name and "/", and the date string is empty exactly when
   * there is no date (or its formatting is empty).
   */
  lemma RecordFields(name: string, st: ArticleState, parse: DateParser, format: DateFormatter)
    ensures var r := MakeRecord(name, st, parse, format);
            (r.title == "Untitled" <==> st.title == "" || st.title == "Untitled") &&
            (st.title != "" ==> r.title == st.title) &&
            |r.excerpt| <= ExcerptLength && IsPrefix(r.excerpt, st.excerpt) &&
            EndsWith(r.url, "/") && r.url == r.slug + "/" && r.slug == name &&
            (r.date.Some? <==> st.date != "" && parse(NormalizeZ(st.date)).Some?) &&
            (r.dateStr == "" <==> r.date.None? || format(r.date.value) == "")
  {
  }

  /** The record of an article read from its events: each field traced back to the page. */
  lemma MetadataFromEvents(entry: DirEntry, parse: DateParser, format: DateFormatter)
    requires entry.index.Some?
    ensures var evs := entry.index.value;
            var r := ArticleMetadata(entry, parse, format).value;
            var title := Flatten(Map(Strip, TitleChunks(evs)));
            var date := LastMeta(evs, "article:published_time").GetOr("");
            r.title == (if title == "" then "Untitled" else title) &&
            r.image == LastMeta(evs, "og:image").GetOr("") &&
            r.date == (if date == "" then None else parse(NormalizeZ(date)))
  {
    TitleIsConcatenation(entry.index.value);
    MetaLastWins(entry.index.value);
  }

  /** `item.is_dir() and item.name not in exclude_dirs` */
  predicate IsArticleDir(entry: DirEntry) {
    entry.isDir && entry.name !in ExcludedDirs
  }

  /** What the loop body appends for one entry, if anything, as a value `Choose` can take. */
  function DirReader(parse: DateParser, format: DateFormatter): DirEntry -> Option<ArticleRecord> {
    e => if IsArticleDir(e) then ArticleMetadata(e, parse, format) else None
  }

  /** The records the directory loop appends, in directory order. */
  function Collected(entries: seq<DirEntry>, parse: DateParser, format: DateFormatter): seq<ArticleRecord> {
    Choose(entries, DirReader(parse, format))
  }

  /**
   * Every collected record comes from an article directory with an
   * `index.html`, and every such directory gives one; its slug is the
   * directory's name, never an excluded one, and its URL that name and "/".
   */
  lemma CollectedFields(entries: seq<DirEntry>, parse: DateParser, format: DateFormatter)
    ensures forall r | r in Collected(entries, parse, format) :: r.slug !in ExcludedDirs && r.url == r.slug + "/"
    ensures forall i | 0 <= i < |entries| && IsArticleDir(entries[i]) && entries[i].index.Some? ::
              ArticleMetadata(entries[i], parse, format).value in Collected(entries, parse, format)
  {
    var f := DirReader(parse, format);
    forall r | r in Collected(entries, parse, format) ensures r.slug !in ExcludedDirs && r.url == r.slug + "/" {
      ChooseMembers(entries, f, r);
      var i :| 0 <= i < |entries| && f(entries[i]) == Some(r);
    }
    forall i | 0 <= i < |entries| && IsArticleDir(entries[i]) && entries[i].index.Some?
      ensures ArticleMetadata(entries[i], parse, format).value in Collected(entries, parse, format)
    {
      ChooseMembers(entries, f, ArticleMetadata(entries[i], parse, format).value);
      assert f(entries[i]) == ArticleMetadata(entries[i], parse, format);
    }
  }

  /** The sort key: the date, and for an undated record `datetime.min` at UTC. */
  function SortKey(r: ArticleRecord): int {
    match r.date
    case Some(t) => t.instant
    case None => MinInstant
  }

  /** `collect_articles` */
  method CollectArticles(entries: seq<DirEntry>, parse: DateParser, format: DateFormatter)
    returns (articles: seq<ArticleRecord>)
    ensures articles == SortDesc(Collected(entries, parse, format), SortKey)
    ensures multiset(articles) == multiset(Collected(entries, parse, format))
    ensures SortedDesc(articles, SortKey)
    ensures forall i | 0 <= i < |articles| :: articles[i].slug !in ExcludedDirs
    ensures forall i, j | 0 <= i < |articles| && 0 <= j < |articles| ::
              articles[i].date.Some? && articles[i].date.value.instant > MinInstant && articles[j].date.None? ==> i < j
  {
    var collected := ReadArticleDirs(entries, parse, format);
    CollectedFields(entries, parse, format);
    SortDescSorted(collected, SortKey);
    articles := SortDesc(collected, SortKey);
    KeepsSlugs(collected, articles);
    DatedFirst(articles);
  }

  /** The directory loop of `collect_articles`: one record per article directory that has an `index.html`. */
  method ReadArticleDirs(entries: seq<DirEntry>, parse: DateParser, format: DateFormatter)
    returns (articles: seq<ArticleRecord>)
    ensures articles == Collected(entries, parse, format)
  {
    articles := [];
    for k := 0 to |entries|
      invariant articles == Collected(entries[..k], parse, format)
    {
      assert entries[..k + 1][..k] == entries[..k];
      var item := entries[k];
      if item.isDir && item.name !in ExcludedDirs {
        var metadata := ExtractArticleMetadata(item, parse, format);
        if metadata.Some? {
          articles := articles + [metadata.value];
        }
      }
    }
    assert entries[..|entries|] == entries;
  }

  /** A rearrangement of records with admissible slugs has admissible slugs. */
  lemma KeepsSlugs(xs: seq<ArticleRecord>, ys: seq<ArticleRecord>)
    requires multiset(xs) == multiset(ys)
    requires forall i | 0 <= i < |xs| :: xs[i].slug !in ExcludedDirs
    ensures forall i | 0 <= i < |ys| :: ys[i].slug !in ExcludedDirs
  {
    forall i | 0 <= i < |ys| ensures ys[i].slug !in ExcludedDirs {
      assert ys[i] in multiset(xs);
    }
  }

  /** In date order, every record dated after `datetime.min` comes before every undated one. */
  lemma DatedFirst(xs: seq<ArticleRecord>)
    requires SortedDesc(xs, SortKey)
    ensures forall i, j | 0 <= i < |xs| && 0 <= j < |xs| ::
              xs[i].date.Some? && xs[i].date.value.instant > MinInstant && xs[j].date.None? ==> i < j
  {
    forall i, j | 0 <= i < |xs| && 0 <= j < |xs| &&
                  xs[i].date.Some? && xs[i].date.value.instant > MinInstant && xs[j].date.None?
      ensures i < j
    {
      assert SortKey(xs[j]) == MinInstant < SortKey(xs[i]);
    }
  }

  // ---------------------------------------------------------------------
  // Pages
  // ---------------------------------------------------------------------

  /** `(n + POSTS_PER_PAGE - 1) // POSTS_PER_PAGE` */
  function TotalPages(n: nat): nat {
    (n + PostsPerPage - 1) / PostsPerPage
  }

  /** The page count is the ceiling of n / 6: enough pages for every article, and no page to spare. */
  lemma TotalPagesIsCeiling(n: nat)
    ensures TotalPages(n) * PostsPerPage >= n
    ensures n > 0 ==> (TotalPages(n) - 1) * PostsPerPage < n
    ensures n == 0 <==> TotalPages(n) == 0
  {
  }

  /** The articles of page `page`: `articles[start_idx:end_idx]`. */
  function PageSlice<T>(articles: seq<T>, page: int): seq<T> {
    var start := (page - 1) * PostsPerPage;
    PySlice(articles, start, start + PostsPerPage)
  }

  /**
   * Page `p` shows the articles from `(p-1)*6` up to `p*6` or the end; it is
   * empty exactly when `p` is beyond the page count.
   */
  lemma PageSliceBounds<T>(articles: seq<T>, page: int)
    requires page >= 1
    ensures var n, lo := |articles|, (page - 1) * PostsPerPage;
            PageSlice(articles, page) == if lo >= n then [] else articles[lo..if lo + PostsPerPage <= n then lo + PostsPerPage else n]
    ensures |PageSlice(articles, page)| <= PostsPerPage
    ensures PageSlice(articles, page) == [] <==> page > TotalPages(|articles|)
  {
    PageSliceRange(articles, page);
  }

  /** The slice of page `page` as positions of `articles`. */
  lemma PageSliceRange<T>(articles: seq<T>, page: int)
    requires page >= 1
    ensures var n, lo := |articles|, (page - 1) * PostsPerPage;
            PageSlice(articles, page) == if lo >= n then [] else articles[lo..if lo + PostsPerPage <= n then lo + PostsPerPage else n]
  {
    var lo := (page - 1) * PostsPerPage;
    PySliceInRange(articles, lo, lo + PostsPerPage);
  }

  /** The slices of pages 1 to `m`, in order. */
  function PagesUpTo<T>(articles: seq<T>, m: nat): seq<seq<T>> {
    if m == 0 then [] else PagesUpTo(articles, m - 1) + [PageSlice(articles, m)]
  }

  lemma {:induction false} PagesUpToFlatten<T>(articles: seq<T>, m: nat)
    ensures Flatten(PagesUpTo(articles, m)) ==
            articles[..if m * PostsPerPage <= |articles| then m * PostsPerPage else |articles|]
  {
    if m > 0 {
      var lo := (m - 1) * PostsPerPage;
      assert m * PostsPerPage == lo + PostsPerPage;
      PagesUpToFlatten(articles, m - 1);
      PageSliceRange(articles, m);
      var pages := PagesUpTo(articles, m);
      assert pages[..|pages| - 1] == PagesUpTo(articles, m - 1);
      SliceThenNext(articles, lo, PostsPerPage);
    }
  }

  /** The first `lo` items (or all) followed by the next `size` (or as many as remain) are the first `lo + size` (or all). */
  lemma SliceThenNext<T>(a: seq<T>, lo: nat, size: nat)
    ensures var n := |a|;
            a[..if lo <= n then lo else n] + (if lo >= n then [] else a[lo..if lo + size <= n then lo + size else n]) ==
            a[..if lo + size <= n then lo + size else n]
  {
    var n := |a|;
    if lo < n {
      var hi := if lo + size <= n then lo + size else n;
      assert a[..lo] + a[lo..hi] == a[..hi];
    }
  }

  /** Pages 1 to the page count, read in order, show every article exactly once and in order. */
  lemma PagesCover<T>(articles: seq<T>)
    ensures Flatten(PagesUpTo(articles, TotalPages(|articles|))) == articles
  {
    PagesUpToFlatten(articles, TotalPages(|articles|));
    TotalPagesIsCeiling(|articles|);
  }

  // ---------------------------------------------------------------------
  // Links and pagination
  // ---------------------------------------------------------------------

  /** The file `main` writes page `page` to. */
  function OutputPath(page: int): string {
    if page == 1 then "blog/index.html" else "blog/page/" + IntToString(page) + "/index.html"
  }

  /** The address page `page` is served at: its file's directory. */
  function PageUrl(page: int): string {
    if page == 1 then "/blog/" else "/blog/page/" + IntToString(page) + "/"
  }

  lemma PageUrlServesOutput(page: int)
    ensures "/" + OutputPath(page) == PageUrl(page) + "index.html"
  {
    if page == 1 {
      assert "/" + "blog/index.html" == "/blog/" + "index.html";
    } else {
      var x := IntToString(page);
      assert "/" + "blog/page/" == "/blog/page/";
      assert "/" + "index.html" == "/index.html";
      calc {
        "/" + OutputPath(page);
        "/" + ("blog/page/" + x + "/index.html");
        ("/" + "blog/page/") + x + ("/" + "index.html");
        ("/blog/page/" + x + "/") + "index.html";
      }
    }
  }

  /** Different pages go to different files. */
  lemma OutputPathInjective(p: nat, q: nat)
    requires p >= 1 && q >= 1 && OutputPath(p) == OutputPath(q)
    ensures p == q
  {
    if p != 1 && q != 1 {
      var a, b := NatToString(p), NatToString(q);
      var prefix := "blog/page/";
      assert OutputPath(p) == prefix + (a + "/index.html");
      assert OutputPath(q) == prefix + (b + "/index.html");
      assert (prefix + (a + "/index.html"))[|prefix|..] == a + "/index.html";
      assert (prefix + (b + "/index.html"))[|prefix|..] == b + "/index.html";
      assert a == (a + "/index.html")[..|a|];
      NatToStringInjective(p, q);
    }
  }

  /** The article link: relative on page 1, absolute below `/blog/` on later pages. */
  function ArticleLink(r: ArticleRecord, page: int): string {
    if page > 1 then "/blog/" + r.url else r.url
  }

  /** A link as a browser reads it on the page at address `base`. */
  function Resolve(base: string, link: string): string {
    if IsPrefix("/", link) then link else base + link
  }

  /** From every index page, an article's link leads to the same address, `/blog/<url>`. */
  lemma ArticleLinkResolves(r: ArticleRecord, page: int)
    requires page >= 1 && !IsPrefix("/", r.url)
    ensures Resolve(PageUrl(page), ArticleLink(r, page)) == "/blog/" + r.url
  {
    if page > 1 {
      assert IsPrefix("/", "/blog/" + r.url);
    }
  }

  /** The "older posts" link. */
  function PrevLink(page: int): Option<string> {
    if page > 1 then Some(if page == 2 then "/blog/" else "/blog/page/" + IntToString(page - 1) + "/") else None
  }

  /** The "newer posts" link. */
  function NextLink(page: int, total: int): Option<string> {
    if page < total then Some("/blog/page/" + IntToString(page + 1) + "/") else None
  }

  function PageLabel(page: int, total: int): string {
    "<span class=\"page-number\">Page " + IntToString(page) + " of " + IntToString(total) + "</span>"
  }

  /** The "older posts" anchor, or nothing on page 1. */
  function OlderAnchor(page: int): string {
    match PrevLink(page)
    case Some(url) => "<a class=\"older-posts\" href=\"" + url + "\"></a>"
    case None => ""
  }

  /** The "newer posts" anchor, or nothing on the last page. */
  function NewerAnchor(page: int, total: int): string {
    if page < total then "<a class=\"newer-posts\" href=\"/blog/page/" + IntToString(page + 1) + "/\"></a>" else ""
  }

  /** The "newer posts" anchor points at the next page's address. */
  lemma NewerAnchorLinks(page: int, total: int)
    requires page < total
    ensures NewerAnchor(page, total) == "<a class=\"newer-posts\" href=\"" + NextLink(page, total).value + "\"></a>"
  {
    var x := IntToString(page + 1);
    var a, b := "<a class=\"newer-posts\" href=\"", "/blog/page/";
    var c, d := "/", "\"></a>";
    assert a + b == "<a class=\"newer-posts\" href=\"/blog/page/";
    assert c + d == "/\"></a>";
    calc {
      NewerAnchor(page, total);
      (a + b) + x + (c + d);
      a + (b + x + c) + d;
    }
  }

  const NavOpen: string := "\n    <nav class=\"pagination\" role=\"navigation\">\n        "
  const NavBreak: string := "\n        "
  const NavClose: string := "\n    </nav>"

  /** The navigation fragment: nothing when there is a single page. */
  function Pagination(page: int, total: int): string {
    if total <= 1 then ""
    else NavOpen + OlderAnchor(page) + NavBreak + PageLabel(page, total) + NavBreak + NewerAnchor(page, total) + NavClose
  }

  /**
   * The navigation links lead to the neighbouring pages `main` writes: the
   * previous page exactly when there is one, the next page exactly when
   * there is one.
   */
  lemma NavigationTargets(page: int, total: int)
    requires 1 <= page <= total
    ensures PrevLink(page).Some? <==> page > 1
    ensures page > 1 ==> PrevLink(page).value == PageUrl(page - 1)
    ensures NextLink(page, total).Some? <==> page < total
    ensures page < total ==> NextLink(page, total).value == PageUrl(page + 1)
  {
  }

  /**
   * The fragment is empty exactly when there is one page at most; otherwise
   * it shows the label and each navigation anchor the page has.
   */
  lemma PaginationShows(page: int, total: int)
    ensures Pagination(page, total) == "" <==> total <= 1
    ensures total > 1 ==> Contains(Pagination(page, total), PageLabel(page, total))
    ensures total > 1 ==> Contains(Pagination(page, total), OlderAnchor(page))
    ensures total > 1 ==> Contains(Pagination(page, total), NewerAnchor(page, total))
    ensures OlderAnchor(page) != "" <==> page > 1
    ensures NewerAnchor(page, total) != "" <==> page < total
  {
    if total > 1 {
      var older, newer, pageLabel := OlderAnchor(page), NewerAnchor(page, total), PageLabel(page, total);
      assert |Pagination(page, total)| >= |NavOpen| > 0;
      ContainsSelf(older);
      ContainsRight(NavOpen, older, older);
      ContainsLeft(NavOpen + older, NavBreak, older);
      ContainsLeft(NavOpen + older + NavBreak, pageLabel, older);
      ContainsLeft(NavOpen + older + NavBreak + pageLabel, NavBreak, older);
      ContainsLeft(NavOpen + older + NavBreak + pageLabel + NavBreak, newer, older);
      ContainsLeft(NavOpen + older + NavBreak + pageLabel + NavBreak + newer, NavClose, older);
      ContainsSelf(pageLabel);
      ContainsRight(NavOpen + older + NavBreak, pageLabel, pageLabel);
      ContainsLeft(NavOpen + older + NavBreak + pageLabel, NavBreak, pageLabel);
      ContainsLeft(NavOpen + older + NavBreak + pageLabel + NavBreak, newer, pageLabel);
      ContainsLeft(NavOpen + older + NavBreak + pageLabel + NavBreak + newer, NavClose, pageLabel);
      ContainsSelf(newer);
      ContainsRight(NavOpen + older + NavBreak + pageLabel + NavBreak, newer, newer);
      ContainsLeft(NavOpen + older + NavBreak + pageLabel + NavBreak + newer, NavClose, newer);
    }
  }

  // ---------------------------------------------------------------------
  // Posts, header, footer
  // ---------------------------------------------------------------------

  /** The featured image, or nothing when the record has none. */
  function ImageHtml(r: ArticleRecord): string {
    if r.image != "" then "<img style=\"width:92%;\" alt=\"" + r.title + "\" src=\"" + r.image + "\" />" else ""
  }

  // The fixed text of a post block, between the places the article fills in.
  const PostStart: string := "<article class=\"post tag-getting-started row\">\n  <header class=\"col-lg-4 post-loop-header\">\n    <a href=\""
  const PostImage: string := "\">\n      "
  const PostHeading: string := "\n    </a>\n  </header>\n  <section class=\"post-excerpt col-lg-8\">\n      <h2 class=\"post-title\">\n        <a href=\""
  const PostText: string := "\">\n          "
  const PostExcerpt: string := "\n        </a>\n      </h2>\n      <p>\n        <a href=\""
  const PostReadMore: string := "...\n        </a>\n      </p>\n      <p class=\"read-more\">\n        <a href=\""
  const PostEnd: string := "\">\n          Lire la suite \U{2192}\n        </a>\n      </p>\n  </section>\n</article>"

  /** The post block of one article on page `page`. */
  function PostHtml(r: ArticleRecord, page: int): string {
    var link := ArticleLink(r, page);
    PostStart + link + PostImage + ImageHtml(r) + PostHeading + link + PostText + r.title +
    PostExcerpt + link + PostText + r.excerpt + PostReadMore + link + PostEnd
  }

  /** The post blocks of `rs`, in order, as `posts_html` collects them on page `page`. */
  function Posts(rs: seq<ArticleRecord>, page: int): seq<string> {
    Map(PostFor(page), rs)
  }

  /** `PostHtml` on page `page`, as a value `Map` can take. */
  function PostFor(page: int): ArticleRecord -> string {
    r => PostHtml(r, page)
  }

  /** One post block per article, article `k`'s block at position `k`. */
  lemma PostsAt(rs: seq<ArticleRecord>, page: int)
    ensures |Posts(rs, page)| == |rs|
    ensures forall k | 0 <= k < |rs| :: Posts(rs, page)[k] == PostHtml(rs[k], page)
  {
    forall k | 0 <= k < |rs| ensures Posts(rs, page)[k] == PostHtml(rs[k], page) {
      assert Posts(rs, page)[k] == PostFor(page)(rs[k]);
    }
  }

  /** The anchor the header ends at. */
  const PostsLoop: string := "<div class=\"posts-loop\">"

  /** The first index from `i` on that is not white space, or the end of `t`. */
  function SkipSpace(t: string, i: nat): (r: nat)
    requires i <= |t|
    ensures i <= r <= |t|
    ensures forall k | i <= k < r :: IsSpace(t[k])
    ensures r == |t| || !IsSpace(t[r])
    decreases |t| - i
  {
    if i < |t| && IsSpace(t[i]) then SkipSpace(t, i + 1) else i
  }

  /**
   * Group 1 of `re.search(r'(.*?<div class="posts-loop">\s*)', t, re.DOTALL)`,
   * or "" when there is no match: the lazy prefix stops at the first anchor,
   * and `\s*` takes all the white space after it.
   */
  function Header(t: string): string {
    match FindFrom(t, PostsLoop, 0)
    case None => ""
    case Some(i) => t[..SkipSpace(t, i + |PostsLoop|)]
  }

  /**
   * The header is "" when the anchor is missing, and otherwise the template
   * up to its first anchor, the anchor, and all the white space after it.
   */
  lemma HeaderShape(t: string)
    ensures var h := Header(t);
            IsPrefix(h, t) &&
            (!Contains(t, PostsLoop) ==> h == "") &&
            (Contains(t, PostsLoop) ==>
               exists i :: OccursAt(t, PostsLoop, i) && (forall k | 0 <= k < i :: !OccursAt(t, PostsLoop, k)) &&
                 i + |PostsLoop| <= |h| && (forall k | i + |PostsLoop| <= k < |h| :: IsSpace(t[k])) &&
                 (|h| == |t| || !IsSpace(t[|h|])))
  {
    match FindFrom(t, PostsLoop, 0)
    case None =>
      FindFromMissing(t, PostsLoop, 0);
    case Some(i) =>
      FindFromBefore(t, PostsLoop, 0, i);
      ContainsWitness(t, PostsLoop, i);
  }

  /**
   * Where `</div>\s*(</main>.*?</body>.*?</html>)` matches from `i`, if it
   * does: the positions of `</main>` (right after the white space), of the
   * first `</body>` after it and of the first `</html>` after that.
   */
  function FooterMatch(t: string, i: nat): Option<(nat, nat, nat)> {
    if !OccursAt(t, "</div>", i) then None
    else
      var j := SkipSpace(t, i + 6);
      match LazySpan(t, j, "</main>", "</body>", "</html>")
      case None => None
      case Some((b, h)) => Some((j, b, h))
  }

  /**
   * A match is `</div>` at `i`, white space only up to `</main>`, then the
   * first `</body>` after it and the first `</html>` after that.
   */
  lemma FooterMatchSpec(t: string, i: nat)
    ensures var r := FooterMatch(t, i);
            r.Some? ==>
              var (j, b, h) := r.value;
              OccursAt(t, "</div>", i) && i + 6 <= j && OccursAt(t, "</main>", j) &&
              (forall k | i + 6 <= k < j :: IsSpace(t[k])) &&
              j + 7 <= b && OccursAt(t, "</body>", b) && (forall k | j + 7 <= k < b :: !OccursAt(t, "</body>", k)) &&
              b + 7 <= h && OccursAt(t, "</html>", h) && (forall k | b + 7 <= k < h :: !OccursAt(t, "</html>", k))
  {
    if OccursAt(t, "</div>", i) {
      LazySpanFirst(t, SkipSpace(t, i + 6), "</main>", "</body>", "</html>");
    }
  }

  /** The positions a match reports: `</main>`, then `</body>`, then `</html>`, in that order. */
  lemma FooterMatchFound(t: string, i: nat)
    requires FooterMatch(t, i).Some?
    ensures var (j, b, h) := FooterMatch(t, i).value;
            OccursAt(t, "</main>", j) && j + 7 <= b && OccursAt(t, "</body>", b) && b + 7 <= h && OccursAt(t, "</html>", h)
  {
  }

  /** Group 1 of the footer pattern when it matches from `i`. */
  function FooterAt(t: string, i: nat): Option<string> {
    match FooterMatch(t, i)
    case None => None
    case Some((j, _, h)) => Some(t[j..h + 7])
  }

  /** `re.search` for the footer: the leftmost start from `i` on where the pattern matches. */
  function FooterSearch(t: string, i: nat): (r: Option<string>)
    ensures r.Some? ==> exists k :: i <= k && FooterAt(t, k) == r && forall m | i <= m < k :: FooterAt(t, m).None?
    ensures r.None? ==> forall k | i <= k :: FooterAt(t, k).None?
    decreases |t| - i
  {
    if i + 6 > |t| then None
    else if FooterAt(t, i).Some? then FooterAt(t, i)
    else FooterSearch(t, i + 1)
  }

  /** The template's closing part, or a default when the pattern is missing. */
  function Footer(t: string): string {
    match FooterSearch(t, 0)
    case Some(g) => "\n</div>\n" + g
    case None => "\n</div>\n</main>\n</body>\n</html>"
  }

  /** The piece of `t` from `j` to `e` starts with what `t` has at `j` and ends with what it has before `e`. */
  lemma SliceEnds(t: string, j: nat, e: nat, open: string, close: string)
    requires OccursAt(t, open, j) && OccursAt(t, close, e - |close|) && j + |open| <= e - |close|
    ensures IsPrefix(open, t[j..e]) && EndsWith(t[j..e], close) && Contains(t, t[j..e])
  {
    var g := t[j..e];
    assert g[..|open|] == t[j..j + |open|];
    assert g[|g| - |close|..] == t[e - |close|..e];
    assert OccursAt(t, g, j);
  }

  /** A piece of `t` that spans an occurrence of `p` contains `p`. */
  lemma SliceSpans(t: string, j: nat, e: nat, p: string, b: nat)
    requires j <= b && OccursAt(t, p, b) && b + |p| <= e <= |t|
    ensures Contains(t[j..e], p)
  {
    var g, x := t[j..e], b - j;
    var u, v := g[x..x + |p|], t[b..b + |p|];
    assert |u| == |v|;
    forall k | 0 <= k < |u| ensures u[k] == v[k] {
      assert u[k] == g[x + k] == t[j + x + k];
    }
    assert u == v;
    assert OccursAt(g, p, x);
  }

  /** A group the footer pattern captures is a piece of `t` from `</main>` to `</html>`, through `</body>`. */
  lemma FooterAtShape(t: string, i: nat)
    requires FooterAt(t, i).Some?
    ensures var g := FooterAt(t, i).value;
            IsPrefix("</main>", g) && EndsWith(g, "</html>") && Contains(g, "</body>") && Contains(t, g)
  {
    var (j, b, h) := FooterMatch(t, i).value;
    FooterMatchFound(t, i);
    var g := t[j..h + 7];
    assert FooterAt(t, i) == Some(g);
    CaptureShape(t, j, b, h);
  }

  /** The piece of `t` from a `</main>` through a later `</body>` to the end of a later `</html>`. */
  lemma CaptureShape(t: string, j: nat, b: nat, h: nat)
    requires OccursAt(t, "</main>", j) && j + 7 <= b && OccursAt(t, "</body>", b) && b + 7 <= h && OccursAt(t, "</html>", h)
    ensures var g := t[j..h + 7];
            IsPrefix("</main>", g) && EndsWith(g, "</html>") && Contains(g, "</body>") && Contains(t, g)
  {
    SliceEnds(t, j, h + 7, "</main>", "</html>");
    SliceSpans(t, j, h + 7, "</body>", b);
  }

  /** The footer always opens with "\n</div>\n" and ends with "</html>". */
  lemma FooterShape(t: string)
    ensures IsPrefix("\n</div>\n", Footer(t)) && EndsWith(Footer(t), "</html>")
    ensures FooterSearch(t, 0).Some? ==>
              var g := FooterSearch(t, 0).value;
              Footer(t) == "\n</div>\n" + g && IsPrefix("</main>", g) && Contains(g, "</body>") && Contains(t, g)
  {
    match FooterSearch(t, 0)
    case Some(g) =>
      var k :| 0 <= k && FooterAt(t, k) == Some(g);
      FooterAtShape(t, k);
      PrefixedEnds("\n</div>\n", g, "</html>");
    case None =>
      var g := "</main>\n</body>\n</html>";
      assert g[|g| - 7..] == "</html>";
      assert "\n</div>\n" + g == "\n</div>\n</main>\n</body>\n</html>";
      PrefixedEnds("\n</div>\n", g, "</html>");
  }

  // ---------------------------------------------------------------------
  // generate_index_page and main
  // ---------------------------------------------------------------------

  /**
   * What `generate_index_page` returns for page `page` of `total`, given the
   * template file's text (nothing when there is no template file).
   */
  function IndexPage(articles: seq<ArticleRecord>, page: int, total: int, template: Option<string>): Option<string> {
    match template
    case None => None
    case Some(t) => Some(PageText(articles, page, total, t))
  }

  /** The page built from template text `t`: its header, the posts, the navigation and its footer. */
  function PageText(articles: seq<ArticleRecord>, page: int, total: int, t: string): string {
    var t' := if page > 1 then RewriteAssets(t) else t;
    Header(t') + Join(Posts(PageSlice(articles, page), page), "\n") + Pagination(page, total) + Footer(t')
  }

  /** The header is a piece of the template, so it lacks what the template lacks. */
  lemma HeaderLacks(t: string, p: string)
    requires !Contains(t, p)
    ensures !Contains(Header(t), p)
  {
    assert p != [] by {
      if p == [] {
        assert OccursAt(t, p, 0);
      }
    }
    match FindFrom(t, PostsLoop, 0)
    case None =>
    case Some(i) =>
      SliceLacks(t, 0, SkipSpace(t, i + |PostsLoop|), p);
  }

  /** A captured footer group is a piece of the template, so it lacks what the template lacks. */
  lemma FooterAtLacks(t: string, i: nat, p: string)
    requires !Contains(t, p) && FooterAt(t, i).Some?
    ensures !Contains(FooterAt(t, i).value, p)
  {
    var (j, _, h) := FooterMatch(t, i).value;
    FooterMatchFound(t, i);
    assert FooterAt(t, i) == Some(t[j..h + 7]);
    SliceLacks(t, j, h + 7, p);
  }

  /** The footer search captures a piece of the template, so the group lacks what the template lacks. */
  lemma {:induction false} FooterLacks(t: string, i: nat, p: string)
    requires !Contains(t, p) && FooterSearch(t, i).Some?
    ensures !Contains(FooterSearch(t, i).value, p)
    decreases |t| - i
  {
    if FooterAt(t, i).Some? {
      FooterAtLacks(t, i, p);
    } else {
      FooterLacks(t, i + 1, p);
    }
  }

  /**
   * On pages after the first, the header and the captured footer come from
   * the rewritten template, so they hold none of the six old path prefixes.
   */
  lemma IndexPageRewritten(t: string, page: int)
    requires page > 1
    ensures forall i | 0 <= i < |AssetRewrites| ::
              !Contains(Header(RewriteAssets(t)), AssetRewrites[i].0) &&
              (FooterSearch(RewriteAssets(t), 0).Some? ==> !Contains(FooterSearch(RewriteAssets(t), 0).value, AssetRewrites[i].0))
  {
    var t' := RewriteAssets(t);
    RewriteAssetsClears(t);
    forall i | 0 <= i < |AssetRewrites|
      ensures !Contains(Header(t'), AssetRewrites[i].0)
      ensures FooterSearch(t', 0).Some? ==> !Contains(FooterSearch(t', 0).value, AssetRewrites[i].0)
    {
      HeaderLacks(t', AssetRewrites[i].0);
      if FooterSearch(t', 0).Some? {
        FooterLacks(t', 0, AssetRewrites[i].0);
      }
    }
  }

  /** A page is produced exactly when there is a template, and it is never empty, so `main` always writes it. */
  lemma IndexPageWritten(articles: seq<ArticleRecord>, page: int, total: int, template: Option<string>)
    ensures IndexPage(articles, page, total, template).Some? <==> template.Some?
    ensures template.Some? ==> IndexPage(articles, page, total, template).value != ""
  {
    if template.Some? {
      var t' := if page > 1 then RewriteAssets(template.value) else template.value;
      FooterShape(t');
      assert IndexPage(articles, page, total, template).value == PageText(articles, page, total, template.value);
    }
  }

  method GenerateIndexPage(articles: seq<ArticleRecord>, page: int, total: int, template: Option<string>)
    returns (html: Option<string>)
    ensures html == IndexPage(articles, page, total, template)
  {
    var startIdx := (page - 1) * PostsPerPage;
    var endIdx := startIdx + PostsPerPage;
    var pageArticles := PySlice(articles, startIdx, endIdx);
    assert pageArticles == PageSlice(articles, page);
    var posts := RenderPosts(pageArticles, page);
    var pagination := RenderPagination(page, total);
    if template.None? {
      return None;
    }
    var t := RewriteTemplate(template.value, page);
    var header := Header(t);
    var footer := Footer(t);
    html := Some(header + Join(posts, "\n") + pagination + footer);
  }

  /** The loop of `generate_index_page` that renders one post per article of the page. */
  method RenderPosts(pageArticles: seq<ArticleRecord>, page: int) returns (posts: seq<string>)
    ensures posts == Posts(pageArticles, page)
  {
    posts := [];
    for i := 0 to |pageArticles|
      invariant posts == Posts(pageArticles[..i], page)
    {
      assert pageArticles[..i + 1][..i] == pageArticles[..i];
      posts := posts + [PostHtml(pageArticles[i], page)];
    }
    assert pageArticles[..|pageArticles|] == pageArticles;
  }

  /** The pagination block of `generate_index_page`, built piece by piece. */
  method RenderPagination(page: int, total: int) returns (pagination: string)
    ensures pagination == Pagination(page, total)
  {
    pagination := "";
    if total > 1 {
      var prevPage := "";
      if page > 1 {
        var prevUrl := if page == 2 then "/blog/" else "/blog/page/" + IntToString(page - 1) + "/";
        prevPage := "<a class=\"older-posts\" href=\"" + prevUrl + "\"></a>";
        assert prevPage == OlderAnchor(page);
      }
      var nextPage := "";
      if page < total {
        nextPage := "<a class=\"newer-posts\" href=\"/blog/page/" + IntToString(page + 1) + "/\"></a>";
      }
      var pageNumber := "<span class=\"page-number\">Page " + IntToString(page) + " of " + IntToString(total) + "</span>";
      pagination := NavOpen + prevPage + NavBreak + pageNumber + NavBreak + nextPage + NavClose;
    }
  }

  /** The template of `generate_index_page` after its replace chain, which runs on pages after the first. */
  method RewriteTemplate(template: string, page: int) returns (t: string)
    ensures t == if page > 1 then RewriteAssets(template) else template
  {
    t := template;
    if page > 1 {
      t := Replace(t, HrefAssets, HrefAssetsDeep);
      t := Replace(t, SrcAssets, SrcAssetsDeep);
      t := Replace(t, HrefImages, HrefImagesDeep);
      t := Replace(t, SrcImages, SrcImagesDeep);
      t := Replace(t, HrefCss, HrefCssDeep);
      t := Replace(t, SrcJs, SrcJsDeep);
    }
  }


  /** The template `generate_index_page` reads: the saved copy, or else the current `blog/index.html`. */
  function TemplateFile(saved: Option<string>, blogIndex: Option<string>): Option<string> {
    if saved.Some? then saved else blogIndex
  }

  /** `PageText` for fixed articles, page count and template, as a value `LaterPages` can take. */
  function PageOf(articles: seq<ArticleRecord>, total: int, t: string): int -> string {
    q => PageText(articles, q, total, t)
  }

  /** Pages 2 to `last` as `main` writes them, page `q` built by `pageAt(q)`: each file with its page. */
  function LaterPages(pageAt: int -> string, last: int): (r: seq<(string, string)>)
    decreases last
  {
    if last < 2 then [] else LaterPages(pageAt, last - 1) + [(OutputPath(last), pageAt(last))]
  }

  lemma {:induction false} LaterPagesLength(pageAt: int -> string, last: int)
    ensures |LaterPages(pageAt, last)| == if last < 2 then 0 else last - 1
    decreases last
  {
    if last >= 2 {
      LaterPagesLength(pageAt, last - 1);
    }
  }

  /** Page `q` of the later pages is entry `q - 2`: its own file, with its own page. */
  lemma {:induction false} LaterPagesAt(pageAt: int -> string, last: int, q: int)
    requires 2 <= q <= last
    ensures |LaterPages(pageAt, last)| == last - 1
    ensures LaterPages(pageAt, last)[q - 2] == (OutputPath(q), pageAt(q))
    decreases last
  {
    if last > 2 {
      LaterPagesLength(pageAt, last - 1);
      if q < last {
        LaterPagesAt(pageAt, last - 1, q);
      }
    }
  }

  /** The loop of `main` over pages 2 to `total`, each built from the template read at that point. */
  method WriteLaterPages(articles: seq<ArticleRecord>, total: int, saved: Option<string>, indexFile: Option<string>)
    returns (later: seq<(string, string)>)
    ensures TemplateFile(saved, indexFile).None? ==> later == []
    ensures TemplateFile(saved, indexFile).Some? ==>
              later == LaterPages(PageOf(articles, total, TemplateFile(saved, indexFile).value), total)
  {
    ghost var tpl := TemplateFile(saved, indexFile);
    later := [];
    var pageNum := 2;
    while pageNum <= total
      invariant 2 <= pageNum && (pageNum <= total + 1 || pageNum == 2)
      invariant tpl.None? ==> later == []
      invariant tpl.Some? ==> later == LaterPages(PageOf(articles, total, tpl.value), pageNum - 1)
      decreases total - pageNum
    {
      var pageHtml := GenerateIndexPage(articles, pageNum, total, TemplateFile(saved, indexFile));
      IndexPageWritten(articles, pageNum, total, TemplateFile(saved, indexFile));
      if pageHtml.Some? && pageHtml.value != "" {
        later := later + [(OutputPath(pageNum), pageHtml.value)];
      }
      pageNum := pageNum + 1;
    }
  }

  /**
   * `main`: collect the articles, then write page 1 to blog/index.html and
   * pages 2 to the page count to blog/page/N/index.html. The template is
   * looked up anew for every page, so without a saved copy the later pages
   * read the blog/index.html page 1 has just replaced. Returns the files
   * written, in order.
   */
  method RebuildBlogIndex(entries: seq<DirEntry>, parse: DateParser, format: DateFormatter,
                          saved: Option<string>, blogIndex: Option<string>)
    returns (written: seq<(string, string)>)
    ensures var articles := SortDesc(Collected(entries, parse, format), SortKey);
            var total := TotalPages(|articles|);
            var first := TemplateFile(saved, blogIndex);
            if articles == [] || first.None? then written == []
            else
              var page1 := PageText(articles, 1, total, first.value);
              written == [(OutputPath(1), page1)] + LaterPages(PageOf(articles, total, TemplateFile(saved, Some(page1)).value), total)
  {
    var articles := CollectArticles(entries, parse, format);
    written := [];
    if |articles| == 0 {
      return;
    }
    var totalPages := (|articles| + PostsPerPage - 1) / PostsPerPage;
    var indexFile := blogIndex;

    var indexHtml := GenerateIndexPage(articles, 1, totalPages, TemplateFile(saved, indexFile));
    IndexPageWritten(articles, 1, totalPages, TemplateFile(saved, indexFile));
    if indexHtml.Some? && indexHtml.value != "" {
      written := [(OutputPath(1), indexHtml.value)];
      indexFile := Some(indexHtml.value);
    }
    var later := WriteLaterPages(articles, totalPages, saved, indexFile);
    written := written + later;
    ghost var first := TemplateFile(saved, blogIndex);
    if first.Some? {
      ghost var page1 := PageText(articles, 1, totalPages, first.value);
      assert indexHtml == Some(page1);
      assert indexFile == Some(page1);
    }
  }
}

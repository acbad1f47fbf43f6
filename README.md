# melmelboo-static blog scripts, modelled in Dafny

This project models the three Python scripts that maintain the static
melmelboo blog.

**rebuild_blog_index.py** rebuilds the paginated blog index. For each
article directory of `blog/` it:

- reads the title, the excerpt, the image and the publication date from
  the article's `index.html`, with an `html.parser` subclass;
- turns them into a record, with "Untitled" standing in for a missing
  title and at most 200 characters of excerpt.

It then sorts the records newest first, undated ones last, and writes
six posts per page:

- page 1 goes to `blog/index.html`;
- page N goes to `blog/page/N/index.html`.

Each page is:

- the header of a template up to `<div class="posts-loop">`;
- the post blocks;
- a pagination bar;
- the template's footer from `</main>` to `</html>`.

The template of a page after the first has its relative asset paths
rewritten two directories deeper.

**generate_projects_page.py** and **extract_projet52.py** both find the
"projet-52" articles. For each one they read the title, the image and the
date with a smaller parser, sort them newest first and split them by year.
The first script also lays out each year as a gallery of three images per
row and sets the 2016 and 2015 galleries into the projects page.

Modules:

| module | what it holds |
|---|---|
| `Wrappers` | the option type |
| `Text` | Python string operations on `seq<char>`: `strip`, `lower`, `in`, `find`, `replace`, `join`, slicing, integer formatting |
| `Lists` | filter, map, flatten, Python slicing, and the stable descending sort `list.sort(reverse=True)` performs |
| `Html` | parser events, `dict(attrs).get`, and the title and meta tags both parsers look for |
| `Dates` | a parsed date, with parsing and formatting as parameters |
| `BlogParser` | `ArticleParser` as a class, and its state as a value |
| `AssetRewrite`, `PathSeparation` | the six path replacements, and why none of the old prefixes survives them |
| `BlogIndex` | `extract_article_metadata`, `collect_articles`, `generate_index_page` and `main` |
| `Projet52` | `ArticleMetadataParser` and `extract_projet52_articles` |
| `ProjectsPage` | `generate_html_rows` and `generate_projects_page` |

The parsers are classes whose handlers update their fields in place. Each
handler is proved to move the fields exactly as a pure step function
does, and the properties are proved about the fold of that step function
over the event sequence. The loops of `collect_articles`,
`extract_projet52_articles`, `generate_html_rows`, `generate_index_page`
and `main` are methods. Each is proved equal to a specification function,
and the properties are proved about those functions.

## Model

| member | source | states |
|---|---|---|
| Html.AttrLastWins | rebuild_blog_index.py:34-37 | `dict(attrs).get(name)` has a value exactly when some attribute has that name, and the value is the one of the last such attribute |
| Html.LatchedSnoc | rebuild_blog_index.py:37-42 | one more event sets a flag if it opens the flag's element, clears it if it closes it, and otherwise leaves it as it was |
| Html.LastMetaFound | rebuild_blog_index.py:45-51 | there is a last `<meta>` tag with a given property exactly when there is one at all |
| BlogParser.ArticleParser.constructor | rebuild_blog_index.py:21-31 | a new parser has empty text fields and both flags off |
| BlogParser.ArticleParser.HandleStartTag | rebuild_blog_index.py:33-55 | the new fields are the start-tag step of the old ones: the title and content flags, then the first matching branch of the meta chain |
| BlogParser.ArticleParser.HandleData | rebuild_blog_index.py:57-64 | the new fields are the data step of the old ones: stripped text added to the title, and " " plus the text added to the content when it is non-blank |
| BlogParser.ArticleParser.HandleEndTag | rebuild_blog_index.py:66-73 | the new fields are the end-tag step of the old ones: `</h1>` ends the title; `</section>` ends the content and supplies the excerpt when there is none |
| BlogParser.ArticleParser.Feed | rebuild_blog_index.py:87 | feeding a document leaves the fields at the fold of the step over its events |
| BlogParser.OnStartTag | rebuild_blog_index.py:33-55 | the start-tag handler as a step: title and content flags, then the meta chain, where a description fills only an empty excerpt; stated by StepMeta, InTitleLatched, InContentLatched and DescriptionStep |
| BlogParser.OnData | rebuild_blog_index.py:57-64 | the data handler as a step; stated by StepText |
| BlogParser.OnEndTag | rebuild_blog_index.py:66-73 | the end-tag handler as a step: `</section>` closing the content fills an empty excerpt from the first 200 characters, stripped; stated by ContentExcerptReached and ContentWins (this direction) and by ExcerptOrigin and ExcerptSticky (the converse and permanence) |
| BlogParser.ContentExcerptReached | rebuild_blog_index.py:69-73 | a `</section>` that closes the content while the excerpt is still empty and some content text was collected sets the excerpt to the stripped first 200 characters of that text |
| BlogParser.ContentWins | rebuild_blog_index.py:69-73 | when that filled excerpt is non-empty, it is the final excerpt, whatever follows |
| BlogParser.StepText | rebuild_blog_index.py:57-64 | only a data event changes the title or the content text, and only while the matching flag is on |
| BlogParser.StepMeta | rebuild_blog_index.py:45-51 | only a `<meta>` with property `og:image`, `article:published_time` or `og:url` sets the image, the date or the URL, to its `content` or "" |
| BlogParser.RunAppend | rebuild_blog_index.py:87 | feeding two pieces one after the other is the same as feeding their concatenation |
| BlogParser.InTitleLatched | rebuild_blog_index.py:37-38 | `in_title` is on exactly when an `<h1 class="post-title">` has been opened and no `</h1>` has come since |
| BlogParser.InContentLatched | rebuild_blog_index.py:41-42 | `in_content` is on exactly when a section whose class contains "post-content" has been opened and no `</section>` has come since |
| BlogParser.TitleIsConcatenation | rebuild_blog_index.py:58-59 | the title is the concatenation of every text chunk read inside the title, each stripped |
| BlogParser.ContentTextIsPieces | rebuild_blog_index.py:60-64 | the content text is " " followed by the stripped chunk, for each non-blank chunk read inside the content section, in order |
| BlogParser.PiecesStep | rebuild_blog_index.py:62-64 | the last event adds one piece to the content exactly when it is non-blank data inside the content section |
| BlogParser.MetaLastWins | rebuild_blog_index.py:45-51 | image, date and URL each hold the content of the last `<meta>` with that property, and "" when there is none |
| BlogParser.ExcerptSticky | rebuild_blog_index.py:54 | once the excerpt is non-empty, no later description tag or section end replaces it |
| BlogParser.ExcerptKept | rebuild_blog_index.py:54 | an excerpt the parser holds at some point is the one it ends with |
| BlogParser.DescriptionReached | rebuild_blog_index.py:52-55 | a description tag met while the excerpt is empty supplies the excerpt |
| BlogParser.DescriptionWins | rebuild_blog_index.py:52-55 | the first description tag with a non-empty content fixes the final excerpt to that content |
| BlogParser.DescriptionStep | rebuild_blog_index.py:52-55 | one description tag, met while the excerpt is empty, sets the excerpt to its content |
| BlogParser.ExcerptOrigin | rebuild_blog_index.py:52-73 | the excerpt is empty, or the content of a description tag, or the first 200 characters of the content text collected up to a `</section>`, stripped |
| BlogIndex.ExtractArticleMetadata | rebuild_blog_index.py:76-108 | returns nothing without an `index.html`, and otherwise the record built from the fed parser |
| BlogIndex.MakeRecord | rebuild_blog_index.py:89-108 | the record built from the parser's final fields; stated by RecordFields and MetadataFromEvents |
| BlogIndex.RecordFields | rebuild_blog_index.py:100-107 | the title is "Untitled" only for an empty or "Untitled" heading; the excerpt is a prefix of at most 200 characters; URL = slug + "/"; there is a date exactly when the date string parses once "Z" is replaced; the date string is empty without a date |
| BlogIndex.MetadataFromEvents | rebuild_blog_index.py:86-104 | a record's title, image and date are traced back to the title chunks and the last `<meta>` tags of the article's events |
| BlogIndex.CollectedFields | rebuild_blog_index.py:119-125 | every collected record comes from a non-excluded directory, with URL = slug + "/", and every non-excluded directory with an `index.html` gives its record |
| BlogIndex.ReadArticleDirs | rebuild_blog_index.py:121-125 | the directory loop appends exactly the records of the article directories, in directory order |
| BlogIndex.CollectArticles | rebuild_blog_index.py:114-132 | the result is sorted newest first and is a permutation of the collected records; no slug is excluded; every record dated after `datetime.min` precedes every undated one |
| BlogIndex.DatedFirst | rebuild_blog_index.py:129-130 | in a list sorted by date key, each record dated after `datetime.min` comes before each undated one |
| BlogIndex.KeepsSlugs | rebuild_blog_index.py:119-130 | sorting keeps the guarantee that no slug is an excluded directory name |
| BlogIndex.TotalPagesIsCeiling | rebuild_blog_index.py:247 | the page count is the least number of six-post pages that hold every article, and 0 only for no articles |
| BlogIndex.TotalPages | rebuild_blog_index.py:247 | `(n + 5) // 6`; stated by TotalPagesIsCeiling |
| BlogIndex.PageSlice | rebuild_blog_index.py:138-140 | `articles[start_idx:end_idx]` for page N; stated by PageSliceBounds, PagesUpToFlatten and PagesCover |
| BlogIndex.PageSliceBounds | rebuild_blog_index.py:138-140 | page N holds articles 6(N-1) up to 6N (clipped), never more than six, and is empty exactly past the last page |
| BlogIndex.PagesUpToFlatten | rebuild_blog_index.py:138-140 | pages 1 to m, read in order, are the first 6m articles |
| BlogIndex.PagesCover | rebuild_blog_index.py:247-261 | together, pages 1 to the page count list every article exactly once, in order |
| BlogIndex.PageUrlServesOutput | rebuild_blog_index.py:181-187 | the URL linking to page N is served by the file page N is written to (`/blog/` for page 1, `/blog/page/N/` otherwise) |
| BlogIndex.OutputPathInjective | rebuild_blog_index.py:262-268 | different pages are written to different files |
| BlogIndex.ArticleLinkResolves | rebuild_blog_index.py:148 | from any index page, an article's link resolves to `/blog/` + its URL |
| BlogIndex.NavigationTargets | rebuild_blog_index.py:180-189 | there is an older-posts link exactly on pages after the first, to the page before; there is a newer-posts link exactly before the last page, to the page after |
| BlogIndex.NewerAnchorLinks | rebuild_blog_index.py:186-187 | before the last page, the newer-posts anchor points at the next page's URL |
| BlogIndex.PaginationShows | rebuild_blog_index.py:177-198 | the pagination bar is empty exactly when there is at most one page, and otherwise shows the page label and both anchors; each anchor is non-empty exactly where it has a target |
| BlogIndex.Pagination | rebuild_blog_index.py:176-198 | the `<nav>` block: the older anchor, the page label and the newer anchor, or "" for a single page; stated by PaginationShows and NavigationTargets |
| BlogIndex.PostsAt | rebuild_blog_index.py:142-174 | there is one post block per article of the page, in order, each that article's block |
| BlogIndex.PostHtml | rebuild_blog_index.py:145-173 | the post block of one article: its link four times, its image, its title and its excerpt followed by "..."; the link is stated by ArticleLinkResolves |
| BlogIndex.RenderPosts | rebuild_blog_index.py:142-174 | the loop produces the post blocks of the page's articles |
| BlogIndex.RenderPagination | rebuild_blog_index.py:176-198 | the method produces the pagination bar of the page |
| BlogIndex.SkipSpace | rebuild_blog_index.py:222 | `\s*`: the first position from `i` that is not white space, with only white space skipped |
| BlogIndex.HeaderShape | rebuild_blog_index.py:222-223 | the header is "" without the posts-loop tag, and otherwise the template up to its first posts-loop tag, that tag, and all the white space after it |
| BlogIndex.Header | rebuild_blog_index.py:222-223 | `(.*?<div class="posts-loop">\s*)` group 1, or "" without a match; stated by HeaderShape and HeaderLacks |
| BlogIndex.FooterMatchSpec | rebuild_blog_index.py:227 | a footer match at `i` is `</div>`, then only white space to `</main>`, then the first `</body>` after it, then the first `</html>` after that |
| BlogIndex.FooterSearch | rebuild_blog_index.py:227 | the search returns the match at the leftmost position where the pattern matches, and nothing when it matches nowhere |
| BlogIndex.FooterAtShape | rebuild_blog_index.py:227-228 | the captured group is a piece of the template that starts with `</main>`, ends with `</html>` and contains `</body>` |
| BlogIndex.CaptureShape | rebuild_blog_index.py:227 | the text from a `</main>` to a later `</html>`, through a `</body>` between them, starts and ends with those tags |
| BlogIndex.FooterShape | rebuild_blog_index.py:227-228 | the footer always starts with "\n</div>\n" and ends with `</html>`; when the pattern matches it is that prefix followed by the captured group |
| BlogIndex.Footer | rebuild_blog_index.py:227-228 | "\n</div>\n" and the footer pattern's group 1, or the fixed default; stated by FooterShape and FooterLacks |
| BlogIndex.HeaderLacks | rebuild_blog_index.py:222-223 | the header holds no text the template lacks |
| BlogIndex.FooterAtLacks | rebuild_blog_index.py:227-228 | a captured footer holds no text the template lacks |
| BlogIndex.FooterLacks | rebuild_blog_index.py:227-228 | the footer a search finds holds no text the template lacks |
| BlogIndex.IndexPageRewritten | rebuild_blog_index.py:209-228 | on pages after the first, neither the header nor the matched footer contains any of the six old path prefixes |
| BlogIndex.IndexPageWritten | rebuild_blog_index.py:205-233 | a page is produced exactly when there is a template file, and it is never empty, so `main` always writes it |
| BlogIndex.RewriteTemplate | rebuild_blog_index.py:209-219 | the template is rewritten on pages after the first and left alone on page 1 |
| BlogIndex.GenerateIndexPage | rebuild_blog_index.py:135-233 | the method returns the page its specification function assembles: header, posts joined by newlines, pagination, footer; nothing without a template |
| BlogIndex.LaterPagesLength | rebuild_blog_index.py:261 | the loop writes one file for each page from 2 to the page count |
| BlogIndex.LaterPagesAt | rebuild_blog_index.py:261-269 | the file for page q, written in position q - 2, is `blog/page/q/index.html` with page q's text |
| BlogIndex.WriteLaterPages | rebuild_blog_index.py:257-269 | the loop writes pages 2 to the page count, each to its own file, and writes nothing without a template |
| BlogIndex.RebuildBlogIndex | rebuild_blog_index.py:236-269 | nothing is written when there are no articles or no template. Otherwise page 1 goes to `blog/index.html`, then pages 2 to the page count follow in order. Without a saved template those later pages come from the page 1 just written |
| AssetRewrite.RewriteAssetsChain | rebuild_blog_index.py:213-219 | the six replaces are the in-order fold of the six (old, new) path pairs |
| AssetRewrite.RewriteAssets | rebuild_blog_index.py:209-219 | the six chained `replace` calls; stated by RewriteAssetsChain and RewriteAssetsClears |
| AssetRewrite.RewriteAllClears | rebuild_blog_index.py:213-219 | a chain of replaces removes every old pattern if no replacement of a pair can form an old pattern of that pair or an earlier one |
| AssetRewrite.RewriteStep | rebuild_blog_index.py:213-219 | running the chain one pair further applies that pair's replace to the result so far |
| AssetRewrite.RewriteAssetsClears | rebuild_blog_index.py:210-219 | after the rewrite, none of the six old relative path prefixes is left in the template |
| AssetRewrite.PairSeparated | rebuild_blog_index.py:213-219 | no replacement path, wherever it lands, can complete an old path prefix of its own step or an earlier one |
| Text.Strip | rebuild_blog_index.py:59-73 | `str.strip()` gives a text that neither starts nor ends with white space, no longer than the input, and empty exactly when the input is all white space |
| Text.StripIsSlice | rebuild_blog_index.py:59-73 | `str.strip()` returns a slice of the text, and everything cut off before or after it is white space |
| Text.Lower | generate_projects_page.py:45 | `str.lower()` keeps the length and lower-cases each character |
| Text.FindFrom | rebuild_blog_index.py:222 | a position found from `from` is an occurrence at or after `from` |
| Text.FindFromBefore | rebuild_blog_index.py:222 | the position found is the first occurrence at or after `from` |
| Text.FindFromMissing | rebuild_blog_index.py:222 | when nothing is found, the pattern occurs nowhere at or after `from` |
| Text.LazySpanFirst | rebuild_blog_index.py:227 | when `open.*?mid.*?close` matches at `j`, open is at `j`, mid is at the first occurrence after it, and close is at the first occurrence after that |
| Text.LazySpanMissing | rebuild_blog_index.py:227 | `open.*?mid.*?close` fails at `j` exactly when open is not at `j`, or no mid follows it, or no close follows the first mid after it |
| Text.LazySpan | rebuild_blog_index.py:227 | the positions of mid and close when `open.*?mid.*?close` matches at `j`, with `.` matching newlines as `re.DOTALL` makes it; its meaning is stated by LazySpanFirst and LazySpanMissing |
| Text.Take | rebuild_blog_index.py:102 | `s[:n]` is the first n characters of a longer text and the whole text otherwise: a prefix of at most n characters |
| Text.NatToString | rebuild_blog_index.py:191 | `str(n)` is a non-empty string of digits with no leading zero (only 0 itself starts with "0") |
| Text.NatToStringRoundTrip | rebuild_blog_index.py:191 | reading back the digits of `str(n)` gives n |
| Text.NatToStringInjective | rebuild_blog_index.py:262 | different numbers have different decimal forms |
| Text.ReplaceAbsent | rebuild_blog_index.py:96 | `replace` leaves a text without the pattern unchanged |
| Text.ReplaceRemoves | rebuild_blog_index.py:213-219 | after `replace`, the pattern no longer occurs when the replacement cannot form it |
| Text.ReplaceKeepsOut | rebuild_blog_index.py:213-219 | `replace` introduces no pattern the text lacked when the replacement cannot form it |
| Text.ReplaceAvoids | rebuild_blog_index.py:213-219 | a replace scan appended after a prefix without the pattern leaves no occurrence across the join |
| Text.Replace | rebuild_blog_index.py:213-219 | `str.replace`: a left-to-right scan that replaces each occurrence and resumes after it; stated by ReplaceAbsent, ReplaceRemoves, ReplaceKeepsOut and ReplaceCharAppend |
| Text.ReplaceCharAppend | rebuild_blog_index.py:96 | with a one-character pattern, replacing in a concatenation replaces in each part |
| Dates.NormalizeZ | rebuild_blog_index.py:96 | after `replace('Z', '+00:00')` no "Z" remains, and a date without "Z" is unchanged |
| Dates.NormalizeZAppend | rebuild_blog_index.py:96 | rewriting a concatenation rewrites each part, so the rewrite is character by character |
| Dates.NormalizeZChar | rebuild_blog_index.py:96 | "Z" becomes "+00:00", and every other character stays |
| Dates.NormalizeZSuffix | rebuild_blog_index.py:96 | a date ending in the UTC suffix "Z" ends in "+00:00" instead, and the rest is unchanged |
| Lists.Filter | generate_projects_page.py:66-68 | the filtered list is drawn from the input, holds only kept elements, and holds every kept element |
| Lists.Map | rebuild_blog_index.py:143-174 | the mapped list has one element per input, the function's value at it |
| Lists.SliceBound | rebuild_blog_index.py:140 | a Python slice bound is clipped into the list's range and kept when it is already inside |
| Lists.PySliceInRange | rebuild_blog_index.py:140 | `xs[i:j]` for `0 <= i <= j` is the elements from i up to j, cut at the end of the list |
| Lists.FilterAppend | generate_projects_page.py:66-68 | filtering a concatenation filters each part |
| Lists.FilterMembers | generate_projects_page.py:66-68 | an element is in the filtered list exactly when it is in the list and kept |
| Lists.FilterSorted | generate_projects_page.py:66-68 | filtering a sorted list keeps it sorted |
| Lists.FilterCount | generate_projects_page.py:66-68 | a kept element occurs as often after filtering as before, and a dropped one not at all |
| Lists.FilterPermutation | generate_projects_page.py:63-68 | filtering two permutations of each other gives permutations of each other |
| Lists.FlattenAppend | rebuild_blog_index.py:231 | flattening a concatenation concatenates the flattenings |
| Lists.InsertDescElements | rebuild_blog_index.py:130 | inserting into the sorted list adds exactly the new element |
| Lists.InsertDescSorted | rebuild_blog_index.py:130 | inserting into a sorted list keeps it sorted |
| Lists.InsertDescStable | rebuild_blog_index.py:130 | an inserted element goes after the elements with its key |
| Lists.SortDescSorted | rebuild_blog_index.py:130 | `sort(key, reverse=True)` gives a list sorted by descending key that is a permutation of the input |
| Lists.SortDescStable | rebuild_blog_index.py:130 | the sort is stable: elements with equal keys keep their input order |
| Lists.SortThenFilter | generate_projects_page.py:63-68 | taking one year's articles from the sorted list gives them sorted, and exactly that year's articles of the input |
| Lists.ChooseAppend | rebuild_blog_index.py:121-125 | collecting over a concatenation collects each part |
| Lists.ChooseMembers | rebuild_blog_index.py:121-125 | a value is collected exactly when some input yields it |
| Lists.Choose | rebuild_blog_index.py:121-125 | the values a loop appends when each element yields at most one, in input order; stated by ChooseAppend and ChooseMembers |
| Lists.SortDesc | rebuild_blog_index.py:130 | `sort(key, reverse=True)` as a stable insertion sort; stated by SortDescSorted and SortDescStable |
| Lists.PySlice | rebuild_blog_index.py:140 | `xs[i:j]` with Python's clipping of out-of-range bounds; stated by PySliceInRange |
| Projet52.ArticleMetadataParser.constructor | generate_projects_page.py:8-13 | a new parser has an empty title, image and date and the title flag off |
| Projet52.ArticleMetadataParser.HandleStartTag | generate_projects_page.py:15-23 | the new fields are the start-tag step of the old ones: the title flag, then the `og:image` / `article:published_time` chain |
| Projet52.ArticleMetadataParser.HandleData | generate_projects_page.py:25-27 | the new fields are the data step of the old ones: inside the title, the title becomes the stripped chunk |
| Projet52.ArticleMetadataParser.HandleEndTag | generate_projects_page.py:29-31 | the new fields are the end-tag step of the old ones: `</h1>` ends the title |
| Projet52.ArticleMetadataParser.Feed | generate_projects_page.py:47 | feeding a document leaves the fields at the fold of the step over its events |
| Projet52.OnStartTag | generate_projects_page.py:15-23 | the start-tag handler as a step; stated by InTitleLatched and MetaLastWins |
| Projet52.OnData | generate_projects_page.py:25-27 | the data handler as a step: inside the title the stripped chunk replaces the title; stated by TitleIsLastChunk |
| Projet52.OnEndTag | generate_projects_page.py:29-31 | the end-tag handler as a step: `</h1>` ends the title; stated by InTitleLatched |
| Projet52.Extract | generate_projects_page.py:44-59 | one pass of the walk loop: the article a page yields, if any; stated by ExtractKeeps |
| Projet52.InTitleLatched | generate_projects_page.py:17-31 | `in_title` is on exactly when an `<h1 class="post-title">` has been opened and no `</h1>` has come since |
| Projet52.TitleIsLastChunk | generate_projects_page.py:25-27 | the title is the last chunk read inside the title, stripped; earlier chunks are overwritten |
| Projet52.MetaLastWins | generate_projects_page.py:19-23 | image and date hold the content of the last `<meta>` with that property, and "" when there is none |
| Projet52.MentionsLowered | generate_projects_page.py:45 | the test `'tag-projet-52' in content` adds nothing to `'projet-52' in content.lower()` |
| Projet52.ExtractKeeps | generate_projects_page.py:45-59 | a page gives an article exactly when its lower-cased text contains "projet-52" and its date is non-empty and parses; the article carries that date, its year, the last image and the last title chunk |
| Projet52.CollectAppend | generate_projects_page.py:39-59 | walking two groups of pages one after the other appends their articles |
| Projet52.CollectMembers | generate_projects_page.py:39-59 | an article is collected exactly when some page gives it |
| Projet52.ExtractProjet52Articles | generate_projects_page.py:34-70 | each year's list holds exactly that year's collected articles, as a permutation, sorted newest first |
| Projet52.YearSplit | generate_projects_page.py:63-68 | one year's part of the sorted list is sorted, and holds exactly that year's articles, as a permutation |
| ProjectsPage.CellsAt | generate_projects_page.py:83-86 | there is one image cell per article, that article's cell |
| ProjectsPage.Cell | generate_projects_page.py:83-86 | the image cell of one article: its image as `src`, its title as `alt` and `title`; stated by CellsAt and CellIsCellLine |
| ProjectsPage.Rows | generate_projects_page.py:76-88 | there is always at least one row, even with no articles |
| ProjectsPage.Layout | generate_projects_page.py:76-88 | the lines of `html_parts` for the rows: each row opened, its cells, closed; stated by LayoutMarkers and LayoutCells |
| ProjectsPage.Gallery | generate_projects_page.py:73-89 | the gallery of one year, the layout lines joined by newlines; stated by GenerateHtmlRows |
| ProjectsPage.GenerateHtmlRows | generate_projects_page.py:73-89 | the loop's lines, joined by newlines, are the gallery: each row of three opened, its cells, closed |
| ProjectsPage.LayoutGrows | generate_projects_page.py:78-86 | one more article adds a row break after every third article, then its cell |
| ProjectsPage.RowsSnoc | generate_projects_page.py:79-81 | one more article starts a new row after every third article, and otherwise extends the last row |
| ProjectsPage.RowCount | generate_projects_page.py:76-88 | there is one row per started group of three articles, and one empty row for no articles |
| ProjectsPage.RowOf | generate_projects_page.py:78-86 | article i is cell i mod 3 of row i div 3 |
| ProjectsPage.RowSizes | generate_projects_page.py:79-81 | every row but the last holds three articles, and with articles no row is empty |
| ProjectsPage.RowsFlatten | generate_projects_page.py:78-86 | read in order, the rows give back the articles |
| ProjectsPage.LayoutMarkers | generate_projects_page.py:76-88 | every row is opened and closed once: as many row openings as closings as rows |
| ProjectsPage.LayoutCells | generate_projects_page.py:76-88 | the lines other than row markers are the cells of all the articles, in order |
| ProjectsPage.CellsOnly | generate_projects_page.py:83-86 | filtering lines that are all cells leaves them as they are |
| ProjectsPage.CellIsCellLine | generate_projects_page.py:83-86 | an image cell is never mistaken for a row marker |
| ProjectsPage.GenerateProjectsPage | generate_projects_page.py:92-447 | the page is the fixed text with the 2016 gallery, then the 2015 gallery, each from that year's sorted articles; the directory creation, the file write and the message at the end are left out as I/O |

## Left out

- The HTML tokenizer of `html.parser` is not modelled. A document is the sequence of start-tag, data and end-tag events it produces, with names already lower-cased. Two things are not captured: entity decoding and how the tokenizer splits text into chunks.
- The file system is not modelled. This covers `BLOG_DIR.iterdir()`, `os.walk`, `Path.exists`, reading and writing files, and `mkdir`. A directory entry, or a found page, is an input value holding its parsed events. The writes of `main` are returned as a list of (path, text) pairs.
- Read errors are not modelled. In `extract_article_metadata` a read error is caught and yields `None`; in the projet-52 walk it skips the file. File contents are given, so neither path can occur in the model.
- Attributes without a value are not modelled. `html.parser` reports a valueless attribute (`<section class>`) with the value `None`, while every attribute value in the model is a string. The model therefore misses what the script does with one:
  - At rebuild_blog_index.py:41, `"post-content" in None` raises `TypeError`. The `except Exception` at lines 109-111 catches it, and the article is silently dropped from the index.
  - A valueless `content` on a matching `<meta>` in rebuild_blog_index.py stores `None` instead of a string.
  - In the projet-52 walk nothing raises, because `handle_starttag` (generate_projects_page.py:15-23) only compares values with `==`. A valueless `content` on the `article:published_time` meta stores `None`, and the `if parser.date:` at line 49 skips the page. A valueless `content` on the `og:image` meta stores `None`, which `generate_html_rows` (lines 83-86) renders as `src="None"`.
- `datetime.fromisoformat` and `strftime("%d %B %Y")` are parameters. A date is reduced to the instant it sorts by and its year. An exception from parsing is `None`.
- Comparing dates with and without a time zone raises `TypeError` in the sort. The model orders every date by a single instant, so this exception is not modelled.
- Unicode is reduced to what the scripts meet here. `str.lower()` is modelled on ASCII letters only. `str.strip()` and the regex `\s` use the ASCII white-space set, not Unicode's.
- The projects page is not spelled out. Its 300 lines of fixed HTML around the two galleries are three opaque strings (`PageTemplate`). The model proves where the galleries go, not what the fixed text says.
- `print` calls, the progress messages and the final status line are not modelled. The script under `js/search.js` is not part of this model.
- extract_projet52.py repeats the parser and `extract_projet52_articles` of generate_projects_page.py with the same logic. The model has them once, in `Projet52`, and cites generate_projects_page.py. The membership test at extract_projet52.py:46 and the year split at extract_projet52.py:68-69 are the same as at generate_projects_page.py:45 and 66-68. Its `__main__` only prints.
- The `author` field of `ArticleParser` is kept in the model's state, set to "" by the constructor and never written afterwards, as in the script. No record reads it.
- The `url` field is modelled. It is parsed from `og:url`, which no record uses.
- BlogIndex.CollectArticles: "undated last" is stated for records dated strictly after `datetime.min`. A record dated exactly `datetime.min` sorts level with the undated ones, and the stable sort keeps their input order.
- BlogIndex.RebuildBlogIndex: the later pages read the `blog/index.html` that page 1 has just replaced, unless there is a saved template. This is stated exactly rather than hidden, because it is what the code does when `/tmp/blog-index-template.html` is absent.

/**
 * `ArticleParser` of rebuild_blog_index.py: reads an article's title
 * (every chunk of the title heading, concatenated), its image, date and
 * canonical URL from `meta` tags, and an excerpt taken from the meta
 * description or, failing that, from the text of the content section.
 */
module BlogParser {
  import opened Wrappers
  import opened Text
  import opened Lists
  import opened Html

  /** The fields of `ArticleParser`. */
  datatype ArticleState = ArticleState(
    title: string, excerpt: string, image: string, date: string, author: string, url: string,
    inTitle: bool, inContent: bool, contentText: string)

  const Fresh: ArticleState := ArticleState("", "", "", "", "", "", false, false, "")

  /** The longest content excerpt, in characters. */
  const ExcerptLength: nat := 200

  /** `<section>` whose class contains "post-content" starts the content. */
  predicate OpensContent(e: Event) {
    e.StartTag? && e.tag == "section" && Contains(AttrOr(e.attrs, "class", ""), "post-content")
  }

  /** Any `</section>` ends it. */
  predicate ClosesContent(e: Event) {
    e.EndTag? && e.tag == "section"
  }

  /**
   * A `<meta name="description">` that reaches the last branch of the meta
   * chain: its `property` is none of `og:image`, `article:published_time`
   * and `og:url`.
   */
  predicate IsDescription(e: Event) {
    e.StartTag? && e.tag == "meta" &&
    Attr(e.attrs, "property") != Some("og:image") &&
    Attr(e.attrs, "property") != Some("article:published_time") &&
    Attr(e.attrs, "property") != Some("og:url") &&
    Attr(e.attrs, "name") == Some("description")
  }

  /** `handle_starttag`: the two flags, then the meta chain. */
  function OnStartTag(st: ArticleState, tag: string, attrs: seq<(string, string)>): ArticleState {
    var st1 := if tag == "h1" && Attr(attrs, "class") == Some("post-title") then st.(inTitle := true) else st;
    var st2 := if tag == "section" && Contains(AttrOr(attrs, "class", ""), "post-content") then st1.(inContent := true) else st1;
    if tag != "meta" then st2
    else
      var property, content := Attr(attrs, "property"), AttrOr(attrs, "content", "");
      if property == Some("og:image") then st2.(image := content)
      else if property == Some("article:published_time") then st2.(date := content)
      else if property == Some("og:url") then st2.(url := content)
      else if Attr(attrs, "name") == Some("description") && st2.excerpt == "" then st2.(excerpt := content)
      else st2
  }

  /** `handle_data`: title text accumulates; non-blank content text is added after a space. */
  function OnData(st: ArticleState, data: string): ArticleState {
    var st1 := if st.inTitle then st.(title := st.title + Strip(data)) else st;
    if st1.inContent && Strip(data) != "" then st1.(contentText := st1.contentText + " " + Strip(data)) else st1
  }

  /** `handle_endtag`: closing the content section supplies an excerpt if there is none yet. */
  function OnEndTag(st: ArticleState, tag: string): ArticleState {
    var st1 := if tag == "h1" then st.(inTitle := false) else st;
    if tag == "section" && st1.inContent then
      var st2 := st1.(inContent := false);
      if st2.excerpt == "" && st2.contentText != "" then st2.(excerpt := Strip(Take(st2.contentText, ExcerptLength)))
      else st2
    else st1
  }

  function Step(st: ArticleState, e: Event): ArticleState {
    match e
    case StartTag(tag, attrs) => OnStartTag(st, tag, attrs)
    case Data(text) => OnData(st, text)
    case EndTag(tag) => OnEndTag(st, tag)
  }

  /** The state after the parser has received `evs`, one event after another. */
  function Run(st: ArticleState, evs: seq<Event>): ArticleState {
    if evs == [] then st else Step(Run(st, evs[..|evs| - 1]), evs[|evs| - 1])
  }

  class ArticleParser {
    var title: string
    var excerpt: string
    var image: string
    var date: string
    var author: string
    var url: string
    var inTitle: bool
    var inContent: bool
    var contentText: string

    function State(): ArticleState
      reads this
    {
      ArticleState(title, excerpt, image, date, author, url, inTitle, inContent, contentText)
    }

    constructor ()
      ensures State() == Fresh
    {
      title, excerpt, image, date, author, url := "", "", "", "", "", "";
      inTitle, inContent, contentText := false, false, "";
    }

    method HandleStartTag(tag: string, attrs: seq<(string, string)>)
      modifies this
      ensures State() == OnStartTag(old(State()), tag, attrs)
    {
      if tag == "h1" && Attr(attrs, "class") == Some("post-title") {
        inTitle := true;
      }
      if tag == "section" && Contains(AttrOr(attrs, "class", ""), "post-content") {
        inContent := true;
      }
      if tag == "meta" {
        if Attr(attrs, "property") == Some("og:image") {
          image := AttrOr(attrs, "content", "");
        } else if Attr(attrs, "property") == Some("article:published_time") {
          date := AttrOr(attrs, "content", "");
        } else if Attr(attrs, "property") == Some("og:url") {
          url := AttrOr(attrs, "content", "");
        } else if Attr(attrs, "name") == Some("description") {
          if excerpt == "" {
            excerpt := AttrOr(attrs, "content", "");
          }
        }
      }
    }

    method HandleData(data: string)
      modifies this
      ensures State() == OnData(old(State()), data)
    {
      if inTitle {
        title := title + Strip(data);
      }
      if inContent {
        var text := Strip(data);
        if text != "" {
          contentText := contentText + " " + text;
        }
      }
    }

    method HandleEndTag(tag: string)
      modifies this
      ensures State() == OnEndTag(old(State()), tag)
    {
      if tag == "h1" {
        inTitle := false;
      }
      if tag == "section" && inContent {
        inContent := false;
        if excerpt == "" && contentText != "" {
          excerpt := Strip(Take(contentText, ExcerptLength));
        }
      }
    }

    /** `feed`: the tokenizer calls the handlers once per event, in document order. */
    method Feed(events: seq<Event>)
      modifies this
      ensures State() == Run(old(State()), events)
    {
      for i := 0 to |events|
        invariant State() == Run(old(State()), events[..i])
      {
        assert events[..i + 1][..i] == events[..i];
        match events[i]
        case StartTag(tag, attrs) => HandleStartTag(tag, attrs);
        case Data(text) => HandleData(text);
        case EndTag(tag) => HandleEndTag(tag);
      }
      assert events[..|events|] == events;
    }
  }

  /** What one event does to the title and the content text: only data adds to them. */
  lemma StepText(st: ArticleState, e: Event)
    ensures Step(st, e).title == if e.Data? && st.inTitle then st.title + Strip(e.text) else st.title
    ensures Step(st, e).contentText ==
            if e.Data? && st.inContent && Strip(e.text) != "" then st.contentText + " " + Strip(e.text) else st.contentText
  {
    match e
    case StartTag(tag, attrs) =>
      var st' := OnStartTag(st, tag, attrs);
      assert st'.title == st.title && st'.contentText == st.contentText;
    case Data(text) =>
    case EndTag(tag) =>
      var st' := OnEndTag(st, tag);
      assert st'.title == st.title && st'.contentText == st.contentText;
  }

  /** What one event does to the three meta fields: only a `meta` with that property sets one. */
  lemma StepMeta(st: ArticleState, e: Event)
    ensures Step(st, e).image == if IsMeta(e, "property", "og:image") then AttrOr(e.attrs, "content", "") else st.image
    ensures Step(st, e).date ==
            if IsMeta(e, "property", "article:published_time") then AttrOr(e.attrs, "content", "") else st.date
    ensures Step(st, e).url == if IsMeta(e, "property", "og:url") then AttrOr(e.attrs, "content", "") else st.url
  {
    match e
    case StartTag(tag, attrs) =>
    case Data(text) =>
      var st' := OnData(st, text);
      assert st'.image == st.image && st'.date == st.date && st'.url == st.url;
    case EndTag(tag) =>
      var st' := OnEndTag(st, tag);
      assert st'.image == st.image && st'.date == st.date && st'.url == st.url;
  }

  /** Feeding two pieces one after the other is feeding their concatenation. */
  lemma {:induction false} RunAppend(st: ArticleState, a: seq<Event>, b: seq<Event>)
    ensures Run(st, a + b) == Run(Run(st, a), b)
    decreases |b|
  {
    if b == [] {
      assert a + b == a;
    } else {
      var b' := b[..|b| - 1];
      assert (a + b)[..|a + b| - 1] == a + b';
      RunAppend(st, a, b');
    }
  }

  /** `in_title` is on exactly when an `<h1 class="post-title">` was opened and no `</h1>` has come since. */
  lemma {:induction false} InTitleLatched(evs: seq<Event>)
    ensures Run(Fresh, evs).inTitle <==> Latched(evs, OpensTitle, ClosesTitle)
  {
    if evs != [] {
      var init, e := evs[..|evs| - 1], evs[|evs| - 1];
      InTitleLatched(init);
      LatchedSnoc(init, e, OpensTitle, ClosesTitle);
      assert evs == init + [e];
    }
  }

  /** `in_content` is on exactly when a post-content section was opened and no `</section>` has come since. */
  lemma {:induction false} InContentLatched(evs: seq<Event>)
    ensures Run(Fresh, evs).inContent <==> Latched(evs, OpensContent, ClosesContent)
  {
    if evs != [] {
      var init, e := evs[..|evs| - 1], evs[|evs| - 1];
      InContentLatched(init);
      LatchedSnoc(init, e, OpensContent, ClosesContent);
      assert evs == init + [e];
    }
  }

  /** The title is every chunk read inside the title heading, each stripped, run together. */
  lemma {:induction false} TitleIsConcatenation(evs: seq<Event>)
    ensures Run(Fresh, evs).title == Flatten(Map(Strip, TitleChunks(evs)))
  {
    if evs != [] {
      var init, e := evs[..|evs| - 1], evs[|evs| - 1];
      TitleIsConcatenation(init);
      InTitleLatched(init);
      var st := Run(Fresh, init);
      StepText(st, e);
      var chunks := TitleChunks(init);
      if e.Data? && st.inTitle {
        assert TitleChunks(evs) == chunks + [e.text];
        assert Map(Strip, chunks + [e.text]) == Map(Strip, chunks) + [Strip(e.text)];
      } else {
        assert TitleChunks(evs) == chunks;
      }
    }
  }

  /** The pieces the content text is made of: " " and the stripped text of each non-blank chunk of content. */
  ghost function ContentPieces(evs: seq<Event>): seq<string> {
    if evs == [] then []
    else
      var init, e := evs[..|evs| - 1], evs[|evs| - 1];
      ContentPieces(init) +
      if e.Data? && Latched(init, OpensContent, ClosesContent) && Strip(e.text) != "" then [" " + Strip(e.text)] else []
  }

  lemma {:induction false} ContentTextIsPieces(evs: seq<Event>)
    ensures Run(Fresh, evs).contentText == Flatten(ContentPieces(evs))
  {
    if evs != [] {
      var init, e := evs[..|evs| - 1], evs[|evs| - 1];
      ContentTextIsPieces(init);
      InContentLatched(init);
      StepText(Run(Fresh, init), e);
      PiecesStep(evs);
    }
  }

  /** The last event adds one piece when it is non-blank data inside the content section, and nothing otherwise. */
  lemma PiecesStep(evs: seq<Event>)
    requires evs != []
    ensures var init, e := evs[..|evs| - 1], evs[|evs| - 1];
            Flatten(ContentPieces(evs)) ==
            if e.Data? && Latched(init, OpensContent, ClosesContent) && Strip(e.text) != ""
            then Flatten(ContentPieces(init)) + " " + Strip(e.text)
            else Flatten(ContentPieces(init))
  {
    var init, e := evs[..|evs| - 1], evs[|evs| - 1];
    var pieces := ContentPieces(init);
    if e.Data? && Latched(init, OpensContent, ClosesContent) && Strip(e.text) != "" {
      var p := " " + Strip(e.text);
      assert ContentPieces(evs) == pieces + [p];
      assert (pieces + [p])[..|pieces|] == pieces;
    } else {
      assert ContentPieces(evs) == pieces;
    }
  }

  /** `image`, `date` and `url` hold the content of the last `meta` with that property, "" when there is none. */
  lemma {:induction false} MetaLastWins(evs: seq<Event>)
    ensures Run(Fresh, evs).image == LastMeta(evs, "og:image").GetOr("")
    ensures Run(Fresh, evs).date == LastMeta(evs, "article:published_time").GetOr("")
    ensures Run(Fresh, evs).url == LastMeta(evs, "og:url").GetOr("")
  {
    if evs != [] {
      MetaLastWins(evs[..|evs| - 1]);
      StepMeta(Run(Fresh, evs[..|evs| - 1]), evs[|evs| - 1]);
    }
  }

  /** Once there is an excerpt, nothing replaces it: neither a later description nor the content section. */
  lemma {:induction false} ExcerptSticky(st: ArticleState, evs: seq<Event>)
    requires st.excerpt != ""
    ensures Run(st, evs).excerpt == st.excerpt
  {
    if evs != [] {
      ExcerptSticky(st, evs[..|evs| - 1]);
    }
  }

  /**
   * A description that comes before the end of the content section wins:
   * when the excerpt is still empty at a description with non-empty
   * content, the final excerpt is that content, whatever follows.
   */
  lemma DescriptionWins(evs: seq<Event>, i: nat)
    requires i < |evs| && IsDescription(evs[i]) && AttrOr(evs[i].attrs, "content", "") != ""
    requires Run(Fresh, evs[..i]).excerpt == ""
    ensures Run(Fresh, evs).excerpt == AttrOr(evs[i].attrs, "content", "")
  {
    DescriptionReached(evs, i);
    ExcerptKept(evs, i + 1);
  }

  /** An excerpt the parser has after the first `j` events is the one it ends with. */
  lemma ExcerptKept(evs: seq<Event>, j: nat)
    requires j <= |evs| && Run(Fresh, evs[..j]).excerpt != ""
    ensures Run(Fresh, evs).excerpt == Run(Fresh, evs[..j]).excerpt
  {
    var upTo, after := evs[..j], evs[j..];
    RunAppend(Fresh, upTo, after);
    assert upTo + after == evs;
    ExcerptSticky(Run(Fresh, upTo), after);
  }

  /** Right after such a description, the excerpt is its content. */
  lemma DescriptionReached(evs: seq<Event>, i: nat)
    requires i < |evs| && IsDescription(evs[i])
    requires Run(Fresh, evs[..i]).excerpt == ""
    ensures Run(Fresh, evs[..i + 1]).excerpt == AttrOr(evs[i].attrs, "content", "")
  {
    var upTo := evs[..i + 1];
    assert upTo[..i] == evs[..i] && upTo[i] == evs[i];
    DescriptionStep(Run(Fresh, evs[..i]), evs[i]);
  }

  /**
   * Closing the content section while the excerpt is still empty and some
   * content was collected fills the excerpt with the stripped first 200
   * characters of that content.
   */
  lemma ContentExcerptReached(evs: seq<Event>, i: nat)
    requires i < |evs| && ClosesContent(evs[i]) && Latched(evs[..i], OpensContent, ClosesContent)
    requires Run(Fresh, evs[..i]).excerpt == "" && Flatten(ContentPieces(evs[..i])) != ""
    ensures Run(Fresh, evs[..i + 1]).excerpt == Strip(Take(Flatten(ContentPieces(evs[..i])), ExcerptLength))
  {
    assert evs[..i + 1] == evs[..i] + [evs[i]];
    ContentCloseAfter(evs[..i], evs[i]);
  }

  /** The same, for the events before the `</section>` and the `</section>` itself. */
  lemma ContentCloseAfter(init: seq<Event>, e: Event)
    requires ClosesContent(e) && Latched(init, OpensContent, ClosesContent)
    requires Run(Fresh, init).excerpt == "" && Flatten(ContentPieces(init)) != ""
    ensures Run(Fresh, init + [e]).excerpt == Strip(Take(Flatten(ContentPieces(init)), ExcerptLength))
  {
    var evs := init + [e];
    assert evs[..|evs| - 1] == init;
    InContentLatched(init);
    ContentTextIsPieces(init);
    ContentCloseStep(Run(Fresh, init), e);
  }

  /** Closing the content section with content collected and no excerpt yet supplies it. */
  lemma ContentCloseStep(st: ArticleState, e: Event)
    requires ClosesContent(e) && st.inContent && st.excerpt == "" && st.contentText != ""
    ensures Step(st, e).excerpt == Strip(Take(st.contentText, ExcerptLength))
  {
  }

  /**
   * The content section wins when it closes before any description: a
   * non-empty excerpt taken from it at its `</section>` is the final one.
   */
  lemma ContentWins(evs: seq<Event>, i: nat)
    requires i < |evs| && ClosesContent(evs[i]) && Latched(evs[..i], OpensContent, ClosesContent)
    requires Run(Fresh, evs[..i]).excerpt == ""
    requires Strip(Take(Flatten(ContentPieces(evs[..i])), ExcerptLength)) != ""
    ensures Run(Fresh, evs).excerpt == Strip(Take(Flatten(ContentPieces(evs[..i])), ExcerptLength))
  {
    assert Flatten(ContentPieces(evs[..i])) != "";
    ContentExcerptReached(evs, i);
    ExcerptKept(evs, i + 1);
  }

  /** A description met while the excerpt is still empty supplies it. */
  lemma DescriptionStep(st: ArticleState, e: Event)
    requires IsDescription(e) && st.excerpt == ""
    ensures Step(st, e).excerpt == AttrOr(e.attrs, "content", "")
  {
  }

  /**
   * The excerpt is empty, or the content of a description tag, or the
   * stripped first 200 characters of the content text as it stood when a
   * `</section>` closed the content.
   */
  lemma {:induction false} ExcerptOrigin(evs: seq<Event>)
    ensures var x := Run(Fresh, evs).excerpt;
            x == "" ||
            (exists i :: 0 <= i < |evs| && IsDescription(evs[i]) && x == AttrOr(evs[i].attrs, "content", "")) ||
            (exists i :: 0 <= i < |evs| && ClosesContent(evs[i]) &&
               x == Strip(Take(Flatten(ContentPieces(evs[..i])), ExcerptLength)) && |x| <= ExcerptLength)
  {
    if evs != [] {
      var init, e := evs[..|evs| - 1], evs[|evs| - 1];
      ExcerptOrigin(init);
      var st := Run(Fresh, init);
      var x := Run(Fresh, evs).excerpt;
      assert forall i | 0 <= i < |init| :: evs[i] == init[i] && evs[..i] == init[..i];
      if x != st.excerpt {
        assert evs[..|init|] == init;
        if e.StartTag? {
          assert IsDescription(evs[|init|]);
        } else {
          ContentTextIsPieces(init);
          assert ClosesContent(evs[|init|]);
        }
      }
    }
  }
}

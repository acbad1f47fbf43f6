/**
 * What the scripts' parsers receive from Python's `html.parser.HTMLParser`:
 * one callback per start tag, text run and end tag, in document order,
 * with tag and attribute names already lower-cased. The tokenizer itself
 * is not modelled; a document is the sequence of events it produces.
 */
module Html {
  import opened Wrappers
  import opened Text

  datatype Event =
    | StartTag(tag: string, attrs: seq<(string, string)>)
    | Data(text: string)
    | EndTag(tag: string)

  /** `dict(attrs).get(name)`: when a name is repeated the last value wins. */
  function Attr(attrs: seq<(string, string)>, name: string): Option<string> {
    if attrs == [] then None
    else if attrs[|attrs| - 1].0 == name then Some(attrs[|attrs| - 1].1)
    else Attr(attrs[..|attrs| - 1], name)
  }

  /** A name has a value exactly when some pair carries it, and the value is that of the last such pair. */
  lemma {:induction false} AttrLastWins(attrs: seq<(string, string)>, name: string)
    ensures Attr(attrs, name).Some? <==> exists i :: 0 <= i < |attrs| && attrs[i].0 == name
    ensures Attr(attrs, name).Some? ==>
              exists i :: 0 <= i < |attrs| && attrs[i] == (name, Attr(attrs, name).value) &&
                forall j :: i < j < |attrs| ==> attrs[j].0 != name
  {
    if attrs != [] && attrs[|attrs| - 1].0 != name {
      var init := attrs[..|attrs| - 1];
      AttrLastWins(init, name);
      assert forall i :: 0 <= i < |init| ==> init[i] == attrs[i];
    }
  }

  /** `dict(attrs).get(name, default)` */
  function AttrOr(attrs: seq<(string, string)>, name: string, default: string): string {
    Attr(attrs, name).GetOr(default)
  }

  /**
   * A region some event opens and some event closes (the parsers' `in_title`
   * and `in_content` flags): after `evs`, an event of `evs` opened it and no
   * later event closed it.
   */
  ghost predicate Latched(evs: seq<Event>, opens: Event -> bool, closes: Event -> bool) {
    exists k :: 0 <= k < |evs| && opens(evs[k]) && forall m :: k < m < |evs| ==> !closes(evs[m])
  }

  /** How one more event moves a latch: opening wins, otherwise a closing event clears it. */
  lemma LatchedSnoc(evs: seq<Event>, e: Event, opens: Event -> bool, closes: Event -> bool)
    requires !(opens(e) && closes(e))
    ensures Latched(evs + [e], opens, closes) <==> opens(e) || (Latched(evs, opens, closes) && !closes(e))
  {
    var evs' := evs + [e];
    if opens(e) {
      assert evs'[|evs|] == e;
    } else if Latched(evs, opens, closes) && !closes(e) {
      var k :| 0 <= k < |evs| && opens(evs[k]) && forall m :: k < m < |evs| ==> !closes(evs[m]);
      assert evs'[k] == evs[k];
      forall m | k < m < |evs'| ensures !closes(evs'[m]) {
        if m < |evs| {
          assert evs'[m] == evs[m];
        }
      }
    }
    if Latched(evs', opens, closes) {
      var k :| 0 <= k < |evs'| && opens(evs'[k]) && forall m :: k < m < |evs'| ==> !closes(evs'[m]);
      if k < |evs| {
        assert evs'[|evs|] == e;
        assert evs[k] == evs'[k];
        forall m | k < m < |evs| ensures !closes(evs[m]) {
          assert evs'[m] == evs[m];
        }
      }
    }
  }

  /** `<h1 class="post-title">`, the start of the title both parsers read. */
  predicate OpensTitle(e: Event) {
    e.StartTag? && e.tag == "h1" && Attr(e.attrs, "class") == Some("post-title")
  }

  /** Any `</h1>` ends the title, whichever `h1` it closes. */
  predicate ClosesTitle(e: Event) {
    e.EndTag? && e.tag == "h1"
  }

  /** The text of each data event met while the title is open, in document order. */
  ghost function TitleChunks(evs: seq<Event>): seq<string> {
    if evs == [] then []
    else
      var init, e := evs[..|evs| - 1], evs[|evs| - 1];
      TitleChunks(init) + (if e.Data? && Latched(init, OpensTitle, ClosesTitle) then [e.text] else [])
  }

  /** A `<meta>` start tag whose attribute `name` has the value `value`. */
  predicate IsMeta(e: Event, name: string, value: string) {
    e.StartTag? && e.tag == "meta" && Attr(e.attrs, name) == Some(value)
  }

  /**
   * The `content` of the last `<meta property="prop">` in `evs` ("" for one
   * without `content`), or nothing when there is no such tag.
   */
  function LastMeta(evs: seq<Event>, prop: string): Option<string> {
    if evs == [] then None
    else
      var init, e := evs[..|evs| - 1], evs[|evs| - 1];
      if IsMeta(e, "property", prop) then Some(AttrOr(e.attrs, "content", "")) else LastMeta(init, prop)
  }

  /** There is a last such tag exactly when there is one at all. */
  lemma {:induction false} LastMetaFound(evs: seq<Event>, prop: string)
    ensures LastMeta(evs, prop).Some? <==> exists i :: 0 <= i < |evs| && IsMeta(evs[i], "property", prop)
  {
    if evs != [] {
      var init := evs[..|evs| - 1];
      LastMetaFound(init, prop);
      assert forall i :: 0 <= i < |init| ==> init[i] == evs[i];
    }
  }
}

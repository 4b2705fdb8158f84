/** The two HTML documents the share route sends (server.js lines 49-64 and
    68-86): a template literal with a fixed head, Open Graph `<meta>` tags, the
    React build's `index.html` inside `<body>`, and a fixed tail.

    The templates are not escaped: tag values are interpolated as they are.
    `ReadOgTags` is an independent reader of the emitted head (split into lines,
    read each `<meta property=".." content=".." />` line up to the `</head>`
    line), and the lemmas say which tags it recovers from each page. */
module OgPage {
  import opened Wrappers
  import opened Strings

  /** One Open Graph tag: `<meta property="{property}" content="{content}" />`. */
  datatype Meta = Meta(property: string, content: string)

  /** The fields of a Firestore `beats` document that the page uses. */
  datatype Song = Song(title: string, coverUrl: string)

  const TAG_OPEN := "<meta property=\""
  const TAG_MID := "\" content=\""
  const TAG_CLOSE := "\" />"

  /** The tag as the template writes it, values interpolated verbatim. */
  function MetaTag(m: Meta): (tag: string)
    ensures |tag| == |TAG_OPEN| + |m.property| + |TAG_MID| + |m.content| + |TAG_CLOSE|
    ensures tag[|TAG_OPEN|..|TAG_OPEN| + |m.property|] == m.property
    ensures tag[|TAG_OPEN| + |m.property| + |TAG_MID|..|tag| - |TAG_CLOSE|] == m.content
  {
    TAG_OPEN + m.property + TAG_MID + m.content + TAG_CLOSE
  }

  predicate QuoteFree(s: string)
  {
    '"' !in s
  }

  /** Reads `{open}{property}{mid}{content}{close}`: each value runs up to the
      next `"`, so whatever is read is quote-free. */
  function ReadFramed(t: string, open: string, mid: string, close: string): (r: Option<Meta>)
    ensures r.Some? ==> QuoteFree(r.value.property) && QuoteFree(r.value.content)
  {
    if StartsWith(t, open) then ReadPair(t[|open|..], mid, close) else None
  }

  /** Reads `{property}{mid}{content}{close}`. */
  function ReadPair(u: string, mid: string, close: string): (r: Option<Meta>)
    ensures r.Some? ==> QuoteFree(r.value.property) && QuoteFree(r.value.content)
  {
    var property := TakeUntil(u, '"');
    var v := u[|property|..];
    if !StartsWith(v, mid) then None
    else
      match ReadLast(v[|mid|..], close)
      case Some(content) => Some(Meta(property, content))
      case None => None
  }

  /** Reads `{content}{close}`, the content running up to the next `"`. */
  function ReadLast(w: string, close: string): (r: Option<string>)
    ensures r.Some? ==> QuoteFree(r.value)
  {
    var content := TakeUntil(w, '"');
    if w[|content|..] == close then Some(content) else None
  }

  /** A reader for one tag as the templates write it. */
  function ReadMetaTag(t: string): (r: Option<Meta>)
    ensures r.Some? ==> QuoteFree(r.value.property) && QuoteFree(r.value.content)
  {
    ReadFramed(t, TAG_OPEN, TAG_MID, TAG_CLOSE)
  }

  /** A string that starts with `p` is `p` followed by the rest. */
  lemma PrefixRest(s: string, p: string)
    requires StartsWith(s, p)
    ensures s == p + s[|p|..]
  {
  }

  /** `p` followed by `q` starts with `p`, and `q` is what follows it. */
  lemma RestAfterPrefix(p: string, q: string)
    ensures StartsWith(p + q, p) && (p + q)[|p|..] == q
  {
    assert (p + q)[..|p|] == p;
  }

  lemma ReadLastSound(w: string, close: string)
    ensures ReadLast(w, close).Some? ==> ReadLast(w, close).value + close == w
  {
    var content := TakeUntil(w, '"');
    assert w == content + w[|content|..];
  }

  lemma ReadPairSound(u: string, mid: string, close: string)
    ensures var r := ReadPair(u, mid, close);
      r.Some? ==> r.value.property + (mid + (r.value.content + close)) == u
  {
    var property := TakeUntil(u, '"');
    var v := u[|property|..];
    assert u == property + v;
    if StartsWith(v, mid) {
      PrefixRest(v, mid);
      ReadLastSound(v[|mid|..], close);
    }
  }

  /** What the reader accepts is exactly the framing of what it returns. */
  lemma ReadFramedSound(t: string, open: string, mid: string, close: string)
    ensures var r := ReadFramed(t, open, mid, close);
      r.Some? ==> open + (r.value.property + (mid + (r.value.content + close))) == t
  {
    if StartsWith(t, open) {
      PrefixRest(t, open);
      ReadPairSound(t[|open|..], mid, close);
    }
  }

  lemma Reassociate(a: string, b: string, c: string, d: string, e: string)
    ensures a + (b + (c + (d + e))) == a + b + c + d + e
  {
    assert c + (d + e) == c + d + e;
    assert b + (c + d + e) == b + c + d + e;
    assert a + (b + c + d + e) == a + b + c + d + e;
  }

  lemma ReadLastRoundTrip(content: string, close: string)
    requires QuoteFree(content) && close != [] && close[0] == '"'
    ensures ReadLast(content + close, close) == Some(content)
  {
    assert content + close == content + [close[0]] + close[1..];
    TakeUntilStops(content, '"', close[1..]);
    RestAfterPrefix(content, close);
  }

  lemma ReadPairRoundTrip(property: string, mid: string, content: string, close: string)
    requires QuoteFree(property) && QuoteFree(content)
    requires mid != [] && mid[0] == '"' && close != [] && close[0] == '"'
    ensures ReadPair(property + (mid + (content + close)), mid, close) == Some(Meta(property, content))
  {
    var rest := mid + (content + close);
    assert property + rest == property + [mid[0]] + (mid[1..] + (content + close));
    TakeUntilStops(property, '"', mid[1..] + (content + close));
    RestAfterPrefix(property, rest);
    RestAfterPrefix(mid, content + close);
    ReadLastRoundTrip(content, close);
  }

  /** A framed pair of quote-free values reads back as itself, provided the
      middle and closing markers start with the quote that ends each value. */
  lemma ReadFramedRoundTrip(open: string, property: string, mid: string, content: string, close: string)
    requires QuoteFree(property) && QuoteFree(content)
    requires mid != [] && mid[0] == '"' && close != [] && close[0] == '"'
    ensures ReadFramed(open + (property + (mid + (content + close))), open, mid, close) == Some(Meta(property, content))
  {
    RestAfterPrefix(open, property + (mid + (content + close)));
    ReadPairRoundTrip(property, mid, content, close);
  }

  /** What the reader accepts is exactly the rendering of what it returns. */
  lemma ReadMetaTagSound(t: string)
    ensures ReadMetaTag(t).Some? ==> MetaTag(ReadMetaTag(t).value) == t
  {
    ReadFramedSound(t, TAG_OPEN, TAG_MID, TAG_CLOSE);
    if ReadMetaTag(t).Some? {
      var m := ReadMetaTag(t).value;
      Reassociate(TAG_OPEN, m.property, TAG_MID, m.content, TAG_CLOSE);
    }
  }

  /** A tag whose values hold no `"` reads back as itself. */
  lemma MetaTagRoundTrip(m: Meta)
    requires QuoteFree(m.property) && QuoteFree(m.content)
    ensures ReadMetaTag(MetaTag(m)) == Some(m)
  {
    Reassociate(TAG_OPEN, m.property, TAG_MID, m.content, TAG_CLOSE);
    ReadFramedRoundTrip(TAG_OPEN, m.property, TAG_MID, m.content, TAG_CLOSE);
  }

  /** Since nothing is escaped, a value holding `"` ends its attribute early:
      the reader never gives back the tag that was meant. */
  lemma UnescapedQuoteBreaksTag(m: Meta)
    requires !QuoteFree(m.content)
    ensures ReadMetaTag(MetaTag(m)) != Some(m)
  {
  }

  /** How one template is laid out: `margin` is the indentation of the closing
      backtick line; the document starts two blanks deeper, `<head>` and
      `<body>` four, their contents six. One template has an empty line
      between `</head>` and `<body>`. */
  datatype Layout = Layout(margin: nat, blankAfterHead: bool)

  const DOCTYPE := "<!DOCTYPE html>"
  const HTML_OPEN := "<html lang=\"en\">"
  const HEAD_OPEN := "<head>"
  const CHARSET := "<meta charset=\"UTF-8\" />"
  const VIEWPORT_NAME := "<meta name=\"viewport\""
  const VIEWPORT_WIDTH := " content=\"width=device-width,"
  const VIEWPORT_SCALE := " initial-scale=1.0\" />"
  const VIEWPORT := VIEWPORT_NAME + VIEWPORT_WIDTH + VIEWPORT_SCALE
  const HEAD_CLOSE := "</head>"
  const BODY_OPEN := "<body>"
  const BODY_CLOSE := "</body>"
  const HTML_CLOSE := "</html>"

  /** The lines before the tags: the template literal opens with a newline,
      then the document down to `<head>`, then its first two elements and an
      empty line. */
  function FixedHeadLines(layout: Layout): (lines: seq<string>)
  {
    OuterLines(layout.margin) + InnerLines(layout.margin)
  }

  function OuterLines(m: nat): (lines: seq<string>)
  {
    ["", Spaces(m + 2) + DOCTYPE, Spaces(m + 2) + HTML_OPEN, Spaces(m + 4) + HEAD_OPEN]
  }

  function InnerLines(m: nat): (lines: seq<string>)
  {
    [Spaces(m + 6) + CHARSET, Spaces(m + 6) + VIEWPORT, ""]
  }

  function TagLines(indent: nat, tags: seq<Meta>): (lines: seq<string>)
  {
    if tags == [] then [] else [Spaces(indent) + MetaTag(tags[0])] + TagLines(indent, tags[1..])
  }

  /** The lines from `</head>` to `<body>`. */
  function HeadToBodyLines(layout: Layout): (lines: seq<string>)
  {
    var m := layout.margin;
    [Spaces(m + 4) + HEAD_CLOSE] + (if layout.blankAfterHead then [""] else []) + [Spaces(m + 4) + BODY_OPEN]
  }

  function OpeningLines(layout: Layout, tags: seq<Meta>): (lines: seq<string>)
  {
    FixedHeadLines(layout) + TagLines(layout.margin + 6, tags) + HeadToBodyLines(layout)
  }

  /** Each line followed by a newline. */
  function Lines(lines: seq<string>): (text: string)
  {
    if lines == [] then "" else lines[0] + "\n" + Lines(lines[1..])
  }

  /** Everything in front of `${indexHtml}`. */
  function Opening(layout: Layout, tags: seq<Meta>): (text: string)
  {
    Lines(OpeningLines(layout, tags)) + Spaces(layout.margin + 6)
  }

  /** Everything after `${indexHtml}`, down to the closing backtick. */
  function Closing(layout: Layout): (text: string)
  {
    var m := layout.margin;
    "\n" + Spaces(m + 4) + BODY_CLOSE + "\n" + Spaces(m + 2) + HTML_CLOSE + "\n" + Spaces(m)
  }

  /** One template literal: its head with the given tags, then `indexHtml` as it is. */
  function Page(layout: Layout, tags: seq<Meta>, indexHtml: string): (page: string)
  {
    Opening(layout, tags) + indexHtml + Closing(layout)
  }

  // ----- the two templates of the share route -----

  const NOT_FOUND_LAYOUT := Layout(6, false)
  const SONG_LAYOUT := Layout(4, true)

  const OG_TITLE := "og:title"
  const OG_DESCRIPTION := "og:description"
  const OG_IMAGE := "og:image"
  const OG_IMAGE_WIDTH := "og:image:width"
  const OG_IMAGE_HEIGHT := "og:image:height"

  const NOT_FOUND_TITLE := "Beat Not Found"
  const NOT_FOUND_DESCRIPTION := "This beat may have been removed."
  const DEFAULT_IMAGE := "https://urbeathub.com/default_og.png"
  const IMAGE_WIDTH := "1200"
  const IMAGE_HEIGHT := "630"
  const BUY_PREFIX := "Buy & download "
  const BUY_SUFFIX := " on UrBeatHub"

  const NOT_FOUND_TAGS := [
    Meta(OG_TITLE, NOT_FOUND_TITLE),
    Meta(OG_DESCRIPTION, NOT_FOUND_DESCRIPTION),
    Meta(OG_IMAGE, DEFAULT_IMAGE)]

  /** The song page's description: the title between two fixed phrases. */
  function Description(title: string): (description: string)
    ensures |description| == |BUY_PREFIX| + |title| + |BUY_SUFFIX|
    ensures description[|BUY_PREFIX|..|BUY_PREFIX| + |title|] == title
  {
    BUY_PREFIX + title + BUY_SUFFIX
  }

  function SongTags(song: Song): (tags: seq<Meta>)
  {
    [ Meta(OG_TITLE, song.title),
      Meta(OG_DESCRIPTION, Description(song.title)),
      Meta(OG_IMAGE, song.coverUrl),
      Meta(OG_IMAGE_WIDTH, IMAGE_WIDTH),
      Meta(OG_IMAGE_HEIGHT, IMAGE_HEIGHT) ]
  }

  /** The page sent when no `beats` document has the key (server.js lines 49-64). */
  function NotFoundPage(indexHtml: string): (page: string)
    ensures EmbeddedAt(page, |Opening(NOT_FOUND_LAYOUT, NOT_FOUND_TAGS)|, indexHtml, NOT_FOUND_LAYOUT.margin)
  {
    IndexEmbeddedVerbatim(NOT_FOUND_LAYOUT, NOT_FOUND_TAGS, indexHtml);
    Page(NOT_FOUND_LAYOUT, NOT_FOUND_TAGS, indexHtml)
  }

  /** The page sent for a found document (server.js lines 68-86). */
  function SongPage(song: Song, indexHtml: string): (page: string)
    ensures EmbeddedAt(page, |Opening(SONG_LAYOUT, SongTags(song))|, indexHtml, SONG_LAYOUT.margin)
  {
    IndexEmbeddedVerbatim(SONG_LAYOUT, SongTags(song), indexHtml);
    Page(SONG_LAYOUT, SongTags(song), indexHtml)
  }

  // ----- reading the tags back -----

  /** The lines before the first one that reads `</head>` once indentation is trimmed. */
  function HeadSection(lines: seq<string>): (head: seq<string>)
    ensures |head| <= |lines| && head == lines[..|head|]
  {
    if lines == [] || TrimStart(lines[0]) == HEAD_CLOSE then []
    else [lines[0]] + HeadSection(lines[1..])
  }

  /** The tags read from those lines that hold one, in order. */
  function MetaLines(lines: seq<string>): (tags: seq<Meta>)
  {
    if lines == [] then [] else LineTag(lines[0]) + MetaLines(lines[1..])
  }

  /** The tag a line holds, if any, once its indentation is trimmed. */
  function LineTag(line: string): (tags: seq<Meta>)
    ensures |tags| <= 1
    ensures QuoteFreeTags(tags)
  {
    match ReadMetaTag(TrimStart(line))
    case Some(m) => [m]
    case None => []
  }

  predicate QuoteFreeTags(tags: seq<Meta>)
  {
    forall i :: 0 <= i < |tags| ==> QuoteFree(tags[i].property) && QuoteFree(tags[i].content)
  }

  lemma QuoteFreeTagsAppend(x: seq<Meta>, y: seq<Meta>)
    requires QuoteFreeTags(x) && QuoteFreeTags(y)
    ensures QuoteFreeTags(x + y)
  {
    forall i | 0 <= i < |x + y| ensures QuoteFree((x + y)[i].property) && QuoteFree((x + y)[i].content) {
      if i < |x| {
        assert (x + y)[i] == x[i];
      } else {
        assert (x + y)[i] == y[i - |x|];
      }
    }
  }

  /** The Open Graph tags a line-oriented reader finds in the head of a page. */
  function ReadOgTags(page: string): (tags: seq<Meta>)
  {
    MetaLines(HeadSection(Split(page, '\n')))
  }

  /** A value that can be interpolated without breaking the line-oriented reading:
      no quote and no newline. */
  predicate Plain(s: string)
  {
    QuoteFree(s) && '\n' !in s
  }

  predicate PlainMeta(m: Meta)
  {
    Plain(m.property) && Plain(m.content)
  }

  predicate PlainValues(tags: seq<Meta>)
  {
    forall i :: 0 <= i < |tags| ==> PlainMeta(tags[i])
  }

  lemma {:induction false} SplitLines(lines: seq<string>, rest: string)
    requires forall i :: 0 <= i < |lines| ==> '\n' !in lines[i]
    ensures Split(Lines(lines) + rest, '\n') == lines + Split(rest, '\n')
    decreases |lines|
  {
    if lines == [] {
      assert Lines(lines) + rest == rest;
      assert lines + Split(rest, '\n') == Split(rest, '\n');
    } else {
      var tail := Lines(lines[1..]) + rest;
      SplitLines(lines[1..], rest);
      AppendAssoc(lines[0] + "\n", Lines(lines[1..]), rest);
      SplitLine(lines[0], tail, '\n');
      AppendAssoc([lines[0]], lines[1..], Split(rest, '\n'));
      assert [lines[0]] + lines[1..] == lines;
    }
  }

  lemma {:induction false} HeadSectionStops(before: seq<string>, close: string, after: seq<string>)
    requires forall i :: 0 <= i < |before| ==> TrimStart(before[i]) != HEAD_CLOSE
    requires TrimStart(close) == HEAD_CLOSE
    ensures HeadSection(before + [close] + after) == before
    decreases |before|
  {
    if before == [] {
      assert (before + [close] + after)[0] == close;
    } else {
      var all := before + [close] + after;
      assert all[0] == before[0];
      assert all[1..] == before[1..] + [close] + after;
      HeadSectionStops(before[1..], close, after);
      assert before == [before[0]] + before[1..];
    }
  }

  lemma {:induction false} MetaLinesAppend(a: seq<string>, b: seq<string>)
    ensures MetaLines(a + b) == MetaLines(a) + MetaLines(b)
    decreases |a|
  {
    if a == [] {
      assert a + b == b;
    } else {
      assert (a + b)[0] == a[0];
      assert (a + b)[1..] == a[1..] + b;
      MetaLinesAppend(a[1..], b);
      var x, y, z := LineTag(a[0]), MetaLines(a[1..]), MetaLines(b);
      assert MetaLines(a + b) == x + (y + z);
      assert x + (y + z) == (x + y) + z;
    }
  }

  /** One indented tag line reads back as its tag. */
  lemma TagLineReadBack(indent: nat, m: Meta)
    requires QuoteFree(m.property) && QuoteFree(m.content)
    ensures LineTag(Spaces(indent) + MetaTag(m)) == [m]
  {
    assert MetaTag(m)[0] == '<';
    TrimIndented(indent, MetaTag(m));
    MetaTagRoundTrip(m);
  }

  lemma MarkersAreSingleLine()
    ensures '\n' !in TAG_OPEN && '\n' !in TAG_MID && '\n' !in TAG_CLOSE
  {
  }

  lemma MetaTagIsSingleLine(m: Meta)
    requires '\n' !in m.property && '\n' !in m.content
    ensures '\n' !in MetaTag(m)
  {
    MarkersAreSingleLine();
  }

  lemma SpacesAreSingleLine(n: nat)
    ensures '\n' !in Spaces(n)
  {
    var s := Spaces(n);
    assert forall i :: 0 <= i < |s| ==> s[i] != '\n';
  }

  /** A line the reader reads past on its way to `</head>`: a single line
      that is not the closing one. */
  predicate InHead(line: string)
  {
    '\n' !in line && TrimStart(line) != HEAD_CLOSE
  }

  predicate AllInHead(lines: seq<string>)
  {
    forall i :: 0 <= i < |lines| ==> InHead(lines[i])
  }

  predicate SingleLines(lines: seq<string>)
  {
    forall i :: 0 <= i < |lines| ==> '\n' !in lines[i]
  }

  lemma AllInHeadAppend(a: seq<string>, b: seq<string>)
    requires AllInHead(a) && AllInHead(b)
    ensures AllInHead(a + b)
  {
    forall i | 0 <= i < |a + b| ensures InHead((a + b)[i]) {
      if i < |a| {
        assert (a + b)[i] == a[i];
      } else {
        assert (a + b)[i] == b[i - |a|];
      }
    }
  }

  lemma SingleLinesAppend(a: seq<string>, b: seq<string>)
    requires SingleLines(a) && SingleLines(b)
    ensures SingleLines(a + b)
  {
    forall i | 0 <= i < |a + b| ensures '\n' !in (a + b)[i] {
      if i < |a| {
        assert (a + b)[i] == a[i];
      } else {
        assert (a + b)[i] == b[i - |a|];
      }
    }
  }

  /** One indented tag line is a single line and does not close the head. */
  lemma TagLineIsPlain(indent: nat, m: Meta)
    requires '\n' !in m.property && '\n' !in m.content
    ensures InHead(Spaces(indent) + MetaTag(m))
  {
    assert MetaTag(m)[0] == '<' && MetaTag(m)[1] == 'm';
    TrimIndented(indent, MetaTag(m));
    MetaTagIsSingleLine(m);
    SpacesAreSingleLine(indent);
  }

  lemma PlainValuesTail(tags: seq<Meta>)
    requires tags != [] && PlainValues(tags)
    ensures PlainValues(tags[1..])
  {
    forall i | 0 <= i < |tags[1..]| ensures PlainMeta(tags[1..][i]) {
      assert tags[1..][i] == tags[i + 1];
    }
  }

  lemma {:induction false} TagLinesReadBack(indent: nat, tags: seq<Meta>)
    requires PlainValues(tags)
    ensures MetaLines(TagLines(indent, tags)) == tags
    decreases |tags|
  {
    if tags == [] {
      assert TagLines(indent, tags) == [];
    } else {
      var line := Spaces(indent) + MetaTag(tags[0]);
      var rest := TagLines(indent, tags[1..]);
      TagLineReadBack(indent, tags[0]);
      PlainValuesTail(tags);
      TagLinesReadBack(indent, tags[1..]);
      assert TagLines(indent, tags) == [line] + rest;
      assert ([line] + rest)[0] == line && ([line] + rest)[1..] == rest;
      assert [tags[0]] + tags[1..] == tags;
    }
  }

  lemma {:induction false} TagLinesArePlain(indent: nat, tags: seq<Meta>)
    requires PlainValues(tags)
    ensures AllInHead(TagLines(indent, tags))
    decreases |tags|
  {
    if tags != [] {
      var line := Spaces(indent) + MetaTag(tags[0]);
      TagLineIsPlain(indent, tags[0]);
      PlainValuesTail(tags);
      TagLinesArePlain(indent, tags[1..]);
      assert AllInHead([line]);
      AllInHeadAppend([line], TagLines(indent, tags[1..]));
      assert TagLines(indent, tags) == [line] + TagLines(indent, tags[1..]);
    }
  }

  /** A line of fixed markup: it holds no tag and the reader reads past it. */
  predicate Untagged(line: string)
  {
    LineTag(line) == [] && InHead(line)
  }

  /** Lines without a tag contribute nothing. */
  lemma {:induction false} MetaLinesOfUntagged(lines: seq<string>)
    requires forall i :: 0 <= i < |lines| ==> Untagged(lines[i])
    ensures MetaLines(lines) == [] && AllInHead(lines)
    decreases |lines|
  {
    if lines != [] {
      assert forall i :: 0 <= i < |lines[1..]| ==> lines[1..][i] == lines[i + 1];
      MetaLinesOfUntagged(lines[1..]);
    }
  }

  /** An indented fixed line of markup that differs from the tag opening at
      position `j` (or is shorter than it) holds no tag and does not close the head. */
  lemma FixedLineIsPlain(indent: nat, text: string, j: nat)
    requires |text| >= 2 && text[0] == '<' && text[1] != '/' && '\n' !in text
    requires |text| < |TAG_OPEN| || (j < |TAG_OPEN| && j < |text| && text[j] != TAG_OPEN[j])
    ensures Untagged(Spaces(indent) + text)
  {
    TrimIndented(indent, text);
    SpacesAreSingleLine(indent);
    if |TAG_OPEN| <= |text| {
      assert text[..|TAG_OPEN|][j] != TAG_OPEN[j];
    }
  }

  lemma DoctypeLine(indent: nat)
    ensures Untagged(Spaces(indent) + DOCTYPE)
  {
    FixedLineIsPlain(indent, DOCTYPE, 0);
  }

  lemma HtmlOpenLine(indent: nat)
    ensures Untagged(Spaces(indent) + HTML_OPEN)
  {
    FixedLineIsPlain(indent, HTML_OPEN, 1);
  }

  lemma HeadOpenLine(indent: nat)
    ensures Untagged(Spaces(indent) + HEAD_OPEN)
  {
    FixedLineIsPlain(indent, HEAD_OPEN, 0);
  }

  lemma CharsetLine(indent: nat)
    ensures Untagged(Spaces(indent) + CHARSET)
  {
    FixedLineIsPlain(indent, CHARSET, 6);
  }

  lemma ViewportNameIsSingleLine() ensures '\n' !in VIEWPORT_NAME {}
  lemma ViewportWidthIsSingleLine() ensures '\n' !in VIEWPORT_WIDTH {}
  lemma ViewportScaleIsSingleLine() ensures '\n' !in VIEWPORT_SCALE {}

  lemma ViewportIsSingleLine()
    ensures '\n' !in VIEWPORT
  {
    ViewportNameIsSingleLine();
    ViewportWidthIsSingleLine();
    ViewportScaleIsSingleLine();
  }

  lemma ViewportStart()
    ensures |VIEWPORT| >= |TAG_OPEN| && VIEWPORT[0] == '<' && VIEWPORT[1] == 'm' && VIEWPORT[6] == 'n'
  {
    assert VIEWPORT[..|VIEWPORT_NAME|] == VIEWPORT_NAME;
  }

  lemma ViewportLine(indent: nat)
    ensures Untagged(Spaces(indent) + VIEWPORT)
  {
    ViewportIsSingleLine();
    ViewportStart();
    FixedLineIsPlain(indent, VIEWPORT, 6);
  }

  /** Lines of fixed markup hold no tag, and the reader reads past them. */
  predicate UntaggedLines(lines: seq<string>)
  {
    MetaLines(lines) == [] && AllInHead(lines)
  }

  lemma UntaggedFour(a: string, b: string, c: string, d: string)
    requires Untagged(a) && Untagged(b) && Untagged(c) && Untagged(d)
    ensures UntaggedLines([a, b, c, d])
  {
    MetaLinesOfUntagged([a, b, c, d]);
  }

  lemma UntaggedThree(a: string, b: string, c: string)
    requires Untagged(a) && Untagged(b) && Untagged(c)
    ensures UntaggedLines([a, b, c])
  {
    MetaLinesOfUntagged([a, b, c]);
  }

  lemma UntaggedAppend(a: seq<string>, b: seq<string>)
    requires UntaggedLines(a) && UntaggedLines(b)
    ensures UntaggedLines(a + b)
  {
    MetaLinesAppend(a, b);
    AllInHeadAppend(a, b);
  }

  /** The document opening, down to `<head>`. */
  lemma OuterLinesUntagged(m: nat)
    ensures UntaggedLines(OuterLines(m))
  {
    DoctypeLine(m + 2);
    HtmlOpenLine(m + 2);
    HeadOpenLine(m + 4);
    assert Untagged("");
    UntaggedFour("", Spaces(m + 2) + DOCTYPE, Spaces(m + 2) + HTML_OPEN, Spaces(m + 4) + HEAD_OPEN);
  }

  /** The charset and viewport lines, then the empty line before the tags. */
  lemma InnerLinesUntagged(m: nat)
    ensures UntaggedLines(InnerLines(m))
  {
    CharsetLine(m + 6);
    ViewportLine(m + 6);
    assert Untagged("");
    UntaggedThree(Spaces(m + 6) + CHARSET, Spaces(m + 6) + VIEWPORT, "");
  }

  /** No line of the fixed part of the head holds a tag or reads `</head>`. */
  lemma FixedHeadLinesArePlain(layout: Layout)
    ensures UntaggedLines(FixedHeadLines(layout))
  {
    OuterLinesUntagged(layout.margin);
    InnerLinesUntagged(layout.margin);
    UntaggedAppend(OuterLines(layout.margin), InnerLines(layout.margin));
  }

  /** From `</head>` to `<body>`: single lines, the first one closing the head. */
  lemma HeadToBodyFacts(layout: Layout)
    ensures var h := HeadToBodyLines(layout);
      && |h| >= 1 && TrimStart(h[0]) == HEAD_CLOSE && SingleLines(h)
  {
    var m := layout.margin;
    var h := HeadToBodyLines(layout);
    TrimIndented(m + 4, HEAD_CLOSE);
    IndentedSingleLine(m + 4, HEAD_CLOSE);
    IndentedSingleLine(m + 4, BODY_OPEN);
    assert SingleLines([Spaces(m + 4) + HEAD_CLOSE]);
    assert SingleLines([Spaces(m + 4) + BODY_OPEN]);
    assert SingleLines(if layout.blankAfterHead then [""] else []);
    SingleLinesAppend([Spaces(m + 4) + HEAD_CLOSE], if layout.blankAfterHead then [""] else []);
    SingleLinesAppend([Spaces(m + 4) + HEAD_CLOSE] + (if layout.blankAfterHead then [""] else []), [Spaces(m + 4) + BODY_OPEN]);
  }

  lemma IndentedSingleLine(indent: nat, text: string)
    requires '\n' !in text
    ensures '\n' !in Spaces(indent) + text
  {
    SpacesAreSingleLine(indent);
  }

  /** The reader applied to lines that reach a `</head>` line, then anything:
      it reads the tags of the lines above that line. */
  lemma ReadOgTagsOfLines(pre: seq<string>, h: seq<string>, rest: string)
    requires AllInHead(pre)
    requires |h| >= 1 && TrimStart(h[0]) == HEAD_CLOSE && SingleLines(h)
    ensures ReadOgTags(Lines(pre + h) + rest) == MetaLines(pre)
  {
    SingleLinesAppend(pre, h);
    SplitLines(pre + h, rest);
    assert (pre + h) + Split(rest, '\n') == pre + [h[0]] + (h[1..] + Split(rest, '\n')) by {
      assert h == [h[0]] + h[1..];
      AppendAssoc(pre, h, Split(rest, '\n'));
      AppendAssoc(pre, [h[0]], h[1..] + Split(rest, '\n'));
      AppendAssoc([h[0]], h[1..], Split(rest, '\n'));
    }
    HeadSectionStops(pre, h[0], h[1..] + Split(rest, '\n'));
  }

  /** Below lines that hold no tag and do not close the head, tag lines read
      back as their tags and do not close the head either. */
  lemma HeadLinesReadBack(fixed: seq<string>, indent: nat, tags: seq<Meta>)
    requires PlainValues(tags)
    requires UntaggedLines(fixed)
    ensures AllInHead(fixed + TagLines(indent, tags))
    ensures MetaLines(fixed + TagLines(indent, tags)) == tags
  {
    TagLinesReadBack(indent, tags);
    TagLinesArePlain(indent, tags);
    AllInHeadAppend(fixed, TagLines(indent, tags));
    MetaLinesAppend(fixed, TagLines(indent, tags));
  }

  /** The page is its opening lines, each ending in a newline, then the rest. */
  lemma PageAsLines(layout: Layout, tags: seq<Meta>, indexHtml: string)
    ensures Page(layout, tags, indexHtml)
      == Lines(OpeningLines(layout, tags)) + (Spaces(layout.margin + 6) + indexHtml + Closing(layout))
  {
    var m := layout.margin;
    var l := Lines(OpeningLines(layout, tags));
    AppendAssoc(l, Spaces(m + 6) + indexHtml, Closing(layout));
    AppendAssoc(l, Spaces(m + 6), indexHtml);
  }

  /** A line-oriented reader recovers exactly the tags a page was built with,
      whatever the embedded `indexHtml` holds, provided no value holds a quote
      or a newline. */
  lemma PageReadBack(layout: Layout, tags: seq<Meta>, indexHtml: string)
    requires PlainValues(tags)
    ensures ReadOgTags(Page(layout, tags, indexHtml)) == tags
  {
    FixedHeadLinesArePlain(layout);
    HeadToBodyFacts(layout);
    PageAsLines(layout, tags, indexHtml);
    LinesReadBack(FixedHeadLines(layout), layout.margin + 6, tags, HeadToBodyLines(layout),
      Spaces(layout.margin + 6) + indexHtml + Closing(layout));
  }

  /** The same, for any fixed lines above the tags and any lines from `</head>` on. */
  lemma LinesReadBack(fixed: seq<string>, indent: nat, tags: seq<Meta>, h: seq<string>, rest: string)
    requires PlainValues(tags) && UntaggedLines(fixed)
    requires |h| >= 1 && TrimStart(h[0]) == HEAD_CLOSE && SingleLines(h)
    ensures ReadOgTags(Lines(fixed + TagLines(indent, tags) + h) + rest) == tags
  {
    HeadLinesReadBack(fixed, indent, tags);
    ReadOgTagsOfLines(fixed + TagLines(indent, tags), h, rest);
  }

  lemma PlainConcat(a: string, b: string)
    requires Plain(a) && Plain(b)
    ensures Plain(a + b)
  {
  }

  lemma OgTitleIsPlain() ensures Plain(OG_TITLE) {}
  lemma OgDescriptionIsPlain() ensures Plain(OG_DESCRIPTION) {}
  lemma OgImageIsPlain() ensures Plain(OG_IMAGE) {}
  lemma OgImageWidthIsPlain() ensures Plain(OG_IMAGE_WIDTH) {}
  lemma OgImageHeightIsPlain() ensures Plain(OG_IMAGE_HEIGHT) {}
  lemma NotFoundTitleIsPlain() ensures Plain(NOT_FOUND_TITLE) {}
  lemma NotFoundDescriptionIsPlain() ensures Plain(NOT_FOUND_DESCRIPTION) {}
  lemma DefaultImageIsPlain() ensures Plain(DEFAULT_IMAGE) {}
  lemma ImageSizeIsPlain() ensures Plain(IMAGE_WIDTH) && Plain(IMAGE_HEIGHT) {}
  lemma BuyPhrasesArePlain() ensures Plain(BUY_PREFIX) && Plain(BUY_SUFFIX) {}

  lemma NotFoundTagsArePlain()
    ensures PlainValues(NOT_FOUND_TAGS)
  {
    OgTitleIsPlain();
    OgDescriptionIsPlain();
    OgImageIsPlain();
    NotFoundTitleIsPlain();
    NotFoundDescriptionIsPlain();
    DefaultImageIsPlain();
  }

  /** The song's tags are plain when its title and cover URL are. */
  lemma SongTagsArePlain(song: Song)
    requires Plain(song.title) && Plain(song.coverUrl)
    ensures PlainValues(SongTags(song))
  {
    OgTitleIsPlain();
    OgDescriptionIsPlain();
    OgImageIsPlain();
    OgImageWidthIsPlain();
    OgImageHeightIsPlain();
    ImageSizeIsPlain();
    BuyPhrasesArePlain();
    PlainConcat(BUY_PREFIX, song.title);
    PlainConcat(BUY_PREFIX + song.title, BUY_SUFFIX);
  }

  /** The not-found page carries exactly the three fallback tags, whatever `indexHtml` is. */
  lemma NotFoundPageTags(indexHtml: string)
    ensures ReadOgTags(NotFoundPage(indexHtml)) == [
      Meta(OG_TITLE, NOT_FOUND_TITLE),
      Meta(OG_DESCRIPTION, NOT_FOUND_DESCRIPTION),
      Meta(OG_IMAGE, DEFAULT_IMAGE)]
  {
    NotFoundTagsArePlain();
    PageReadBack(NOT_FOUND_LAYOUT, NOT_FOUND_TAGS, indexHtml);
  }

  /** The song page carries the title verbatim, the description built from it,
      the cover URL, and the fixed image size, in that order. */
  lemma SongPageTags(song: Song, indexHtml: string)
    requires Plain(song.title) && Plain(song.coverUrl)
    ensures ReadOgTags(SongPage(song, indexHtml)) == [
      Meta(OG_TITLE, song.title),
      Meta(OG_DESCRIPTION, BUY_PREFIX + song.title + BUY_SUFFIX),
      Meta(OG_IMAGE, song.coverUrl),
      Meta(OG_IMAGE_WIDTH, IMAGE_WIDTH),
      Meta(OG_IMAGE_HEIGHT, IMAGE_HEIGHT)]
  {
    SongTagsArePlain(song);
    PageReadBack(SONG_LAYOUT, SongTags(song), indexHtml);
  }

  lemma {:induction false} MetaLinesAreQuoteFree(lines: seq<string>)
    ensures QuoteFreeTags(MetaLines(lines))
    decreases |lines|
  {
    if lines != [] {
      MetaLinesAreQuoteFree(lines[1..]);
      QuoteFreeTagsAppend(LineTag(lines[0]), MetaLines(lines[1..]));
    }
  }

  /** Whatever page it is given, the reader only returns quote-free values. */
  lemma ReadOgTagsAreQuoteFree(page: string)
    ensures QuoteFreeTags(ReadOgTags(page))
  {
    MetaLinesAreQuoteFree(HeadSection(Split(page, '\n')));
  }

  /** A line without `<` holds no tag. */
  lemma LineWithoutMarkup(line: string)
    requires '<' !in line
    ensures LineTag(line) == []
  {
    TrimStartLacks(line, '<');
    var t := TrimStart(line);
    if |TAG_OPEN| <= |t| {
      assert t[..|TAG_OPEN|][0] == t[0];
    }
  }

  lemma {:induction false} MetaLinesWithoutMarkup(lines: seq<string>)
    requires forall i :: 0 <= i < |lines| ==> '<' !in lines[i]
    ensures MetaLines(lines) == []
    decreases |lines|
  {
    if lines != [] {
      LineWithoutMarkup(lines[0]);
      assert forall i :: 0 <= i < |lines[1..]| ==> lines[1..][i] == lines[i + 1];
      MetaLinesWithoutMarkup(lines[1..]);
    }
  }

  /** Text without `<` yields no tags, however it splits into lines. */
  lemma NoMarkupNoTags(page: string)
    requires '<' !in page
    ensures ReadOgTags(page) == []
  {
    var lines := Split(page, '\n');
    SplitPiecesLack(page, '\n', '<');
    var head := HeadSection(lines);
    assert forall i :: 0 <= i < |head| ==> head[i] == lines[i];
    MetaLinesWithoutMarkup(head);
  }

  /** A title holding `"` is interpolated unescaped, so the reader does not
      recover the tags the song page was built with. */
  lemma QuotedTitleIsNotRecovered(song: Song, indexHtml: string)
    requires !QuoteFree(song.title)
    ensures ReadOgTags(SongPage(song, indexHtml)) != SongTags(song)
  {
    ReadOgTagsAreQuoteFree(SongPage(song, indexHtml));
  }

  predicate EndsWith(s: string, suffix: string)
  {
    |suffix| <= |s| && s[|s| - |suffix|..] == suffix
  }

  /** Joining lines distributes over concatenation. */
  lemma {:induction false} LinesAppend(a: seq<string>, b: seq<string>)
    ensures Lines(a + b) == Lines(a) + Lines(b)
    decreases |a|
  {
    if a == [] {
      assert a + b == b;
    } else {
      LinesAppend(a[1..], b);
      assert (a + b)[0] == a[0] && (a + b)[1..] == a[1..] + b;
      AppendAssoc(a[0] + "\n", Lines(a[1..]), Lines(b));
    }
  }

  lemma LinesOfOne(x: string)
    ensures Lines([x]) == x + "\n"
  {
    assert [x][1..] == [];
  }

  lemma Regroup(a: string, b: string, c: string, d: string, e: string)
    ensures a + ((b + c) + d) + e == (a + b) + (c + d + e)
  {
    assert (b + c) + d == b + (c + d);
    assert a + (b + (c + d)) == (a + b) + (c + d);
    assert (a + b) + (c + d) + e == (a + b) + (c + d + e);
  }

  lemma EndsWithAppend(x: string, y: string)
    ensures EndsWith(x + y, y)
  {
    assert (x + y)[|x + y| - |y|..] == y;
  }

  /** Lines whose last one ends in `text`, then `tail`: the result ends in
      `text`, the newline, and `tail`. */
  lemma EndsWithLastLine(ls: seq<string>, pad: string, text: string, tail: string)
    requires |ls| >= 1 && ls[|ls| - 1] == pad + text
    ensures EndsWith(Lines(ls) + tail, text + "\n" + tail)
  {
    var init := ls[..|ls| - 1];
    assert ls == init + [pad + text];
    LinesAppend(init, [pad + text]);
    LinesOfOne(pad + text);
    Regroup(Lines(init), pad, text, "\n", tail);
    EndsWithAppend(Lines(init) + pad, text + "\n" + tail);
  }

  /** The text in front of `indexHtml` ends with the `<body>` line and the
      indentation of the line `indexHtml` starts on. */
  lemma OpeningEndsInBody(layout: Layout, tags: seq<Meta>)
    ensures EndsWith(Opening(layout, tags), BODY_OPEN + "\n" + Spaces(layout.margin + 6))
  {
    var m := layout.margin;
    var h := HeadToBodyLines(layout);
    LastOfAppend(FixedHeadLines(layout) + TagLines(m + 6, tags), h);
    EndsWithLastLine(OpeningLines(layout, tags), Spaces(m + 4), BODY_OPEN, Spaces(m + 6));
  }

  /** The text after `indexHtml` starts by closing its line and the body. */
  lemma ClosingStartsWithBodyClose(layout: Layout)
    ensures StartsWith(Closing(layout), "\n" + Spaces(layout.margin + 4) + BODY_CLOSE)
  {
    var m := layout.margin;
    var x := "\n" + Spaces(m + 4) + BODY_CLOSE;
    var y := "\n" + Spaces(m + 2) + HTML_CLOSE + "\n" + Spaces(m);
    assert Closing(layout) == x + y;
    assert (x + y)[..|x|] == x;
  }

  /** `indexHtml` stands unchanged at offset `k` of `page`, right after the
      `<body>` line and the indentation of a template with margin `margin`, and
      right before the line that closes the body. */
  predicate EmbeddedAt(page: string, k: nat, indexHtml: string, margin: nat)
  {
    && k + |indexHtml| <= |page|
    && page[k..k + |indexHtml|] == indexHtml
    && EndsWith(page[..k], BODY_OPEN + "\n" + Spaces(margin + 6))
    && StartsWith(page[k + |indexHtml|..], "\n" + Spaces(margin + 4) + BODY_CLOSE)
  }

  /** Text spliced between two others stands right after the first and is
      framed by what the first ends with and the second starts with. */
  lemma Spliced(o: string, x: string, c: string, margin: nat)
    requires EndsWith(o, BODY_OPEN + "\n" + Spaces(margin + 6))
    requires StartsWith(c, "\n" + Spaces(margin + 4) + BODY_CLOSE)
    ensures EmbeddedAt(o + x + c, |o|, x, margin)
    ensures (o + x + c)[..|o|] + (o + x + c)[|o| + |x|..] == o + c
  {
    var page := o + x + c;
    assert page[..|o|] == o;
    assert page[|o|..|o| + |x|] == x;
    assert page[|o| + |x|..] == c;
  }

  /** `indexHtml` appears unchanged inside `<body>`, at an offset that depends
      only on the layout and the tags, and the text around it is the page
      built around an empty `indexHtml`. */
  lemma IndexEmbeddedVerbatim(layout: Layout, tags: seq<Meta>, indexHtml: string)
    ensures var page := Page(layout, tags, indexHtml);
      var k := |Opening(layout, tags)|;
      && EmbeddedAt(page, k, indexHtml, layout.margin)
      && page[..k] + page[k + |indexHtml|..] == Page(layout, tags, "")
  {
    var o, c := Opening(layout, tags), Closing(layout);
    OpeningEndsInBody(layout, tags);
    ClosingStartsWithBodyClose(layout);
    Spliced(o, indexHtml, c, layout.margin);
    assert o + "" == o;
  }

  // ----- where each tag stands, for every value -----

  /** `b` as it stands between `a` and `c`. */
  lemma Middle(a: string, b: string, c: string)
    ensures |a| + |b| <= |a + b + c| && (a + b + c)[|a|..|a| + |b|] == b
  {
  }

  /** The tag lines of a page, one per tag, each its indentation and the tag as written. */
  lemma {:induction false} TagLinesEach(indent: nat, tags: seq<Meta>)
    ensures |TagLines(indent, tags)| == |tags|
    ensures forall i :: 0 <= i < |tags| ==> TagLines(indent, tags)[i] == Spaces(indent) + MetaTag(tags[i])
    decreases |tags|
  {
    if tags != [] {
      TagLinesEach(indent, tags[1..]);
      assert forall i :: 1 <= i < |tags| ==> tags[1..][i - 1] == tags[i];
    }
  }

  /** The tag lines stand in every page right after its fixed head lines,
      whatever the values hold. */
  lemma TagTextAt(layout: Layout, tags: seq<Meta>, indexHtml: string)
    ensures var page := Page(layout, tags, indexHtml);
      var k := |Lines(FixedHeadLines(layout))|;
      var t := Lines(TagLines(layout.margin + 6, tags));
      k + |t| <= |page| && page[k..k + |t|] == t
  {
    var fixed, tl, h := FixedHeadLines(layout), TagLines(layout.margin + 6, tags), HeadToBodyLines(layout);
    var rest := Spaces(layout.margin + 6) + indexHtml + Closing(layout);
    PageAsLines(layout, tags, indexHtml);
    LinesAppend(fixed + tl, h);
    LinesAppend(fixed, tl);
    AppendAssoc(Lines(fixed) + Lines(tl), Lines(h), rest);
    AppendAssoc(Lines(fixed), Lines(tl), Lines(h) + rest);
    Middle(Lines(fixed), Lines(tl), Lines(h) + rest);
  }

  /** Every song page, whatever its title and cover URL hold (quotes and
      newlines included), carries its five tag lines at an offset that does
      not depend on the song, each interpolating its value verbatim. */
  lemma SongPageTagLines(song: Song, indexHtml: string)
    ensures var page := SongPage(song, indexHtml);
      var k := |Lines(FixedHeadLines(SONG_LAYOUT))|;
      var t := Lines([
        Spaces(10) + MetaTag(Meta(OG_TITLE, song.title)),
        Spaces(10) + MetaTag(Meta(OG_DESCRIPTION, Description(song.title))),
        Spaces(10) + MetaTag(Meta(OG_IMAGE, song.coverUrl)),
        Spaces(10) + MetaTag(Meta(OG_IMAGE_WIDTH, IMAGE_WIDTH)),
        Spaces(10) + MetaTag(Meta(OG_IMAGE_HEIGHT, IMAGE_HEIGHT))]);
      k + |t| <= |page| && page[k..k + |t|] == t
  {
    var tags := SongTags(song);
    assert tags == [tags[0], tags[1], tags[2], tags[3], tags[4]];
    FivePageTagLines(SONG_LAYOUT, tags[0], tags[1], tags[2], tags[3], tags[4], indexHtml);
  }

  /** The same for the fallback page, whose three tag lines are fixed. */
  lemma NotFoundPageTagLines(indexHtml: string)
    ensures var page := NotFoundPage(indexHtml);
      var k := |Lines(FixedHeadLines(NOT_FOUND_LAYOUT))|;
      var t := Lines([
        Spaces(12) + MetaTag(Meta(OG_TITLE, NOT_FOUND_TITLE)),
        Spaces(12) + MetaTag(Meta(OG_DESCRIPTION, NOT_FOUND_DESCRIPTION)),
        Spaces(12) + MetaTag(Meta(OG_IMAGE, DEFAULT_IMAGE))]);
      k + |t| <= |page| && page[k..k + |t|] == t
  {
    var tags := NOT_FOUND_TAGS;
    assert tags == [tags[0], tags[1], tags[2]];
    ThreePageTagLines(NOT_FOUND_LAYOUT, tags[0], tags[1], tags[2], indexHtml);
  }

  lemma FivePageTagLines(layout: Layout, a: Meta, b: Meta, c: Meta, d: Meta, e: Meta, indexHtml: string)
    ensures var page := Page(layout, [a, b, c, d, e], indexHtml);
      var k := |Lines(FixedHeadLines(layout))|;
      var n := layout.margin + 6;
      var t := Lines([Spaces(n) + MetaTag(a), Spaces(n) + MetaTag(b), Spaces(n) + MetaTag(c),
        Spaces(n) + MetaTag(d), Spaces(n) + MetaTag(e)]);
      k + |t| <= |page| && page[k..k + |t|] == t
  {
    TagTextAt(layout, [a, b, c, d, e], indexHtml);
    FiveTagLines(layout.margin + 6, a, b, c, d, e);
  }

  lemma ThreePageTagLines(layout: Layout, a: Meta, b: Meta, c: Meta, indexHtml: string)
    ensures var page := Page(layout, [a, b, c], indexHtml);
      var k := |Lines(FixedHeadLines(layout))|;
      var n := layout.margin + 6;
      var t := Lines([Spaces(n) + MetaTag(a), Spaces(n) + MetaTag(b), Spaces(n) + MetaTag(c)]);
      k + |t| <= |page| && page[k..k + |t|] == t
  {
    TagTextAt(layout, [a, b, c], indexHtml);
    ThreeTagLines(layout.margin + 6, a, b, c);
  }

  lemma FiveTagLines(indent: nat, a: Meta, b: Meta, c: Meta, d: Meta, e: Meta)
    ensures TagLines(indent, [a, b, c, d, e]) == [
      Spaces(indent) + MetaTag(a), Spaces(indent) + MetaTag(b), Spaces(indent) + MetaTag(c),
      Spaces(indent) + MetaTag(d), Spaces(indent) + MetaTag(e)]
  {
    TagLinesEach(indent, [a, b, c, d, e]);
  }

  lemma ThreeTagLines(indent: nat, a: Meta, b: Meta, c: Meta)
    ensures TagLines(indent, [a, b, c]) == [Spaces(indent) + MetaTag(a), Spaces(indent) + MetaTag(b), Spaces(indent) + MetaTag(c)]
  {
    TagLinesEach(indent, [a, b, c]);
  }
}

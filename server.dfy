/** The two routes of the Express server (server.js lines 29-91 and 97-99),
    as functions of what their I/O produced.

    The share route looks up the `beats` document whose id is the slug's key,
    then reads the React build's `index.html`, and answers with one of the two
    pages of `OgPage` or with a 500. The Firestore lookup and the file read are
    parameters: `lookup` says what `doc(key).get()` gave for each key, and
    `indexFile` is the file's text, or `None` when reading it threw. */
module Server {
  import opened Wrappers
  import opened Strings
  import opened Slug
  import opened OgPage

  /** What `db.collection("beats").doc(key).get()` gave: a document (its data
      carries the title and cover URL), no document, or an exception. */
  datatype Lookup = Found(song: Song) | Absent | Failed

  /** A status code and the body `res.send` wrote. */
  datatype Response = Response(status: int, body: string)

  const OK := 200
  const INTERNAL_SERVER_ERROR := 500
  const ERROR_BODY := "Internal Server Error"

  /** The `catch` branch: whatever threw inside the `try`. */
  const SERVER_ERROR := Response(INTERNAL_SERVER_ERROR, ERROR_BODY)

  /** `GET /addToCart/:slugId`. Both I/O steps sit in one `try`, so a failure of
      either gives the same 500; otherwise the page depends on whether the
      document exists. */
  function AddToCart(slugId: string, lookup: string -> Lookup, indexFile: Option<string>): (r: Response)
    ensures r.status == OK || r.status == INTERNAL_SERVER_ERROR
    ensures r.status == INTERNAL_SERVER_ERROR <==> lookup(ExtractKey(slugId)).Failed? || indexFile.None?
    ensures r.status == INTERNAL_SERVER_ERROR ==> r.body == ERROR_BODY
  {
    var key := ExtractKey(slugId);
    match lookup(key)
    case Failed => SERVER_ERROR
    case Absent =>
      (match indexFile
       case None => SERVER_ERROR
       case Some(indexHtml) => Response(OK, NotFoundPage(indexHtml)))
    case Found(song) =>
      (match indexFile
       case None => SERVER_ERROR
       case Some(indexHtml) => Response(OK, SongPage(song, indexHtml)))
  }

  /** `GET *`: the index file as it is. */
  function CatchAll(indexHtml: string): (r: Response)
    ensures r.status == OK && r.body == indexHtml
  {
    Response(OK, indexHtml)
  }

  /** Only the key reaches the lookup: two requests whose slugs have the same key
      and whose lookups agree on it get the same response. */
  lemma OnlyKeyMatters(slug1: string, lookup1: string -> Lookup, slug2: string, lookup2: string -> Lookup,
                       indexFile: Option<string>)
    requires ExtractKey(slug1) == ExtractKey(slug2)
    requires lookup1(ExtractKey(slug1)) == lookup2(ExtractKey(slug2))
    ensures AddToCart(slug1, lookup1, indexFile) == AddToCart(slug2, lookup2, indexFile)
  {
  }

  /** The readable part of a share link is decoration: it can be dropped
      without changing the response. */
  lemma TitleInSlugIgnored(title: string, key: string, lookup: string -> Lookup, indexFile: Option<string>)
    requires DELIMITER !in key
    ensures AddToCart(title + [DELIMITER] + key, lookup, indexFile) == AddToCart(key, lookup, indexFile)
  {
    KeyAfterLastDash(title, key);
    TrailingComponentIsKey(key, key);
  }

  /** The fallback page depends on `index.html` alone, never on the slug or the key. */
  lemma NotFoundIndependentOfSlug(slug1: string, lookup1: string -> Lookup, slug2: string, lookup2: string -> Lookup,
                                  indexHtml: string)
    requires lookup1(ExtractKey(slug1)).Absent? && lookup2(ExtractKey(slug2)).Absent?
    ensures AddToCart(slug1, lookup1, Some(indexHtml)) == AddToCart(slug2, lookup2, Some(indexHtml))
    ensures AddToCart(slug1, lookup1, Some(indexHtml)).status == OK
  {
  }

  /** With no document, the page carries exactly the fallback tags. */
  lemma AbsentTags(slugId: string, lookup: string -> Lookup, indexHtml: string)
    requires lookup(ExtractKey(slugId)).Absent?
    ensures var r := AddToCart(slugId, lookup, Some(indexHtml));
      && r.status == OK
      && ReadOgTags(r.body) == [
        Meta(OG_TITLE, NOT_FOUND_TITLE),
        Meta(OG_DESCRIPTION, NOT_FOUND_DESCRIPTION),
        Meta(OG_IMAGE, DEFAULT_IMAGE)]
  {
    NotFoundPageTags(indexHtml);
  }

  /** With a document, the tags carry its title, a description built from the
      title, its cover URL, and the fixed image size, provided neither field
      holds a quote or a newline (nothing is escaped). */
  lemma FoundTags(slugId: string, lookup: string -> Lookup, song: Song, indexHtml: string)
    requires lookup(ExtractKey(slugId)) == Found(song)
    requires Plain(song.title) && Plain(song.coverUrl)
    ensures var r := AddToCart(slugId, lookup, Some(indexHtml));
      && r.status == OK
      && ReadOgTags(r.body) == [
        Meta(OG_TITLE, song.title),
        Meta(OG_DESCRIPTION, BUY_PREFIX + song.title + BUY_SUFFIX),
        Meta(OG_IMAGE, song.coverUrl),
        Meta(OG_IMAGE_WIDTH, IMAGE_WIDTH),
        Meta(OG_IMAGE_HEIGHT, IMAGE_HEIGHT)]
  {
    SongPageTags(song, indexHtml);
  }

  /** Every successful share page holds the document the catch-all route
      serves, unchanged, inside `<body>`. */
  lemma SharePageEmbedsIndex(slugId: string, lookup: string -> Lookup, indexHtml: string)
    ensures var r := AddToCart(slugId, lookup, Some(indexHtml));
      r.status == OK ==> exists margin: nat, k: nat :: EmbeddedAt(r.body, k, CatchAll(indexHtml).body, margin)
  {
    var r := AddToCart(slugId, lookup, Some(indexHtml));
    assert CatchAll(indexHtml).body == indexHtml;
    match lookup(ExtractKey(slugId))
    case Failed =>
    case Absent =>
      var k := |Opening(NOT_FOUND_LAYOUT, NOT_FOUND_TAGS)|;
      IndexEmbeddedVerbatim(NOT_FOUND_LAYOUT, NOT_FOUND_TAGS, indexHtml);
      assert r.body == NotFoundPage(indexHtml);
      assert EmbeddedAt(r.body, k, CatchAll(indexHtml).body, NOT_FOUND_LAYOUT.margin);
    case Found(song) =>
      var k := |Opening(SONG_LAYOUT, SongTags(song))|;
      IndexEmbeddedVerbatim(SONG_LAYOUT, SongTags(song), indexHtml);
      assert r.body == SongPage(song, indexHtml);
      assert EmbeddedAt(r.body, k, CatchAll(indexHtml).body, SONG_LAYOUT.margin);
  }

  lemma ErrorBodyHasNoMarkup()
    ensures '<' !in ERROR_BODY
  {
  }

  /** A failure sends no HTML at all: no markup and no tags. */
  lemma FailureHasNoTags(slugId: string, lookup: string -> Lookup, indexFile: Option<string>)
    requires lookup(ExtractKey(slugId)).Failed? || indexFile.None?
    ensures var r := AddToCart(slugId, lookup, indexFile);
      && r == Response(INTERNAL_SERVER_ERROR, ERROR_BODY)
      && '<' !in r.body
      && ReadOgTags(r.body) == []
  {
    ErrorBodyHasNoMarkup();
    NoMarkupNoTags(ERROR_BODY);
  }
}

# UrBeatHub share-link server, modelled in Dafny

The server is a small Express application in front of the UrBeatHub React build.
Its one piece of logic is the share route `GET /addToCart/:slugId`. A share link
looks like `/addToCart/my-beat-title-abc123`. The route takes the piece after the
last `-` (`abc123`) as the id of a Firestore `beats` document. It then reads the
build's `index.html`. It answers with a complete HTML page whose head carries
Open Graph `<meta>` tags, so that link previews show the beat, and whose body is
the React app. If no document has that id, the page carries fixed fallback tags.
If the lookup or the file read throws, it answers 500 with the body
`Internal Server Error`. Every other `GET` gets `index.html` as it is; this
assumes that the catch-all pattern `*` matches every path, as it does in Express 4.

The model is pure: datatypes, functions and lemmas.

- `Wrappers` holds `Option`.
- `Strings` holds JavaScript's `split` with a one-character separator, which keeps empty pieces and turns `""` into `[""]`. It also holds its inverse `Join` and small scanners.
- `Slug` extracts the document id from the slug.
- `OgPage` builds the two template literals character for character, including their indentation and blank lines. It also defines `ReadOgTags`, an independent line-oriented reader of the emitted head that recovers the tags. The page lemmas relate each page to what this reader finds.
- `Server` holds the two routes. The Firestore lookup and the file read are parameters.

## Model

| member | source | states |
|---|---|---|
| Strings.Split | server.js:33 | any split has at least one piece, as for JavaScript's `split` |
| Strings.SplitPiecesLackSeparator | server.js:33 | no piece of a split contains the separator |
| Strings.JoinSplit | server.js:33 | joining the pieces with the separator gives back the original string |
| Strings.SplitJoin | server.js:33 | splitting a join of separator-free pieces gives back the pieces |
| Strings.SplitAround | server.js:33 | splitting distributes over a separator between two strings |
| Strings.SplitLast | server.js:33-34 | the last piece is a separator-free suffix; it is the whole string exactly when there is no separator, and otherwise a separator stands right before it |
| Slug.ExtractKey | server.js:33-34 | the id holds no `-`, is a suffix of the slug, is the whole slug when it has no `-`, and otherwise follows a `-` |
| Slug.TrailingComponentIsKey | server.js:33-34 | a string is the extracted id if and only if it is a dash-free suffix that is the whole slug or follows a `-` |
| Slug.ExtractKeyIdempotent | server.js:33-34 | extracting the id of an id changes nothing |
| Slug.EmptyKey | server.js:33-37 | the id is empty exactly when the slug is empty or ends with `-`, and it is used for the lookup anyway |
| Slug.KeyAfterLastDash | server.js:33-34 | whatever title precedes the last `-`, the id is what follows it |
| Slug.ExampleWithTitle | server.js:32-34 | `my-beat-title-abc123` gives `abc123` |
| Slug.ExampleTrailingDash | server.js:33-34 | `abc-` gives the empty id |
| OgPage.MetaTag | server.js:56-58 | a tag is the fixed markup with the property and the content standing verbatim at fixed offsets; nothing is escaped |
| OgPage.Description | server.js:76 | the description has the title verbatim between "Buy & download " and " on UrBeatHub" |
| OgPage.SongTags | server.js:75-79 | the five tags of a found document; their properties are stated by OgPage.SongPageTags and OgPage.SongPageTagLines |
| OgPage.Page | server.js:49-86 | one template literal around its tags and `index.html`; its properties are stated by OgPage.PageReadBack, OgPage.TagTextAt and OgPage.IndexEmbeddedVerbatim |
| OgPage.NotFoundPage | server.js:49-64 | the fallback page holds `index.html` verbatim right after the `<body>` line and right before `</body>` |
| OgPage.SongPage | server.js:68-86 | the song page holds `index.html` verbatim right after the `<body>` line and right before `</body>` |
| OgPage.TagLinesEach | server.js:56-58 | there is one tag line per tag, each its indentation followed by the tag as written |
| OgPage.TagTextAt | server.js:49-86 | in every page the tag lines stand right after the fixed head lines, whatever the values hold |
| OgPage.SongPageTagLines | server.js:75-79 | for every song, quotes and newlines included, the page holds its five tag lines with the title, the description, the cover URL and the image size verbatim, at an offset that does not depend on the song |
| OgPage.NotFoundPageTagLines | server.js:56-58 | the fallback page holds its three fixed tag lines at a fixed offset |
| OgPage.ReadMetaTag | server.js:56-58 | whatever the tag reader returns has quote-free values |
| OgPage.ReadMetaTagSound | server.js:56-58 | whatever the reader accepts is exactly the tag text the template writes for the values it returns |
| OgPage.MetaTagRoundTrip | server.js:75-79 | a `<meta property=".." content=".." />` tag with quote-free values reads back as itself |
| OgPage.UnescapedQuoteBreaksTag | server.js:75-77 | as values are interpolated unescaped, a content holding `"` never reads back as the tag meant |
| OgPage.PageReadBack | server.js:49-86 | the reader recovers exactly the tags a page was built with, in order, whatever `index.html` holds, when no value holds a quote or a newline |
| OgPage.NotFoundPageTags | server.js:49-64 | the fallback page carries exactly `og:title` "Beat Not Found", `og:description` "This beat may have been removed." and `og:image` the default image |
| OgPage.SongPageTags | server.js:68-86 | the song page carries the title, "Buy & download {title} on UrBeatHub", the cover URL and the image size 1200 by 630, in that order |
| OgPage.ReadOgTagsAreQuoteFree | server.js:75-77 | no page yields a tag value holding `"` |
| OgPage.QuotedTitleIsNotRecovered | server.js:75-76 | a title holding `"` makes the song page's tags unrecoverable |
| OgPage.NoMarkupNoTags | server.js:89 | text without `<` yields no tags, however it splits into lines |
| OgPage.IndexEmbeddedVerbatim | server.js:59-63 | `index.html` stands unchanged right after the `<body>` line and right before `</body>`, and removing it leaves the same page built around an empty file |
| Server.AddToCart | server.js:29-91 | the status is 200 or 500; it is 500 exactly when the lookup threw or the file could not be read, and then the body is "Internal Server Error" |
| Server.CatchAll | server.js:97-99 | every other path answers 200 with `index.html` as it is |
| Server.OnlyKeyMatters | server.js:33-38 | only the extracted id reaches the lookup: slugs with the same id give the same response |
| Server.TitleInSlugIgnored | server.js:32-34 | prefixing an id with a title and a `-` does not change the response |
| Server.NotFoundIndependentOfSlug | server.js:47-64 | when no document exists, the 200 page depends on `index.html` alone |
| Server.AbsentTags | server.js:48-64 | with no document the response is 200 with exactly the three fallback tags |
| Server.FoundTags | server.js:67-86 | with a document the response is 200 with the five tags built from its title and cover URL |
| Server.SharePageEmbedsIndex | server.js:61-83 | every 200 share page holds, unchanged inside `<body>`, the document the catch-all route serves |
| Server.FailureHasNoTags | server.js:87-90 | a failure answers 500 with "Internal Server Error", which has no markup and no tags |

## Left out

- Firebase Admin initialisation, the service-account file and `dotenv` (server.js:4-17): configuration with no logic of its own.
- The prerender middleware and `express.static` (server.js:20-23): both are third-party middleware. Requests they answer never reach the modelled routes.
- The Firestore call (server.js:37-39) is a parameter `lookup`. `Found`, `Absent` and `Failed` stand for a document, no document and an exception. So Firestore's own rejection of ids, such as the empty id or one holding `/`, is a `Failed` from the lookup and is not decided by the model.
- `fs.readFileSync` (server.js:42-45) is a parameter `indexFile`; `None` stands for any read failure. The model does not decode UTF-8; the file is its text.
- `res.sendFile` in the catch-all route (server.js:98): the model returns the file's text. The error Express raises when the file is missing is not modelled.
- `console.error` (server.js:88) and `app.listen` with its port (server.js:103-104): I/O only.
- Routing, percent-decoding of `:slugId` and the `async` sequencing are left to Express. The slug arrives as a decoded string.
- Response headers such as `Content-Type`, which `res.send` sets, are not modelled. A response is a status and a body.
- Request headers are not inputs of the model. `res.send` sets an ETag and answers a matching `If-None-Match` with 304 and an empty body, and `res.sendFile` (server.js:98) can also answer 304, 206 or 416 for conditional and range requests. So Server.AddToCart's "200 or 500" and Server.CatchAll's "200" hold for requests without such headers.
- Route registration: under the path syntax of Express 5, a bare `*` as at server.js:97 is refused when the route is registered. The model assumes Express 4 matching, where `*` matches every path.
- JavaScript's coercion of a missing `title` or `coverUrl` to the text `undefined` is not modelled. A found document always has both as strings.
- Server.FoundTags: requires a title and cover URL without `"` or newline. The `"` limit comes from the server: nothing is escaped, so a quote ends the attribute early (OgPage.QuotedTitleIsNotRecovered). The newline limit comes from the model's reader, not from the server: a newline inside a quoted attribute is valid HTML, but `ReadOgTags` reads one tag per line. OgPage.SongPageTagLines states without any requirement that every value stands verbatim in its tag line.
- OgPage.SongPageTags: the same two limits, for the same two reasons; OgPage.UnescapedQuoteBreaksTag shows the first for a single tag.
- OgPage.PageReadBack: requires every tag value to be free of `"` (no escaping in the server) and of newlines (the line-based reader); OgPage.TagTextAt holds for all values.

Facts about the code that the model keeps as they are:

- The code escapes no value before interpolating it.
- It emits no `og:url` and no `og:type` tag.
- The description is "Buy & download {title} on UrBeatHub".
- `index.html` is placed inside `<body>`, not into the head.
- It sets no cache header.
- It looks up an empty id like any other.

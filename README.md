# Atom feed builder of the fider global feed

This project models, in Dafny, the part of fider's `GlobalFeed` handler that
turns the tenant's posts into an Atom 1.0 document (RFC 4287): the feed-level
fields and the two feed links, the feed's `updated` instant (the latest post
creation or response time, starting from the Unix epoch), one entry per post in
input order with its id, dates, author, html summary and self/alternate links,
and the response body made of the XML declaration line followed by the
marshalled feed.

Files:

- `wrappers.dfy` — `Option` (Go's nil pointers) and `Result` (Go's error returns).
- `decimal.dfy` — module `Decimal`: the `%d` rendering of post identifiers used
  in entry ids and links, a parser for it, and the round trip that makes the
  rendering injective.
- `feed.dfy` — module `Handlers`: the Atom data types, the per-post entry
  literal, the feed-building method with its scan of the posts, and the body
  rendering.

Modelling choices:

- A `time.Time` is an integer instant (`Timestamp`), the epoch is `0`, and
  `After` is strict `>`. `formatTime` is a parameter of type
  `Timestamp -> string`; properties that need it to be non-empty (as Go's
  layout `2006-01-02T15:04:05-07:00` always is) say so in a `requires`.
- `xml.MarshalIndent` is a parameter `AtomFeed -> Result<string, string>`.
- The tenant (name, welcome message) and the base URL are parameters; the post
  list is handed in already resolved.
- The Go code fills a local `*AtomFeed` step by step: `BuildFeed` keeps that
  shape, a loop that advances the `lastUpdate` accumulator with the two `if`s
  of the Go code and appends one entry per post, then assigns `updated` after
  the loop. The feed is a datatype value updated with `.(field := …)`, since no
  other code shares the struct.
- An entry without a response has `updated` set to the empty string, which
  the `omitempty` tag drops, rather than a separate presence flag. The feed's
  `subtitle` keeps an empty `type` attribute rather than `"text"`.

## Model

| member | source | states |
|---|---|---|
| `Handlers.BuildFeed` | app/handlers/feed.go:75-113 | The feed's title is the tenant name, its id the base URL, its subtitle the welcome message with an empty type, its author nil, and its links exactly [self `{base}/feed.atom` typed `application/atom+xml`, alternate `{base}` typed `text/html`], whatever the posts; it has exactly one entry per post, the i-th being the entry of the i-th post (same order); its `updated` is `formatTime` of the latest of the epoch, every creation time and every response time; with no posts the entries are empty and `updated` is the formatted epoch |
| `Handlers.LastUpdateIsLatest` | app/handlers/feed.go:86-93 | The scan that starts at the epoch and keeps the later of the accumulator and each creation time, then each response time, ends on the maximum of the epoch, every `CreatedAt` and every present `RespondedAt`: it is one of those instants and no smaller than any of them |
| `Handlers.LatestIsLastUpdate` | app/handlers/feed.go:86-93 | That maximum is unique: any instant that is the latest of the epoch and the posts' instants is the scan's result |
| `Handlers.LastUpdateIgnoresOrder` | app/handlers/feed.go:86-93 | Reordering the posts does not change the feed's `updated` |
| `Handlers.EntryForShape` | app/handlers/feed.go:95-111 | An entry carries the post's title, author name and description verbatim, `published` is the formatted creation time, it has one author, an `html` summary and no content, and exactly two links: self to `{base}/feed/posts/{id}.atom` typed `application/atom+xml`, then alternate typed `text/html` whose href equals the entry id; the entry id is exactly `{base}/posts/{id}`, and the post identifier can be read back from it |
| `Handlers.EntryUpdatedPresence` | app/handlers/feed.go:99-104 | For a formatter that never yields the empty string, an entry's `updated` is empty exactly when the post has no response, and otherwise is the formatted response time |
| `Handlers.EntryIdsIdentifyPosts` | app/handlers/feed.go:106 | Two entries have the same id if and only if their posts have the same identifier, so posts with distinct identifiers get distinct Atom ids |
| `Handlers.Document` | app/handlers/feed.go:115-119 | The body is produced exactly when marshalling succeeds; a marshalling failure is passed on as a serialization error carrying the marshaller's cause |
| `Handlers.DocumentRoundTrip` | app/handlers/feed.go:119 | A successful body is the line `<?xml version="1.0" encoding="utf-8"?>` and a newline followed by exactly the marshalled feed: stripping the declaration gives the marshaller's output back |
| `Decimal.NatDigits` | app/handlers/feed.go:106 | The decimal digits of a natural number are a non-empty string of digits with a leading zero only for zero |
| `Decimal.Decimal` | app/handlers/feed.go:106-109 | The `%d` rendering of an identifier is non-empty, starts with a minus sign exactly for negative numbers, and is digits after its first character |
| `Decimal.ParseNatDigits` | app/handlers/feed.go:106 | Reading back the digits of a natural number gives the number |
| `Decimal.DecimalRoundTrip` | app/handlers/feed.go:106 | Reading back the `%d` rendering of any integer gives the integer |
| `Decimal.DecimalInjective` | app/handlers/feed.go:106-109 | Two integers render to the same text if and only if they are equal |

## Left out

- HTTP plumbing: reading the `query` and `tags` parameters, building and
  dispatching the post search with its fixed limit of 30, the failure reply when
  the search fails, and writing the body with status 200 and content type
  `application/atom+xml` (app/handlers/feed.go:64-73, 116-121). The builder
  receives the resolved posts, tenant and base URL as parameters.
- XML marshalling: element order, struct-tag semantics (`omitempty`, `attr`,
  `chardata`, `innerxml`, the Atom namespace on the root), escaping and
  indentation belong to Go's `encoding/xml` and are the `marshal` parameter.
- Time rendering and time zones: `time.Time.Format` with the RFC 3339 layout is
  the `formatTime` parameter. The location attached to a `time.Time` (the epoch
  sentinel is in local time) is not modelled, so two equal instants in
  different zones are not told apart.
- Go integer widths: post identifiers are unbounded integers; every Go `int`
  value is one of them and renders the same way.
- Pointers and nil slices: `*Author`, `*Content` are `Option` values and
  `[]*Entry` is a sequence of values; aliasing between entries and the
  difference between a nil and an empty slice are not modelled (neither is
  observable in the output).
- `Author.Uri`, `Author.Email`, `Author.InnerXML` and the link attributes
  `hreflang`, `title` and `length` are never set by the builder; the model keeps
  them at their empty values.

# euraxess-mcp feed normalisation, in Dafny

This project models the one piece of logic in the EURAXESS connector that
goes beyond library calls. It takes the job-feed RSS document, as xmltodict
has already turned it into nested dictionaries, and normalises every `<item>`
into a fixed job record. It also covers how the `list_jobs` route truncates
those records to the client's `limit` and reports their `count`.

- `wrappers.dfy`: module `Wrappers`. `Option`, standing for Python's `Optional`.
- `xml_tree.dfy`: module `XmlTree`. The xmltodict tree (`Node`: text, dictionary,
  list, or `None` for an empty element), plus the Python operations the code uses on it:
  `dict.get` with and without a default, and truthiness.
- `euraxess_mcp.dfy`: module `Euraxess`. The `JobItem` record, `_parse_item`
  (`ParseItem`), the item extraction of `parse_rss_text_to_items` (`ItemList`,
  `ParseAll`, `ParseRssItems`), the slice of `list_jobs` (`ListJobs`, `ListFeed`),
  and lemmas relating them.

The permissive date parser and the date formatter belong to the `dateutil`
and `datetime` libraries. They are passed in as a `DateLib<D>` of two total
functions. `parse` is absent wherever `dateutil.parser.parse` raises, and
`isoformat` is `date.isoformat`. Every result holds for every such pair of
functions.

Two facts about the code shape the model:
- A feed body that is not XML makes xmltodict raise. The code does not catch it (lines 48 and 65), and the model has no such case.
- `source_ref` falls back to `link` whenever `guid` is falsy, so an empty `guid` falls through (line 35).

## Model

| member | source | states |
|---|---|---|
| `Euraxess.ParseItem` | euraxess/app/euraxess_mcp.py:26-44 | `source` is always `"euraxess"`. `url` and `title` are the item's `link` and `title` text, absent when the key is missing or `None`. `source_ref` is a non-empty `guid` when there is one, and otherwise falls back to `url`. `description_raw` is never absent: it is a non-empty `description`, otherwise `""`. `posted_date` is present exactly when `pubDate` is non-empty text that the parser accepts, and is then its ISO date. `raw` is the input item, unchanged. |
| `Euraxess.PostedDate` | euraxess/app/euraxess_mcp.py:30-34 | The date is present exactly when `pubDate` is non-empty text and the parser accepts it; the value is then the ISO form of the parsed date. A missing, `None` or empty `pubDate`, a non-string one (the parser raises, and the exception is caught) and a parse failure all give absence. It is total, so the date never makes normalisation fail. |
| `Euraxess.ItemList` | euraxess/app/euraxess_mcp.py:49-51 | A missing `rss`, `channel` or `item` key gives no items. A lone item dictionary becomes a one-element list. A list of items is kept as it is, and every element is an accepted item. |
| `Euraxess.ParseAll` | euraxess/app/euraxess_mcp.py:52 | Exactly one record per item, in feed order: record `i` is the normalisation of item `i`. |
| `Euraxess.ParseRssItems` | euraxess/app/euraxess_mcp.py:47-53 | A missing `rss`, `channel` or `item` gives `[]`. A lone item dictionary gives exactly its one record. A list of N items gives N records, record `i` being the normalisation of item `i`. Every record has the constant `source` and keeps its `raw` item. |
| `Euraxess.ListJobs` | euraxess/app/euraxess_mcp.py:56-66 | `count` equals the number of jobs returned, and the jobs are exactly the first `count` records. For `limit >= 0`, `count` is `min(limit, N)`. For a negative `limit` (possible only through an unchecked configured default), Python's slice drops the last `-limit` records, so `count` is `max(0, N + limit)`. |
| `Euraxess.ListFeed` | euraxess/app/euraxess_mcp.py:65-66 | For a feed document, `count` is bounded by the number of items. It is `min(limit, N)` for `limit >= 0`, and `max(0, N + limit)` for a negative `limit`. Job `i` is the normalisation of the feed's item `i`. |
| `Euraxess.ListFeedIsPrefix` | euraxess/app/euraxess_mcp.py:65-66 | For every `limit`, normalising and then slicing with `[:limit]` equals normalising only the sliced items. |
| `Euraxess.ParseAllAppend` | euraxess/app/euraxess_mcp.py:52 | Normalisation distributes over concatenating item lists, so it works item by item and keeps order. |
| `Euraxess.LoneItemSameAsSingletonList` | euraxess/app/euraxess_mcp.py:50-51 | A channel whose `item` is a single dictionary gives the same records as the same channel whose `item` is a one-element list holding it. Both give the one record of that item. |
| `Euraxess.SourceRefAbsent` | euraxess/app/euraxess_mcp.py:35 | `source_ref` is absent exactly when there is no non-empty `guid` and no `link` text. |
| `Euraxess.ParseItemReadsOnlyFields` | euraxess/app/euraxess_mcp.py:27-43 | Two items that agree on `title`, `link`, `description`, `pubDate` and `guid` give the same record in every field except `raw`. No other key is derived into the record. |
| `Euraxess.AnyPubDateAccepted` | euraxess/app/euraxess_mcp.py:30-34 | Any value of `pubDate` leaves the item acceptable. Changing it can change only `posted_date` and `raw`. |

## Assumptions on the input shape

Some input shapes make the Python code raise, and the model excludes them by a
precondition rather than inventing a behaviour:
- `Handled`: `rss` and `channel`, where present, are dictionaries, and `item` is a dictionary or a list of dictionaries.
  A `None` or text `channel`, or an `item` that is `None`, makes the `.get` chain
  or `_parse_item` raise.
- `WellFormedItem`: `title` and `link` hold text or `None`. `description` and
  `guid` hold text or any false value, because `or` replaces those. Anything
  else there, for example a `guid` with attributes, is rejected by the record's
  pydantic validation. `pubDate` is unconstrained.

## Left out

- Parsing the feed text into the tree (`xmltodict.parse`) is a library call. The model starts from its output. A body that is not XML raises in that library, and nothing in the code handles it.
- Date parsing and ISO formatting are library behaviour. They appear only as the abstract `DateLib` parameter.
- The `lru_cache` memoisation of `parse_rss_text_to_items` cannot be observed in its results, and the model's functions are deterministic by construction.
- `ListJobs`: the `Query` validation of `limit` is not modelled. It applies only to a limit the client supplies, while the configured default is used unchecked, so the model takes every integer `limit`.
- Date parsing and the clock: `dateutil.parser.parse` fills missing date parts from today's date, so the real parser depends on the clock. The model fixes one `DateLib.parse` for each call.
- Key order: `raw` is a Dafny `map`, which has no key order. The JSON output keeps the item's key order, and the model does not capture it.
- The HTTP routes, the httpx fetches with their timeout, `raise_for_status` and the 502 mapping, and the raw-page fetch of `get_job`: these are network I/O.
- `health` and `meta` return constant payloads with no logic.
- Environment configuration (`EURAXESS_RSS`, `DEFAULT_LIMIT`) and logging.
- Pydantic validation of well-formed values and the `.dict()` serialisation of each record. Records are kept as Dafny values.

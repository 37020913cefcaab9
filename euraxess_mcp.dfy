/**
 * The EURAXESS feed connector's normalisation of RSS items into job records,
 * working on the tree that xmltodict produces for the fetched feed text.
 */
module Euraxess {
  import opened Wrappers
  import opened XmlTree

  /** The constant that tags every record with the feed it came from. */
  const Source: string := "euraxess"

  /** One normalised feed entry, with the optional fields of the record schema. */
  datatype JobItem = JobItem(
    source: string,
    sourceRef: Option<string>,
    url: Option<string>,
    title: Option<string>,
    descriptionRaw: Option<string>,
    postedDate: Option<string>,
    raw: Option<map<string, Node>>)

  /**
   * The permissive date parser and the ISO formatter, which are library code:
   * `parse(s)` is `dateutil.parser.parse(s).date()`, absent wherever that call
   * raises; `isoformat` is `date.isoformat()`.
   */
  datatype DateLib<!D> = DateLib(parse: string -> Option<D>, isoformat: D -> string)

  /** A looked-up value that the record can hold as an optional string: missing, `None` or text. */
  predicate IsText(v: Option<Node>) {
    v.None? || v.value.Null? || v.value.Str?
  }

  /**
   * A looked-up value that `v or default` turns into an optional string:
   * text, or any false value (missing, `None`, `""`, `{}`, `[]`), which the
   * `or` replaces by its default.
   */
  predicate FalsyOrText(v: Option<Node>) {
    !TruthyGot(v) || v.value.Str?
  }

  /**
   * An item that the record schema accepts: `title` and `link`, copied as
   * they are into string fields of the record, hold text or nothing, and
   * `description` and `guid`, which pass through `or`, hold text or a false
   * value. Anything else there is rejected by the record's validation;
   * `pubDate` may hold anything.
   */
  predicate WellFormedItem(item: map<string, Node>) {
    && IsText(Get(item, "title"))
    && IsText(Get(item, "link"))
    && FalsyOrText(Get(item, "description"))
    && FalsyOrText(Get(item, "guid"))
  }

  /** The key `key` of `item` holds the non-empty text `s`. */
  predicate HasText(item: map<string, Node>, key: string, s: string) {
    key in item && item[key] == Str(s) && s != ""
  }

  /** The string an accepted field value stands for: absent for a missing key or `None`. */
  function Text(v: Option<Node>): (r: Option<string>)
    requires IsText(v)
    ensures r.Some? <==> v.Some? && v.value.Str?
    ensures r.Some? ==> v.value == Str(r.value)
  {
    if v.Some? && v.value.Str? then Some(v.value.s) else None
  }

  /** Python's `v or default` on an accepted field value. */
  function TextOr(v: Option<Node>, default: string): (r: string)
    requires FalsyOrText(v)
  {
    if TruthyGot(v) then v.value.s else default
  }

  /**
   * The posted date: the ISO date of `pubDate` when it is truthy and parses;
   * absent otherwise. A non-string `pubDate` makes the parser raise, and the
   * exception is caught, so no value of `pubDate` makes this fail.
   */
  function PostedDate<D>(pubDate: Option<Node>, lib: DateLib<D>): (r: Option<string>)
    ensures r.Some? <==>
      pubDate.Some? && pubDate.value.Str? && pubDate.value.s != ""
      && lib.parse(pubDate.value.s).Some?
    ensures r.Some? ==> r.value == lib.isoformat(lib.parse(pubDate.value.s).value)
  {
    if !TruthyGot(pubDate) then None
    else match pubDate.value
      case Str(s) =>
        (match lib.parse(s)
         case Some(d) => Some(lib.isoformat(d))
         case None => None)
      case _ => None
  }

  /** `_parse_item`: one feed item mapped to the fixed record. */
  function ParseItem<D>(item: map<string, Node>, lib: DateLib<D>): (r: JobItem)
    requires WellFormedItem(item)
    ensures r.source == "euraxess"
    ensures r.url == (if "link" in item && item["link"].Str? then Some(item["link"].s) else None)
    ensures r.title == (if "title" in item && item["title"].Str? then Some(item["title"].s) else None)
    ensures forall g :: HasText(item, "guid", g) ==> r.sourceRef == Some(g)
    ensures ("guid" !in item || !Truthy(item["guid"])) ==> r.sourceRef == r.url
    ensures r.descriptionRaw.Some?
    ensures forall d :: HasText(item, "description", d) ==> r.descriptionRaw == Some(d)
    ensures ("description" !in item || !Truthy(item["description"])) ==> r.descriptionRaw == Some("")
    ensures r.postedDate.Some? <==>
      exists p :: HasText(item, "pubDate", p) && lib.parse(p).Some?
    ensures forall p :: HasText(item, "pubDate", p) && lib.parse(p).Some? ==>
      r.postedDate == Some(lib.isoformat(lib.parse(p).value))
    ensures r.raw == Some(item)
  {
    var title := Text(Get(item, "title"));
    var link := Text(Get(item, "link"));
    var desc := TextOr(Get(item, "description"), "");
    var postedDate := PostedDate(Get(item, "pubDate"), lib);
    var guid := Get(item, "guid");
    var sourceRef := if TruthyGot(guid) then Some(guid.value.s) else link;
    JobItem(
      source := Source,
      sourceRef := sourceRef,
      url := link,
      title := title,
      descriptionRaw := Some(desc),
      postedDate := postedDate,
      raw := Some(item))
  }

  /** A node that `_parse_item` can take: a dictionary the record schema accepts. */
  predicate IsItem(n: Node) {
    n.Dict? && WellFormedItem(n.m)
  }

  predicate AllItems(items: seq<Node>) {
    forall i :: 0 <= i < |items| ==> IsItem(items[i])
  }

  /** The `item` value of a channel, in a shape the code handles: one item, or a list of items. */
  predicate ItemsHandled(n: Node) {
    IsItem(n) || (n.List? && AllItems(n.l))
  }

  /**
   * A parsed document the extraction handles: `rss` and `channel`, where
   * present, are dictionaries, and `item`, where present, is handled. Any
   * other shape makes the code raise, so it is excluded here.
   */
  predicate Handled(doc: map<string, Node>) {
    "rss" in doc ==>
      && doc["rss"].Dict?
      && ("channel" in doc["rss"].m ==>
            && doc["rss"].m["channel"].Dict?
            && ("item" in doc["rss"].m["channel"].m ==>
                  ItemsHandled(doc["rss"].m["channel"].m["item"])))
  }

  /** The node at `rss` / `channel` / `item`, absent when any of the three keys is missing. */
  function ItemNode(doc: map<string, Node>): (r: Option<Node>)
    requires Handled(doc)
    ensures r.Some? ==> ItemsHandled(r.value)
  {
    if "rss" in doc && "channel" in doc["rss"].m && "item" in doc["rss"].m["channel"].m
    then Some(doc["rss"].m["channel"].m["item"])
    else None
  }

  /**
   * The list of item nodes of `parse_rss_text_to_items`: the `.get` chain
   * with empty defaults, then a lone dictionary wrapped into a list.
   */
  function ItemList(doc: map<string, Node>): (items: seq<Node>)
    requires Handled(doc)
    ensures AllItems(items)
    ensures ItemNode(doc).None? ==> items == []
    ensures ItemNode(doc).Some? && ItemNode(doc).value.Dict? ==> items == [ItemNode(doc).value]
    ensures ItemNode(doc).Some? && ItemNode(doc).value.List? ==> items == ItemNode(doc).value.l
  {
    var rss := GetOr(doc, "rss", Dict(map[]));
    var channel := GetOr(rss.m, "channel", Dict(map[]));
    var items := GetOr(channel.m, "item", List([]));
    if items.Dict? then [items] else items.l
  }

  /** The list comprehension `[_parse_item(it) for it in items]`: one record per item, in order. */
  function ParseAll<D>(items: seq<Node>, lib: DateLib<D>): (r: seq<JobItem>)
    requires AllItems(items)
    ensures |r| == |items|
    ensures forall i :: 0 <= i < |items| ==> r[i] == ParseItem(items[i].m, lib)
  {
    if items == [] then [] else [ParseItem(items[0].m, lib)] + ParseAll(items[1..], lib)
  }

  /** `parse_rss_text_to_items`, from the tree that xmltodict returns for the feed text. */
  function ParseRssItems<D>(doc: map<string, Node>, lib: DateLib<D>): (r: seq<JobItem>)
    requires Handled(doc)
    ensures ItemNode(doc).None? ==> r == []
    ensures forall m: map<string, Node> :: ItemNode(doc) == Some(Dict(m)) ==> r == [ParseItem(m, lib)]
    ensures forall l: seq<Node> :: ItemNode(doc) == Some(List(l)) ==>
      |r| == |l| && forall i :: 0 <= i < |l| ==> r[i] == ParseItem(l[i].m, lib)
    ensures forall i :: 0 <= i < |r| ==> r[i].source == Source && r[i].raw.Some?
  {
    ParseAll(ItemList(doc), lib)
  }

  /** The `{count, jobs}` payload of `list_jobs`, before the records are serialised. */
  datatype Listing = Listing(count: int, jobs: seq<JobItem>)

  /**
   * Python's `s[:n]`: the first `n` elements, or all of them when there are
   * fewer; for a negative `n`, all but the last `-n` elements, or none.
   */
  function Take<T>(s: seq<T>, n: int): (r: seq<T>)
    ensures |r| <= |s| && r == s[..|r|]
    ensures 0 <= n ==> |r| <= n && (|r| == n || |r| == |s|)
    ensures n < 0 ==> (|r| == |s| + n || (r == [] && |s| <= -n))
  {
    if 0 <= n then (if n <= |s| then s[..n] else s)
    else if -n <= |s| then s[..|s| + n] else []
  }

  /**
   * The listing of `list_jobs` over the parsed records. A `limit` the client
   * supplies is validated to lie in 1..500, but the configured default is
   * used unchecked, so every integer is modelled.
   */
  function ListJobs(items: seq<JobItem>, limit: int): (r: Listing)
    ensures r.count == |r.jobs|
    ensures r.count <= |items| && r.jobs == items[..r.count]
    ensures 0 <= limit ==> r.count <= limit && (r.count == limit || r.count == |items|)
    ensures limit < 0 ==> (r.count == |items| + limit || (r.count == 0 && |items| <= -limit))
  {
    var page := Take(items, limit);
    Listing(|page|, page)
  }

  /** The listing served for a feed document: normalisation followed by truncation. */
  function ListFeed<D>(doc: map<string, Node>, limit: int, lib: DateLib<D>): (r: Listing)
    requires Handled(doc)
    ensures r.count == |r.jobs| && r.count <= |ItemList(doc)|
    ensures 0 <= limit ==> r.count <= limit && (r.count == limit || r.count == |ItemList(doc)|)
    ensures limit < 0 ==> (r.count == |ItemList(doc)| + limit || (r.count == 0 && |ItemList(doc)| <= -limit))
    ensures forall i :: 0 <= i < r.count ==> r.jobs[i] == ParseItem(ItemList(doc)[i].m, lib)
  {
    ListJobs(ParseRssItems(doc, lib), limit)
  }

  /** A parsed document holding one channel with the given children. */
  function Feed(channel: map<string, Node>): (doc: map<string, Node>)
    ensures Handled(doc) <==> ("item" in channel ==> ItemsHandled(channel["item"]))
    ensures "item" in channel && ItemsHandled(channel["item"]) ==> ItemNode(doc) == Some(channel["item"])
  {
    map["rss" := Dict(map["channel" := Dict(channel)])]
  }

  /** A channel whose lone item xmltodict returned as a dictionary gives the same records as a one-item list. */
  lemma LoneItemSameAsSingletonList<D>(channel: map<string, Node>, item: map<string, Node>, lib: DateLib<D>)
    requires WellFormedItem(item)
    ensures Handled(Feed(channel["item" := Dict(item)]))
    ensures Handled(Feed(channel["item" := List([Dict(item)])]))
    ensures ParseRssItems(Feed(channel["item" := Dict(item)]), lib)
         == ParseRssItems(Feed(channel["item" := List([Dict(item)])]), lib)
         == [ParseItem(item, lib)]
  {
  }

  /** Normalising two runs of items one after the other is normalising them together. */
  lemma ParseAllAppend<D>(a: seq<Node>, b: seq<Node>, lib: DateLib<D>)
    requires AllItems(a) && AllItems(b)
    ensures AllItems(a + b)
    ensures ParseAll(a + b, lib) == ParseAll(a, lib) + ParseAll(b, lib)
  {
  }

  /**
   * Truncating the records to `limit` is the same as normalising only the
   * first `limit` items, so the listing holds the first `count` records of the feed.
   */
  lemma ListFeedIsPrefix<D>(doc: map<string, Node>, limit: int, lib: DateLib<D>)
    requires Handled(doc)
    ensures AllItems(Take(ItemList(doc), limit))
    ensures ListFeed(doc, limit, lib).jobs == ParseAll(Take(ItemList(doc), limit), lib)
  {
  }

  /** `source_ref` is absent exactly when the item has no non-empty `guid` and no `link` text. */
  lemma SourceRefAbsent<D>(item: map<string, Node>, lib: DateLib<D>)
    requires WellFormedItem(item)
    ensures ParseItem(item, lib).sourceRef.None? <==>
      ("guid" !in item || !Truthy(item["guid"])) && !("link" in item && item["link"].Str?)
  {
  }

  /** Two items that agree on the five fields the record reads give the same record, apart from `raw`. */
  lemma ParseItemReadsOnlyFields<D>(a: map<string, Node>, b: map<string, Node>, lib: DateLib<D>)
    requires WellFormedItem(a) && WellFormedItem(b)
    requires Get(a, "title") == Get(b, "title") && Get(a, "link") == Get(b, "link")
    requires Get(a, "description") == Get(b, "description") && Get(a, "pubDate") == Get(b, "pubDate")
    requires Get(a, "guid") == Get(b, "guid")
    ensures ParseItem(a, lib).(raw := None) == ParseItem(b, lib).(raw := None)
  {
  }

  /**
   * Normalisation never fails because of the date: whatever `pubDate` holds,
   * the item is still accepted, and only `posted_date` (and `raw`) can change.
   */
  lemma AnyPubDateAccepted<D>(item: map<string, Node>, pubDate: Node, lib: DateLib<D>)
    requires WellFormedItem(item)
    ensures WellFormedItem(item["pubDate" := pubDate])
    ensures ParseItem(item["pubDate" := pubDate], lib).(postedDate := None, raw := None)
         == ParseItem(item, lib).(postedDate := None, raw := None)
  {
  }
}

/**
 * The in-memory work the handlers do on the fetched arrays: id-keyed maps,
 * the facts of a MessageCard, the cards posted per event, and the HTML table.
 *
 * A lookup by id that misses yields `undefined`, and reading `.name` or
 * `.displayName` from it throws; each such spot returns `None` here.
 */
module Shaping {
  import opened Types

  // ---------------------------------------------------------------------------
  // Id-keyed maps
  // ---------------------------------------------------------------------------

  function PlatformKey(p: Platform): int {
    p.id
  }

  function ChannelKey(c: Channel): int {
    c.id
  }

  /**
   * The object `map` after `map[key(x)] = x` for each `x` of `items` in order:
   * exactly the keys that occur are present.
   */
  function IndexBy<T>(items: seq<T>, key: T -> int): (m: map<int, T>)
    ensures forall k :: k in m <==> exists i :: 0 <= i < |items| && key(items[i]) == k
  {
    if |items| == 0 then map[]
    else
      var init := items[..|items| - 1];
      var last := items[|items| - 1];
      assert forall i :: 0 <= i < |init| ==> init[i] == items[i];
      IndexBy(init, key)[key(last) := last]
  }

  /** `items[i]` has key `k` and no later item does. */
  predicate LastWith<T>(items: seq<T>, key: T -> int, k: int, i: int) {
    0 <= i < |items| && key(items[i]) == k && forall j :: i < j < |items| ==> key(items[j]) != k
  }

  /** A later assignment overwrites an earlier one: each key holds the last item with that key. */
  lemma {:induction false} IndexByKeepsLast<T>(items: seq<T>, key: T -> int, k: int)
    requires k in IndexBy(items, key)
    ensures exists i :: LastWith(items, key, k, i) && IndexBy(items, key)[k] == items[i]
  {
    var init := items[..|items| - 1];
    var last := items[|items| - 1];
    if key(last) == k {
      assert LastWith(items, key, k, |items| - 1);
    } else {
      IndexByKeepsLast(init, key, k);
      var i :| LastWith(init, key, k, i) && IndexBy(init, key)[k] == init[i];
      assert LastWith(items, key, k, i);
    }
  }

  /** The `for` loop that fills `platformMap` or `channelMap`. */
  method BuildIndex<T>(items: seq<T>, key: T -> int) returns (m: map<int, T>)
    ensures m == IndexBy(items, key)
  {
    m := map[];
    for i := 0 to |items|
      invariant m == IndexBy(items[..i], key)
    {
      m := m[key(items[i]) := items[i]];
      assert items[..i + 1][..i] == items[..i];
    }
    assert items[..|items|] == items;
  }

  // ---------------------------------------------------------------------------
  // MessageCard facts and cards
  // ---------------------------------------------------------------------------

  /** The fact pushed for an event without destinations. */
  const RestreamFact := Fact("Restream", "No Streams Found (Stream is active in Restream but no channels enabled)")

  /** Both lookups of a destination find an entry, so building its fact does not throw. */
  predicate Resolves(d: Destination, platforms: map<int, Platform>, channels: map<int, Channel>) {
    d.streamingPlatformId in platforms && d.channelId in channels
  }

  /** `{ name: "<platform.name> - <channel.displayName>", value: externalUrl }`. */
  function FactFor(d: Destination, platforms: map<int, Platform>, channels: map<int, Channel>): (f: Fact)
    requires Resolves(d, platforms, channels)
    // the value is the destination's own URL
    ensures f.value == d.externalUrl
    // the name starts with the platform's name and ends with the channel's display name
    ensures var pn := platforms[d.streamingPlatformId].name; var cn := channels[d.channelId].displayName;
      |f.name| == |pn| + 3 + |cn| && f.name[..|pn|] == pn && f.name[|f.name| - |cn|..] == cn
  {
    Fact(platforms[d.streamingPlatformId].name + " - " + channels[d.channelId].displayName, d.externalUrl)
  }

  /** The facts pushed by the destination loop, or `None` if a lookup misses. */
  function DestinationFacts(ds: seq<Destination>, platforms: map<int, Platform>, channels: map<int, Channel>)
    : (r: Option<seq<Fact>>)
    ensures r.Some? <==> forall i :: 0 <= i < |ds| ==> Resolves(ds[i], platforms, channels)
    ensures r.Some? ==>
      |r.value| == |ds| && forall i :: 0 <= i < |ds| ==> r.value[i] == FactFor(ds[i], platforms, channels)
  {
    if |ds| == 0 then Some([])
    else
      var init := ds[..|ds| - 1];
      var last := ds[|ds| - 1];
      assert forall i :: 0 <= i < |init| ==> init[i] == ds[i];
      match DestinationFacts(init, platforms, channels)
      case None => None
      case Some(fs) =>
        if Resolves(last, platforms, channels) then Some(fs + [FactFor(last, platforms, channels)]) else None
  }

  /**
   * A card's `facts`: one per destination in destination order, or the single
   * Restream fact when there are none; `None` when a lookup misses.
   */
  function CardFacts(ds: seq<Destination>, platforms: map<int, Platform>, channels: map<int, Channel>)
    : (r: Option<seq<Fact>>)
    ensures r.Some? <==> forall i :: 0 <= i < |ds| ==> Resolves(ds[i], platforms, channels)
    ensures |ds| == 0 ==> r == Some([RestreamFact])
    ensures r.Some? && |ds| > 0 ==>
      |r.value| == |ds| && forall i :: 0 <= i < |ds| ==> r.value[i] == FactFor(ds[i], platforms, channels)
  {
    match DestinationFacts(ds, platforms, channels)
    case None => None
    case Some(fs) =>
      if |ds| == 0 then
        assert fs + [RestreamFact] == [RestreamFact];
        Some(fs + [RestreamFact])
      else Some(fs)
  }

  /** The event-dependent part of the card posted for `event`. */
  function CardFor(event: Event, platforms: map<int, Platform>, channels: map<int, Channel>): (r: Option<Card>)
    ensures r.Some? <==> forall i :: 0 <= i < |event.destinations| ==> Resolves(event.destinations[i], platforms, channels)
    // the card carries the event's title and at least one fact: one per destination, or the Restream fact
    ensures r.Some? ==>
      r.value.activitySubtitle == event.title &&
      |r.value.facts| == if |event.destinations| == 0 then 1 else |event.destinations|
    ensures |event.destinations| == 0 ==> r == Some(Card(event.title, [RestreamFact]))
    ensures r.Some? && |event.destinations| > 0 ==>
      forall i :: 0 <= i < |event.destinations| ==>
        r.value.facts[i] == FactFor(event.destinations[i], platforms, channels)
  {
    match CardFacts(event.destinations, platforms, channels)
    case None => None
    case Some(fs) => Some(Card(event.title, fs))
  }

  /** The loops that push a card's facts: the destination loop, then the empty-destinations fallback. */
  method BuildFacts(ds: seq<Destination>, platforms: map<int, Platform>, channels: map<int, Channel>)
    returns (facts: Option<seq<Fact>>)
    ensures facts == CardFacts(ds, platforms, channels)
  {
    var fs: seq<Fact> := [];
    for i := 0 to |ds|
      invariant DestinationFacts(ds[..i], platforms, channels) == Some(fs)
    {
      var d := ds[i];
      if !Resolves(d, platforms, channels) {
        return None;
      }
      fs := fs + [FactFor(d, platforms, channels)];
      assert ds[..i + 1][..i] == ds[..i];
    }
    assert ds[..|ds|] == ds;
    if |ds| == 0 {
      fs := fs + [RestreamFact];
    }
    return Some(fs);
  }

  /** The webhook posts made by the loop over in-progress events, and whether that loop threw. */
  datatype Posting = Posting(posts: seq<Call>, threw: bool)

  /**
   * One post per event in event order, each carrying that event's card,
   * stopping (and throwing) at the first event whose card cannot be built.
   */
  function PostCards(events: seq<Event>, platforms: map<int, Platform>, channels: map<int, Channel>)
    : (p: Posting)
    ensures |p.posts| <= |events|
    ensures forall i :: 0 <= i < |p.posts| ==>
      CardFor(events[i], platforms, channels).Some? &&
      p.posts[i] == TeamsPost(CardFor(events[i], platforms, channels).value)
    ensures p.threw <==> |p.posts| < |events|
    ensures p.threw ==> CardFor(events[|p.posts|], platforms, channels).None?
  {
    if |events| == 0 then Posting([], false)
    else
      var init := events[..|events| - 1];
      var last := events[|events| - 1];
      assert forall i :: 0 <= i < |init| ==> init[i] == events[i];
      var p := PostCards(init, platforms, channels);
      if p.threw then p
      else match CardFor(last, platforms, channels)
        case None => Posting(p.posts, true)
        case Some(card) => Posting(p.posts + [TeamsPost(card)], false)
  }

  /** Once the loop has thrown on a prefix, the later events change nothing. */
  lemma {:induction false} PostCardsAfterThrow(events: seq<Event>, k: nat, platforms: map<int, Platform>, channels: map<int, Channel>)
    requires k <= |events|
    requires PostCards(events[..k], platforms, channels).threw
    ensures PostCards(events, platforms, channels) == PostCards(events[..k], platforms, channels)
    decreases |events| - k
  {
    if k < |events| {
      var init := events[..|events| - 1];
      assert init[..k] == events[..k];
      PostCardsAfterThrow(init, k, platforms, channels);
    } else {
      assert events[..k] == events;
    }
  }

  /** One more event whose card can be built adds its post. */
  lemma PostCardsSnoc(events: seq<Event>, i: nat, platforms: map<int, Platform>, channels: map<int, Channel>)
    requires i < |events| && !PostCards(events[..i], platforms, channels).threw
    requires CardFor(events[i], platforms, channels).Some?
    ensures PostCards(events[..i + 1], platforms, channels) ==
      Posting(PostCards(events[..i], platforms, channels).posts + [TeamsPost(CardFor(events[i], platforms, channels).value)], false)
  {
    assert events[..i + 1][..i] == events[..i];
  }

  /** The first event whose card cannot be built ends the loop with the posts made so far. */
  lemma PostCardsStops(events: seq<Event>, i: nat, platforms: map<int, Platform>, channels: map<int, Channel>)
    requires i < |events| && !PostCards(events[..i], platforms, channels).threw
    requires CardFor(events[i], platforms, channels).None?
    ensures PostCards(events, platforms, channels) == Posting(PostCards(events[..i], platforms, channels).posts, true)
  {
    assert events[..i + 1][..i] == events[..i];
    PostCardsAfterThrow(events, i + 1, platforms, channels);
  }

  // ---------------------------------------------------------------------------
  // HTML table of channels
  // ---------------------------------------------------------------------------

  const TableHeader := "<table><tr><th>Platform</th><th>Channel Name</th><th>Status</th><th>URL<th/></tr>"
  const TableFooter := "</table>"

  /** How a boolean is interpolated into a template string. */
  function BoolText(b: bool): string {
    if b then "true" else "false"
  }

  function Row(c: ListedChannel, platformName: string): (r: string)
    // a table row whose first cell is the platform's name and whose last cell is the channel's URL
    ensures |r| >= 8 + |platformName| + |c.url| + 10
    ensures r[..8 + |platformName|] == "<tr><td>" + platformName
    ensures r[|r| - |c.url| - 10..] == c.url + "</td></tr>"
  {
    "<tr><td>" + platformName + "</td><td>" + c.displayName + "</td><td>" + BoolText(c.active) +
    "</td><td>" + c.url + "</td></tr>"
  }

  /** Every channel's `platformId` is a key of the platform map. */
  predicate PlatformsKnown(cs: seq<ListedChannel>, platforms: map<int, Platform>) {
    forall i :: 0 <= i < |cs| ==> cs[i].platformId in platforms
  }

  /**
   * The row of each channel, in input order, with the name of the platform
   * its `platformId` maps to; `None` if a platform lookup misses.
   */
  function RowTexts(cs: seq<ListedChannel>, platforms: map<int, Platform>): (r: Option<seq<string>>)
    ensures r.Some? <==> PlatformsKnown(cs, platforms)
    ensures r.Some? ==>
      |r.value| == |cs| &&
      forall i :: 0 <= i < |cs| ==> r.value[i] == Row(cs[i], platforms[cs[i].platformId].name)
  {
    if |cs| == 0 then Some([])
    else
      var init := cs[..|cs| - 1];
      var last := cs[|cs| - 1];
      assert forall i :: 0 <= i < |init| ==> init[i] == cs[i];
      match RowTexts(init, platforms)
      case None => None
      case Some(rows) =>
        if last.platformId in platforms then Some(rows + [Row(last, platforms[last.platformId].name)]) else None
  }

  /** The strings of `parts` joined in order. */
  function Concat(parts: seq<string>): string {
    if |parts| == 0 then "" else Concat(parts[..|parts| - 1]) + parts[|parts| - 1]
  }

  /** The page: the header row, the rows, then `</table>`. */
  function Table(cs: seq<ListedChannel>, platforms: map<int, Platform>): (r: Option<string>)
    ensures r.Some? <==> PlatformsKnown(cs, platforms)
    // the page opens with the header row and closes with `</table>`
    ensures r.Some? ==>
      |r.value| >= |TableHeader| + |TableFooter| &&
      r.value[..|TableHeader|] == TableHeader && r.value[|r.value| - |TableFooter|..] == TableFooter
  {
    match RowTexts(cs, platforms)
    case None => None
    case Some(rows) => Some(TableHeader + Concat(rows) + TableFooter)
  }

  lemma RowTextsSnoc(cs: seq<ListedChannel>, platforms: map<int, Platform>, i: nat)
    requires i < |cs| && RowTexts(cs[..i], platforms).Some? && cs[i].platformId in platforms
    ensures RowTexts(cs[..i + 1], platforms) ==
      Some(RowTexts(cs[..i], platforms).value + [Row(cs[i], platforms[cs[i].platformId].name)])
  {
    assert cs[..i + 1][..i] == cs[..i];
  }

  lemma RowTextsMiss(cs: seq<ListedChannel>, platforms: map<int, Platform>, i: nat)
    requires i < |cs| && cs[i].platformId !in platforms
    ensures RowTexts(cs, platforms).None?
  {
  }

  lemma ConcatSnoc(parts: seq<string>, part: string)
    ensures Concat(parts + [part]) == Concat(parts) + part
  {
    assert (parts + [part])[..|parts|] == parts;
  }

  lemma AppendAssociates<T>(a: seq<T>, b: seq<T>, c: seq<T>)
    ensures a + b + c == a + (b + c)
  {
  }

  /** The loop that accumulates `html` with `+=`, between the header row and `</table>`. */
  method RenderTable(cs: seq<ListedChannel>, platforms: map<int, Platform>) returns (html: Option<string>)
    ensures html == Table(cs, platforms)
  {
    var s := TableHeader;
    ghost var rows: seq<string> := [];
    for i := 0 to |cs|
      invariant RowTexts(cs[..i], platforms) == Some(rows)
      invariant s == TableHeader + Concat(rows)
    {
      if cs[i].platformId !in platforms {
        RowTextsMiss(cs, platforms, i);
        return None;
      }
      var row := Row(cs[i], platforms[cs[i].platformId].name);
      RowTextsSnoc(cs, platforms, i);
      ConcatSnoc(rows, row);
      AppendAssociates(TableHeader, Concat(rows), row);
      s := s + row;
      rows := rows + [row];
    }
    assert cs[..|cs|] == cs;
    s := s + TableFooter;
    return Some(s);
  }
}

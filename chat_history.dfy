/**
 * The history panel's list logic (src/components/layout/ChatHistory.tsx): the search
 * filter over conversation titles, the split into today / yesterday / older by the age
 * of `updatedAt`, and the text shown when nothing is listed.
 *
 * The panel's clock (`Date.now()`, refreshed every minute) is the parameter `now`;
 * times are milliseconds.
 */
module ChatHistory {
  import opened Wrappers
  import opened Types
  import opened Strings
  import opened Seqs

  // ---------------------------------------------------------------- search filter

  /** `conv.title.toLowerCase().includes(query.toLowerCase())`. */
  function TitleMatches(query: string): Conversation -> bool {
    (c: Conversation) => Contains(Lower(c.title), Lower(query))
  }

  /**
   * The conversations whose title contains the query, ignoring case, in their original
   * order, each as often as it occurs in the list.
   */
  function FilterConversations(cs: seq<Conversation>, query: string): (r: seq<Conversation>)
    ensures forall k :: 0 <= k < |r| ==> Contains(Lower(r[k].title), Lower(query))
    ensures forall k :: 0 <= k < |cs| && Contains(Lower(cs[k].title), Lower(query)) ==> cs[k] in r
    ensures forall c :: multiset(r)[c] == if Contains(Lower(c.title), Lower(query)) then multiset(cs)[c] else 0
    ensures Subsequence(r, cs)
  {
    FilterSpec(TitleMatches(query), cs);
    Filter(TitleMatches(query), cs)
  }

  /** An empty query keeps every conversation. */
  lemma EmptyQueryKeepsAll(cs: seq<Conversation>)
    ensures FilterConversations(cs, "") == cs
  {
    forall k | 0 <= k < |cs| ensures TitleMatches("")(cs[k]) {
      ContainsEmpty(Lower(cs[k].title));
    }
    FilterKeepsAll(TitleMatches(""), cs);
  }

  // ---------------------------------------------------------------- age buckets

  const DayMs: int := 24 * 60 * 60 * 1000

  /** The `today` test: less than a day old, which includes times in the future. */
  function InToday(now: int): Conversation -> bool {
    (c: Conversation) => now - c.updatedAt < DayMs
  }

  /** The `yesterday` test: at least one day and less than two days old. */
  function InYesterday(now: int): Conversation -> bool {
    (c: Conversation) => DayMs <= now - c.updatedAt < 2 * DayMs
  }

  /** The `older` test: at least two days old. */
  function InOlder(now: int): Conversation -> bool {
    (c: Conversation) => now - c.updatedAt >= 2 * DayMs
  }

  datatype Bucket = Today | Yesterday | Older

  /** Which heading a conversation of the given age falls under. */
  function BucketOf(now: int, updatedAt: int): (b: Bucket)
    ensures b == Today <==> now - updatedAt < 86400000
    ensures b == Yesterday <==> 86400000 <= now - updatedAt < 172800000
    ensures b == Older <==> now - updatedAt >= 172800000
  {
    var diff := now - updatedAt;
    if diff < DayMs then Today else if diff < 2 * DayMs then Yesterday else Older
  }

  /** Each of the three tests holds exactly when the conversation falls in its bucket, so exactly one holds. */
  lemma TestsMatchBuckets(now: int, c: Conversation)
    ensures InToday(now)(c) <==> BucketOf(now, c.updatedAt) == Today
    ensures InYesterday(now)(c) <==> BucketOf(now, c.updatedAt) == Yesterday
    ensures InOlder(now)(c) <==> BucketOf(now, c.updatedAt) == Older
  {
  }

  /** The boundaries: exactly one day old is yesterday, exactly two days old is older, the future is today. */
  lemma BucketBoundaries(now: int)
    ensures BucketOf(now, now - 86400000) == Yesterday
    ensures BucketOf(now, now - 172800000) == Older
    ensures BucketOf(now, now - 86399999) == Today
    ensures forall t :: t > now ==> BucketOf(now, t) == Today
  {
  }

  datatype Groups = Groups(today: seq<Conversation>, yesterday: seq<Conversation>, older: seq<Conversation>)

  /** `groupedConversations`: three filters of the filtered list, each keeping the list's order. */
  function Group(filtered: seq<Conversation>, now: int): (g: Groups)
    ensures forall k :: 0 <= k < |g.today| ==> BucketOf(now, g.today[k].updatedAt) == Today
    ensures forall k :: 0 <= k < |g.yesterday| ==> BucketOf(now, g.yesterday[k].updatedAt) == Yesterday
    ensures forall k :: 0 <= k < |g.older| ==> BucketOf(now, g.older[k].updatedAt) == Older
    ensures Subsequence(g.today, filtered) && Subsequence(g.yesterday, filtered) && Subsequence(g.older, filtered)
  {
    FilterKeepsOrder(InToday(now), filtered);
    FilterKeepsOrder(InYesterday(now), filtered);
    FilterKeepsOrder(InOlder(now), filtered);
    Groups(Filter(InToday(now), filtered), Filter(InYesterday(now), filtered), Filter(InOlder(now), filtered))
  }

  /**
   * The three groups partition the filtered list: together they hold every conversation
   * exactly as often as the list does, so none is lost and none is listed twice.
   */
  lemma GroupsPartition(filtered: seq<Conversation>, now: int)
    ensures var g := Group(filtered, now);
      multiset(g.today) + multiset(g.yesterday) + multiset(g.older) == multiset(filtered)
    ensures var g := Group(filtered, now);
      |g.today| + |g.yesterday| + |g.older| == |filtered|
  {
    FilterPartition3(InToday(now), InYesterday(now), InOlder(now), filtered);
    var g := Group(filtered, now);
    assert |multiset(g.today) + multiset(g.yesterday) + multiset(g.older)| == |multiset(filtered)|;
  }

  /** No conversation is in two groups. */
  lemma GroupsDisjoint(filtered: seq<Conversation>, now: int)
    ensures var g := Group(filtered, now);
      multiset(g.today) * multiset(g.yesterday) == multiset{}
      && multiset(g.today) * multiset(g.older) == multiset{}
      && multiset(g.yesterday) * multiset(g.older) == multiset{}
  {
    var g := Group(filtered, now);
    DisjointBuckets(g.today, g.yesterday, now, Today, Yesterday);
    DisjointBuckets(g.today, g.older, now, Today, Older);
    DisjointBuckets(g.yesterday, g.older, now, Yesterday, Older);
  }

  /** Lists whose members fall in different buckets share no element. */
  lemma DisjointBuckets(a: seq<Conversation>, b: seq<Conversation>, now: int, ba: Bucket, bb: Bucket)
    requires ba != bb
    requires forall k :: 0 <= k < |a| ==> BucketOf(now, a[k].updatedAt) == ba
    requires forall k :: 0 <= k < |b| ==> BucketOf(now, b[k].updatedAt) == bb
    ensures multiset(a) * multiset(b) == multiset{}
  {
    forall c ensures (multiset(a) * multiset(b))[c] == 0 {
    }
  }

  // ---------------------------------------------------------------- what is shown

  /** The labels of the non-empty groups, in the order today, yesterday, older. */
  function Headings(g: Groups): (r: seq<string>)
    ensures |r| <= 3
    ensures "Today" in r <==> |g.today| > 0
    ensures "Yesterday" in r <==> |g.yesterday| > 0
    ensures "Older" in r <==> |g.older| > 0
    ensures "Today" in r ==> r[0] == "Today"
    ensures "Older" in r ==> r[|r| - 1] == "Older"
    ensures forall k :: 0 <= k < |r| ==> r[k] in ["Today", "Yesterday", "Older"]
    ensures forall i, j :: 0 <= i < j < |r| ==> r[i] != r[j]
  {
    (if |g.today| > 0 then ["Today"] else [])
    + (if |g.yesterday| > 0 then ["Yesterday"] else [])
    + (if |g.older| > 0 then ["Older"] else [])
  }

  /**
   * The panel shows a heading exactly for the buckets that some listed conversation falls
   * in: "Today" iff one was updated within a day, "Yesterday" iff one is one to two days
   * old, "Older" iff one is older than that.
   */
  lemma HeadingsOfList(filtered: seq<Conversation>, now: int)
    ensures var r := Headings(Group(filtered, now));
      "Today" in r <==> exists k :: 0 <= k < |filtered| && BucketOf(now, filtered[k].updatedAt) == Today
    ensures var r := Headings(Group(filtered, now));
      "Yesterday" in r <==> exists k :: 0 <= k < |filtered| && BucketOf(now, filtered[k].updatedAt) == Yesterday
    ensures var r := Headings(Group(filtered, now));
      "Older" in r <==> exists k :: 0 <= k < |filtered| && BucketOf(now, filtered[k].updatedAt) == Older
  {
    FilterKeepsOrder(InToday(now), filtered);
    FilterKeepsOrder(InYesterday(now), filtered);
    FilterKeepsOrder(InOlder(now), filtered);
    forall c | c in filtered { TestsMatchBuckets(now, c); }
  }

  /**
   * The placeholder under an empty list: "No conversations found" while a query is typed,
   * "No conversations yet" otherwise; nothing when the list has entries.
   */
  function EmptyStateText(filtered: seq<Conversation>, query: string): (r: Option<string>)
    ensures r.Some? <==> |filtered| == 0
    ensures r == Some("No conversations found") <==> |filtered| == 0 && query != ""
    ensures r == Some("No conversations yet") <==> |filtered| == 0 && query == ""
  {
    if |filtered| > 0 then None
    else if query != "" then Some("No conversations found")
    else Some("No conversations yet")
  }

  /** With no conversations at all, and no query, the panel says there are none yet. */
  lemma NoConversationsYet(now: int)
    ensures EmptyStateText(FilterConversations([], ""), "") == Some("No conversations yet")
    ensures Headings(Group(FilterConversations([], ""), now)) == []
  {
    EmptyQueryKeepsAll([]);
  }
}

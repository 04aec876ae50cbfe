/**
 The numbered result listing both web-search providers print:
 `**Result i:** title`, the snippet, and `*Source: url*`, one block per
 result, blocks separated by a horizontal rule.
 */
module Listing {
  import opened Text

  /** One normalised search result. */
  datatype Item = Item(title: string, snippet: string, source: string)

  const EntrySeparator: string := "\n\n---\n\n"

  /** The heading a non-empty listing starts with. */
  const FirstHeading: string := "**Result 1:** "

  /** The heading that opens entry number `i`. */
  function EntryHeading(i: nat): string {
    "**Result " + Decimal(i) + ":** "
  }

  /** The three-line block for entry number `i`. */
  function FormatEntry(i: nat, item: Item): string {
    EntryHeading(i) + item.title + "\n" + item.snippet + "\n" + "*Source: " + item.source + "*"
  }

  lemma EntryStartsWithHeading(i: nat, item: Item)
    ensures EntryHeading(i) <= FormatEntry(i, item)
  {
  }

  /** The blocks for `items`, numbered consecutively from `first`. */
  function Numbered(items: seq<Item>, first: nat): (es: seq<string>)
    ensures |es| == |items|
    ensures forall k :: 0 <= k < |items| ==> es[k] == FormatEntry(first + k, items[k])
  {
    if |items| == 0 then [] else [FormatEntry(first, items[0])] + Numbered(items[1..], first + 1)
  }

  /** The full listing: every item, numbered from 1, blocks joined by the rule. */
  function FormatListing(items: seq<Item>): (r: string)
    ensures |items| == 0 ==> r == ""
    ensures |items| > 0 ==> FirstHeading <= r
  {
    var blocks := Numbered(items, 1);
    var r := Join(blocks, EntrySeparator);
    if |items| > 0 then
      EntryStartsWithHeading(1, items[0]);
      assert EntryHeading(1) == FirstHeading;
      assert blocks[0] <= r;
      r
    else r
  }

  /** A listing is the blocks numbered from 1, joined by the rule. */
  lemma ListingIsJoin(items: seq<Item>)
    ensures FormatListing(items) == Join(Numbered(items, 1), EntrySeparator)
  {
  }

  /** Where block `k` (numbered `k + 1`) starts inside the listing. */
  function BlockStart(items: seq<Item>, k: nat): nat
    requires k <= |items|
  {
    Offset(Numbered(items, 1), EntrySeparator, k)
  }

  /**
   Block `k` of a listing is item `k` numbered `k + 1`, standing unchanged at
   `BlockStart(items, k)`.
   */
  lemma ListingBlock(items: seq<Item>, k: nat)
    requires k < |items|
    ensures BlockStart(items, k) + |FormatEntry(k + 1, items[k])| <= |FormatListing(items)|
    ensures FormatListing(items)[BlockStart(items, k)..BlockStart(items, k) + |FormatEntry(k + 1, items[k])|]
         == FormatEntry(k + 1, items[k])
  {
    var blocks := Numbered(items, 1);
    ListingIsJoin(items);
    JoinPartOf(blocks, EntrySeparator, FormatListing(items), k);
    assert blocks[k] == FormatEntry(k + 1, items[k]);
  }

  /** Between block `k` and block `k + 1` of a listing stands exactly one rule. */
  lemma ListingSeparator(items: seq<Item>, k: nat)
    requires k + 1 < |items|
    ensures BlockStart(items, k + 1) <= |FormatListing(items)|
    ensures FormatListing(items)[BlockStart(items, k) + |FormatEntry(k + 1, items[k])|..BlockStart(items, k + 1)]
         == EntrySeparator
  {
    var blocks := Numbered(items, 1);
    ListingIsJoin(items);
    JoinSeparatorOf(blocks, EntrySeparator, FormatListing(items), k);
    assert blocks[k] == FormatEntry(k + 1, items[k]);
  }

  /** The last block ends the listing: nothing follows it. */
  lemma ListingLast(items: seq<Item>)
    requires |items| > 0
    ensures BlockStart(items, |items| - 1) + |FormatEntry(|items|, items[|items| - 1])| == |FormatListing(items)|
  {
    var blocks := Numbered(items, 1);
    ListingIsJoin(items);
    JoinLast(blocks, EntrySeparator);
    assert blocks[|items| - 1] == FormatEntry(|items|, items[|items| - 1]);
  }
}

/**
 * The normalised record both scrapers build from a raw item. They build it
 * the same way and differ only in how they read the price text and the
 * numbers in the feature bullets, so those readers are a parameter.
 */
module Ingest {
  import opened Listing
  import opened Details

  /** A scraper's readers: price text to price, and the bullet readers. */
  datatype Parsers = Parsers(price: string -> real, bullets: Readers)

  /** The record `_process_item` builds, before price tracking, stamped at `collectedAt`. */
  function Normalize(item: RawItem, collectedAt: string, parsers: Parsers): Record
  {
    Record(
      item.title, parsers.price(item.priceText), item.priceText, SplitAddress(item.location),
      Fold(item.details, parsers.bullets), PROPERTY_TYPE, item.photos, item.description, item.link,
      collectedAt, SOURCE)
  }

  /** The records built from a batch of raw items, each with the time it was stamped at, in order. */
  function Normalized(batch: seq<(RawItem, string)>, parsers: Parsers): (records: seq<Record>)
    ensures |records| == |batch|
    ensures forall i :: 0 <= i < |batch| ==> records[i] == Normalize(batch[i].0, batch[i].1, parsers)
  {
    seq(|batch|, i requires 0 <= i < |batch| => Normalize(batch[i].0, batch[i].1, parsers))
  }

  lemma NormalizedAppend(a: seq<(RawItem, string)>, b: seq<(RawItem, string)>, parsers: Parsers)
    ensures Normalized(a + b, parsers) == Normalized(a, parsers) + Normalized(b, parsers)
  {
    var ab := Normalized(a + b, parsers);
    forall i | |a| <= i < |a + b| ensures ab[i] == Normalized(b, parsers)[i - |a|] {
      assert (a + b)[i] == b[i - |a|];
    }
  }
}

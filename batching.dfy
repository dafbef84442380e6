/** The batching loop of `add_tracks_to_playlist` in server/app.py: the
    track URIs go to the provider in slices of at most 100, in order, and
    the first rejected slice ends the loop. */
module Batching {
  /** The provider accepts at most this many items per call. */
  const BATCH_SIZE: int := 100

  /** `[uris[i:i+100] for i in range(0, len(uris), 100)]`. */
  function Batches(uris: seq<string>): (r: seq<seq<string>>)
    ensures |r| == (|uris| + BATCH_SIZE - 1) / BATCH_SIZE
    ensures uris != [] ==> r != [] && r[0] == uris[..if |uris| < BATCH_SIZE then |uris| else BATCH_SIZE]
    decreases |uris|
  {
    if uris == [] then []
    else if |uris| <= BATCH_SIZE then [uris]
    else [uris[..BATCH_SIZE]] + Batches(uris[BATCH_SIZE..])
  }

  /** Concatenation of a list of batches. */
  function Flatten(bs: seq<seq<string>>): seq<string> {
    if bs == [] then [] else bs[0] + Flatten(bs[1..])
  }

  /** The items of a prefix of the batches are a prefix of the items. */
  lemma {:induction false} FlattenPrefix(bs: seq<seq<string>>, cs: seq<seq<string>>)
    requires bs <= cs
    ensures Flatten(bs) <= Flatten(cs)
  {
    if bs != [] {
      assert bs[0] == cs[0];
      assert bs[1..] <= cs[1..];
      FlattenPrefix(bs[1..], cs[1..]);
    }
  }

  /** The batches put back together give the URIs, in order. */
  lemma {:induction false} BatchesFlatten(uris: seq<string>)
    ensures Flatten(Batches(uris)) == uris
    decreases |uris|
  {
    if uris != [] && |uris| > BATCH_SIZE {
      BatchesFlatten(uris[BATCH_SIZE..]);
      var bs := Batches(uris);
      assert bs[1..] == Batches(uris[BATCH_SIZE..]);
      assert uris[..BATCH_SIZE] + uris[BATCH_SIZE..] == uris;
    } else if uris != [] {
      assert Batches(uris)[1..] == [];
    }
  }

  /** Every batch is non-empty and within the limit, and every batch but
      the last is full. */
  lemma {:induction false} BatchesShape(uris: seq<string>)
    ensures forall k :: 0 <= k < |Batches(uris)| ==> 1 <= |Batches(uris)[k]| <= BATCH_SIZE
    ensures forall k :: 0 <= k < |Batches(uris)| - 1 ==> |Batches(uris)[k]| == BATCH_SIZE
    decreases |uris|
  {
    if uris != [] && |uris| > BATCH_SIZE {
      BatchesShape(uris[BATCH_SIZE..]);
      var bs := Batches(uris);
      assert bs[1..] == Batches(uris[BATCH_SIZE..]);
      forall k | 1 <= k < |bs| ensures bs[k] == Batches(uris[BATCH_SIZE..])[k - 1] {
      }
    }
  }

  /** The send loop. `accepts(k)` says whether the provider takes the k-th
      call; a rejection raises and ends the loop. Returns the batches the
      provider took, and whether a call was rejected. */
  method SendBatches(uris: seq<string>, accepts: nat -> bool) returns (sent: seq<seq<string>>, failed: bool)
    ensures sent <= Batches(uris)
    ensures !failed ==> sent == Batches(uris)
    ensures failed ==> |sent| < |Batches(uris)| && !accepts(|sent|)
    ensures forall k :: 0 <= k < |sent| ==> accepts(k)
    ensures Flatten(sent) <= uris
  {
    sent, failed := [], false;
    var i := 0;
    while i < |uris|
      invariant 0 <= i <= |uris|
      invariant Batches(uris) == sent + Batches(uris[i..])
      invariant forall k :: 0 <= k < |sent| ==> accepts(k)
      decreases |uris| - i
    {
      var end := if i + BATCH_SIZE < |uris| then i + BATCH_SIZE else |uris|;
      var batch := uris[i..end];
      assert batch == Batches(uris[i..])[0];
      if !accepts(|sent|) {
        failed := true;
        SentPrefix(uris, sent);
        return;
      }
      if end == |uris| {
        assert Batches(uris[i..]) == [batch];
        sent := sent + [batch];
        i := end;
        assert Batches(uris[i..]) == [];
      } else {
        assert uris[i..][BATCH_SIZE..] == uris[end..];
        assert Batches(uris[i..]) == [batch] + Batches(uris[end..]);
        sent := sent + [batch];
        i := end;
      }
    }
    assert uris[i..] == [];
    SentPrefix(uris, sent);
  }

  /** The URIs in batches the provider took are a prefix of all the URIs. */
  lemma SentPrefix(uris: seq<string>, sent: seq<seq<string>>)
    requires sent <= Batches(uris)
    ensures Flatten(sent) <= uris
  {
    FlattenPrefix(sent, Batches(uris));
    BatchesFlatten(uris);
  }
}

/**
 * The dispatch side of `Snapshots`: order-book fetches are started in rounds
 * of at most three, one round per tick, to stay within the exchange's rate
 * limit.
 */
module Dispatch {
  import Products
  /** The exchange's rate limit, in requests per second (one round per second). */
  const RequestsPerSecond: nat := 3

  function Min(a: int, b: int): int
  {
    if a < b then a else b
  }

  predicate Distinct(ids: seq<string>)
  {
    forall i, j :: 0 <= i < j < |ids| ==> ids[i] != ids[j]
  }

  /** Whether some round of a schedule fetches product `p`. */
  predicate Dispatched(rounds: seq<seq<string>>, p: string)
  {
    exists i :: 0 <= i < |rounds| && p in rounds[i]
  }

  /** Round `i` as written: the products from offset `i`, at most three of them. */
  function RoundAsWritten(ids: seq<string>, i: nat): (round: seq<string>)
    requires i <= |ids| / RequestsPerSecond
    ensures |round| <= RequestsPerSecond
  {
    ids[i..Min(i + RequestsPerSecond, |ids|)]
  }

  /**
   * The rounds the dispatch loop produces as written: `n / 3 + 1` rounds,
   * round `i` starting at offset `i`.
   */
  function ScheduleAsWritten(ids: seq<string>): (rounds: seq<seq<string>>)
    ensures |rounds| == |ids| / RequestsPerSecond + 1
    ensures forall i :: 0 <= i < |rounds| ==> |rounds[i]| <= RequestsPerSecond
  {
    seq(|ids| / RequestsPerSecond + 1, i requires 0 <= i <= |ids| / RequestsPerSecond => RoundAsWritten(ids, i))
  }

  /**
   * The dispatch loop of `Snapshots` as written. Every slice it takes is in
   * bounds, so it never panics.
   */
  method DispatchRounds(ids: seq<string>) returns (rounds: seq<seq<string>>)
    ensures rounds == ScheduleAsWritten(ids)
  {
    rounds := [];
    var i := 0;
    while i <= |ids| / RequestsPerSecond
      invariant 0 <= i <= |ids| / RequestsPerSecond + 1
      invariant rounds == ScheduleAsWritten(ids)[..i]
    {
      var end := Min(i + RequestsPerSecond, |ids|);
      rounds := rounds + [ids[i..end]];
      i := i + 1;
    }
  }

  /** As written, every product among the first `n / 3 + 3` entries is fetched. */
  lemma AsWrittenFetchesPrefix(ids: seq<string>)
    ensures forall j :: 0 <= j < |ids| && j < |ids| / RequestsPerSecond + 3 ==> Dispatched(ScheduleAsWritten(ids), ids[j])
  {
    var rounds := ScheduleAsWritten(ids);
    forall j | 0 <= j < |ids| && j < |ids| / RequestsPerSecond + 3
      ensures Dispatched(rounds, ids[j])
    {
      var i := if j < 2 then 0 else j - 2;
      assert rounds[i][j - i] == ids[j];
    }
  }

  /**
   * As written, when the products are distinct, none at position `n / 3 + 3`
   * or later is ever fetched.
   */
  lemma AsWrittenMissesTail(ids: seq<string>)
    requires Distinct(ids)
    ensures forall j :: |ids| / RequestsPerSecond + 3 <= j < |ids| ==> !Dispatched(ScheduleAsWritten(ids), ids[j])
  {
  }

  /** As written, with five or more distinct products the last one is never fetched. */
  lemma AsWrittenMissesLast(ids: seq<string>)
    requires Distinct(ids) && |ids| >= 5
    ensures !Dispatched(ScheduleAsWritten(ids), ids[|ids| - 1])
  {
  }

  /**
   * As written, with the nine known products requested (the default), the
   * last three (the LTC markets) are never fetched.
   */
  lemma AsWrittenMissesDefaultTail()
    ensures forall j :: 6 <= j < 9 ==>
              !Dispatched(ScheduleAsWritten(Products.DefaultProductIds), Products.DefaultProductIds[j])
  {
  }

  /** As written, with three or more products the second one is fetched in two rounds. */
  lemma AsWrittenRepeatsSecond(ids: seq<string>)
    requires |ids| >= 3
    ensures ids[1] in ScheduleAsWritten(ids)[0] && ids[1] in ScheduleAsWritten(ids)[1]
  {
  }

  /** The rounds of a schedule, one after the other. */
  function Flatten(rounds: seq<seq<string>>): seq<string>
  {
    if |rounds| == 0 then [] else Flatten(rounds[..|rounds| - 1]) + rounds[|rounds| - 1]
  }

  /** Every product in the rounds, one after the other, is dispatched by some round. */
  lemma {:induction false} FlattenDispatched(rounds: seq<seq<string>>)
    ensures forall p :: p in Flatten(rounds) ==> Dispatched(rounds, p)
  {
    if |rounds| > 0 {
      var init := rounds[..|rounds| - 1];
      FlattenDispatched(init);
      forall p | p in Flatten(rounds)
        ensures Dispatched(rounds, p)
      {
        if p in Flatten(init) {
          var i :| 0 <= i < |init| && p in init[i];
          assert rounds[i] == init[i];
        } else {
          assert p in rounds[|rounds| - 1];
        }
      }
    }
  }

  /** Round `i` as intended: the products from offset `3 * i`, at most three of them. */
  function RoundChunked(ids: seq<string>, i: nat): (round: seq<string>)
    requires i <= |ids| / RequestsPerSecond
    ensures |round| <= RequestsPerSecond
  {
    ids[RequestsPerSecond * i..Min(RequestsPerSecond * i + RequestsPerSecond, |ids|)]
  }

  /**
   * The evidently intended schedule: the same `n / 3 + 1` rounds of at most
   * three, round `i` starting at offset `3 * i`.
   */
  function ScheduleChunked(ids: seq<string>): (rounds: seq<seq<string>>)
    ensures |rounds| == |ids| / RequestsPerSecond + 1
    ensures forall i :: 0 <= i < |rounds| ==> |rounds[i]| <= RequestsPerSecond
  {
    seq(|ids| / RequestsPerSecond + 1, i requires 0 <= i <= |ids| / RequestsPerSecond => RoundChunked(ids, i))
  }

  lemma {:induction false} ChunkedPrefix(ids: seq<string>, k: nat)
    requires k <= |ids| / RequestsPerSecond + 1
    ensures Flatten(ScheduleChunked(ids)[..k]) == ids[..Min(RequestsPerSecond * k, |ids|)]
  {
    if k > 0 {
      var rounds := ScheduleChunked(ids);
      ChunkedPrefix(ids, k - 1);
      assert rounds[..k][..k - 1] == rounds[..k - 1];
      var a := RequestsPerSecond * (k - 1);
      assert ids[..a] + ids[a..Min(a + RequestsPerSecond, |ids|)] == ids[..Min(a + RequestsPerSecond, |ids|)];
    }
  }

  /**
   * The intended schedule fetches every product exactly where it is listed:
   * its rounds, one after the other, are the request itself, so each entry
   * is fetched once and none is skipped.
   */
  lemma ChunkedCoversOnce(ids: seq<string>)
    ensures Flatten(ScheduleChunked(ids)) == ids
    ensures forall j :: 0 <= j < |ids| ==> Dispatched(ScheduleChunked(ids), ids[j])
  {
    var rounds := ScheduleChunked(ids);
    ChunkedPrefix(ids, |rounds|);
    assert rounds[..|rounds|] == rounds;
    forall j | 0 <= j < |ids|
      ensures Dispatched(rounds, ids[j])
    {
      var i := j / RequestsPerSecond;
      assert rounds[i][j - RequestsPerSecond * i] == ids[j];
    }
  }

  /** The dispatch loop with the round offset corrected to `3 * i`. */
  method DispatchChunks(ids: seq<string>) returns (rounds: seq<seq<string>>)
    ensures rounds == ScheduleChunked(ids)
  {
    rounds := [];
    var i := 0;
    while i <= |ids| / RequestsPerSecond
      invariant 0 <= i <= |ids| / RequestsPerSecond + 1
      invariant rounds == ScheduleChunked(ids)[..i]
    {
      var start := RequestsPerSecond * i;
      var end := Min(start + RequestsPerSecond, |ids|);
      rounds := rounds + [ids[start..end]];
      i := i + 1;
    }
  }
}

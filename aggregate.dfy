/**
 * The collecting side of `Snapshots`: each fetch reports back on a result
 * channel (and, when it fails, on an error channel too); the aggregator
 * folds those events into a map from product id to order book and a list
 * of errors, and hands them over once the map has one key per requested id.
 */
module Aggregate {
  import opened Wrappers
  import Dispatch

  /** An order book as the exchange returns it. */
  datatype OrderBook = OrderBook(sequence: int, bids: seq<seq<string>>, asks: seq<seq<string>>)

  /** What reaches the aggregator: a fetch's result (no book when it failed), or a fetch error. */
  datatype Event = Fetched(productId: string, book: Option<OrderBook>) | Failed(error: string)

  /**
   * The events one fetch sends: a failed fetch sends its error and then a
   * result without a book; a good one sends just the book.
   */
  function FetchEvents(productId: string, outcome: Result<OrderBook, string>): (evs: seq<Event>)
    ensures |evs| > 0 && evs[|evs| - 1].Fetched? && evs[|evs| - 1].productId == productId
    ensures evs[|evs| - 1].book.Some? <==> outcome.Ok?
    ensures outcome.Ok? ==> evs == [Fetched(productId, Some(outcome.value))]
    ensures outcome.Err? ==> |evs| == 2 && evs[0] == Failed(outcome.error)
  {
    match outcome
    case Ok(b) => [Fetched(productId, Some(b))]
    case Err(e) => [Failed(e), Fetched(productId, None)]
  }

  /** The map the aggregator holds after the events `evs`. */
  function Results(evs: seq<Event>): map<string, Option<OrderBook>>
  {
    if |evs| == 0 then map[]
    else
      var res := Results(evs[..|evs| - 1]);
      match evs[|evs| - 1]
      case Fetched(p, b) => res[p := b]
      case Failed(_) => res
  }

  /** The error list the aggregator holds after the events `evs`. */
  function Errors(evs: seq<Event>): seq<string>
  {
    if |evs| == 0 then []
    else
      var errs := Errors(evs[..|evs| - 1]);
      match evs[|evs| - 1]
      case Fetched(_, _) => errs
      case Failed(e) => errs + [e]
  }

  /** Whether the aggregator leaves its loop on the `k`-th event: a result that brings the map to `n` keys. */
  predicate Stops(n: nat, evs: seq<Event>, k: nat)
  {
    1 <= k <= |evs| && evs[k - 1].Fetched? && |Results(evs[..k])| == n
  }

  /**
   * The aggregator loop over a stream of events: results go into the map,
   * errors onto the list, and after each result it stops if the map has as
   * many keys as there are requested ids. `done` says whether it stopped
   * (and so sends its outcome); `used` is how many events it took.
   */
  method Aggregate(ids: seq<string>, events: seq<Event>)
    returns (res: map<string, Option<OrderBook>>, errs: seq<string>, done: bool, used: nat)
    ensures used <= |events|
    ensures res == Results(events[..used]) && errs == Errors(events[..used])
    ensures done ==> Stops(|ids|, events, used)
    ensures !done ==> used == |events|
    ensures forall k :: Stops(|ids|, events, k) ==> done && used <= k
  {
    res, errs, done, used := map[], [], false, 0;
    while used < |events|
      invariant used <= |events|
      invariant res == Results(events[..used]) && errs == Errors(events[..used])
      invariant forall k: nat :: k <= used ==> !Stops(|ids|, events, k)
    {
      var e := events[used];
      assert events[..used + 1][..used] == events[..used];
      used := used + 1;
      match e
      case Fetched(p, book) =>
        res := res[p := book];
        if |res| == |ids| {
          done := true;
          return;
        }
      case Failed(err) =>
        errs := errs + [err];
    }
    assert events[..used] == events;
  }

  /** The map's keys are the ids of the results received. */
  lemma {:induction false} ResultsKeys(evs: seq<Event>)
    ensures forall p :: p in Results(evs) <==> exists i :: 0 <= i < |evs| && evs[i].Fetched? && evs[i].productId == p
  {
    if |evs| > 0 {
      var init := evs[..|evs| - 1];
      ResultsKeys(init);
      forall p | p in Results(evs)
        ensures exists i :: 0 <= i < |evs| && evs[i].Fetched? && evs[i].productId == p
      {
        if p in Results(init) {
          var i :| 0 <= i < |init| && init[i].Fetched? && init[i].productId == p;
          assert evs[i] == init[i];
        }
      }
      forall p, i | 0 <= i < |evs| && evs[i].Fetched? && evs[i].productId == p
        ensures p in Results(evs)
      {
        if i < |init| {
          assert init[i] == evs[i];
        }
      }
    }
  }

  /** A later result for the same id overwrites an earlier one: the map holds the last book received for each id. */
  lemma {:induction false} LastResultWins(evs: seq<Event>, i: nat)
    requires i < |evs| && evs[i].Fetched?
    requires forall j :: i < j < |evs| && evs[j].Fetched? ==> evs[j].productId != evs[i].productId
    ensures evs[i].productId in Results(evs) && Results(evs)[evs[i].productId] == evs[i].book
  {
    var init := evs[..|evs| - 1];
    if i < |evs| - 1 {
      forall j | i < j < |init| && init[j].Fetched?
        ensures init[j].productId != init[i].productId
      {
        assert init[j] == evs[j];
      }
      LastResultWins(init, i);
    }
  }

  /** Errors are kept in the order they arrive. */
  lemma {:induction false} ErrorsInArrivalOrder(a: seq<Event>, b: seq<Event>)
    ensures Errors(a + b) == Errors(a) + Errors(b)
    decreases |b|
  {
    if |b| > 0 {
      var c := a + b;
      assert c[..|c| - 1] == a + b[..|b| - 1];
      ErrorsInArrivalOrder(a, b[..|b| - 1]);
    } else {
      assert a + b == a;
    }
  }

  /** With no ids requested, the aggregator never hands anything over: after any result the map has a key. */
  lemma NeverStopsOnEmptyRequest(evs: seq<Event>, k: nat)
    ensures !Stops(0, evs, k)
  {
  }

  function IdSet(ids: seq<string>): set<string>
  {
    set i | 0 <= i < |ids| :: ids[i]
  }

  lemma {:induction false} SubsetCard(a: set<string>, b: set<string>)
    requires a <= b
    ensures |a| <= |b|
    decreases |a|
  {
    if a != {} {
      var x :| x in a;
      SubsetCard(a - {x}, b - {x});
    }
  }

  /** A list of ids has at most as many distinct entries as entries, and exactly as many when none repeats. */
  lemma {:induction false} IdSetCard(ids: seq<string>)
    ensures |IdSet(ids)| <= |ids|
    ensures Dispatch.Distinct(ids) <==> |IdSet(ids)| == |ids|
  {
    if |ids| > 0 {
      var init := ids[..|ids| - 1];
      var last := ids[|ids| - 1];
      IdSetCard(init);
      assert IdSet(ids) == IdSet(init) + {last} by {
        forall p | p in IdSet(ids) ensures p in IdSet(init) + {last} {
          var i :| 0 <= i < |ids| && ids[i] == p;
          if i < |init| { assert init[i] == p; }
        }
        forall p | p in IdSet(init) ensures p in IdSet(ids) {
          var i :| 0 <= i < |init| && init[i] == p;
          assert ids[i] == p;
        }
      }
      if last in IdSet(init) {
        var i :| 0 <= i < |init| && init[i] == last;
        assert ids[i] == ids[|ids| - 1];
      } else {
        if !Dispatch.Distinct(ids) {
          var i, j :| 0 <= i < j < |ids| && ids[i] == ids[j];
          if j < |ids| - 1 {
            assert init[i] == init[j];
          }
        }
      }
    }
  }

  /** Every result in `evs` is for some id in `allowed`. */
  predicate ResultsWithin(evs: seq<Event>, allowed: set<string>)
  {
    forall i :: 0 <= i < |evs| && evs[i].Fetched? ==> evs[i].productId in allowed
  }

  /** The keys of the map after some prefix of the events come from the results in the prefix. */
  lemma PrefixKeysWithin(evs: seq<Event>, k: nat, allowed: set<string>)
    requires k <= |evs| && ResultsWithin(evs, allowed)
    ensures |Results(evs[..k])| <= |allowed|
  {
    ResultsKeys(evs[..k]);
    assert Results(evs[..k]).Keys <= allowed by {
      forall p | p in Results(evs[..k]) ensures p in allowed {
        var i :| 0 <= i < k && evs[..k][i].Fetched? && evs[..k][i].productId == p;
        assert evs[i] == evs[..k][i];
      }
    }
    SubsetCard(Results(evs[..k]).Keys, allowed);
  }

  /**
   * When the requested ids repeat one another, the aggregator never hands
   * anything over, however many results arrive for those ids.
   */
  lemma NeverStopsWithDuplicates(ids: seq<string>, evs: seq<Event>, k: nat)
    requires !Dispatch.Distinct(ids) && ResultsWithin(evs, IdSet(ids))
    ensures !Stops(|ids|, evs, k)
  {
    IdSetCard(ids);
    if 1 <= k <= |evs| {
      PrefixKeysWithin(evs, k, IdSet(ids));
    }
  }

  /** Whether some result in `evs` is for product `p`. */
  predicate Reported(evs: seq<Event>, p: string)
  {
    exists i :: 0 <= i < |evs| && evs[i].Fetched? && evs[i].productId == p
  }

  /** The position just past the last result in `evs`, or 0 when there is none. */
  function EndOfResults(evs: seq<Event>): (k: nat)
    ensures k <= |evs|
    ensures k > 0 ==> evs[k - 1].Fetched?
    ensures forall i :: k <= i < |evs| ==> evs[i].Failed?
  {
    if |evs| == 0 || evs[|evs| - 1].Fetched? then |evs| else EndOfResults(evs[..|evs| - 1])
  }

  /**
   * With distinct ids, results only for those ids, and a result for each of
   * them, the aggregator reaches its stopping point and hands its map over.
   */
  lemma StopsWhenEveryIdReported(ids: seq<string>, evs: seq<Event>)
    requires |ids| > 0 && Dispatch.Distinct(ids) && ResultsWithin(evs, IdSet(ids))
    requires forall j :: 0 <= j < |ids| ==> Reported(evs, ids[j])
    ensures exists k :: Stops(|ids|, evs, k)
  {
    var k := EndOfResults(evs);
    IdSetCard(ids);
    ResultsKeys(evs[..k]);
    assert Results(evs[..k]).Keys == IdSet(ids) by {
      forall p | p in IdSet(ids) ensures p in Results(evs[..k]) {
        var j :| 0 <= j < |ids| && ids[j] == p;
        var i :| 0 <= i < |evs| && evs[i].Fetched? && evs[i].productId == ids[j];
        assert evs[..k][i] == evs[i];
      }
      forall p | p in Results(evs[..k]) ensures p in IdSet(ids) {
        var i :| 0 <= i < k && evs[..k][i].Fetched? && evs[..k][i].productId == p;
        assert evs[i] == evs[..k][i];
      }
    }
    assert Stops(|ids|, evs, k);
  }

  /**
   * As written, with five or more distinct ids and results arriving only for
   * the products the dispatch loop fetches, the aggregator never hands
   * anything over: the last id is never fetched, so the map never has a key
   * for every id.
   */
  lemma AsWrittenNeverStops(ids: seq<string>, evs: seq<Event>, k: nat)
    requires Dispatch.Distinct(ids) && |ids| >= 5
    requires forall i :: 0 <= i < |evs| && evs[i].Fetched? ==>
               Dispatch.Dispatched(Dispatch.ScheduleAsWritten(ids), evs[i].productId)
    ensures !Stops(|ids|, evs, k)
  {
    var last := ids[|ids| - 1];
    var allowed := IdSet(ids[..|ids| - 1]);
    Dispatch.AsWrittenMissesLast(ids);
    forall i | 0 <= i < |evs| && evs[i].Fetched?
      ensures evs[i].productId in allowed
    {
      var r :| 0 <= r < |Dispatch.ScheduleAsWritten(ids)| && evs[i].productId in Dispatch.ScheduleAsWritten(ids)[r];
      var m :| 0 <= m < |Dispatch.ScheduleAsWritten(ids)[r]| && Dispatch.ScheduleAsWritten(ids)[r][m] == evs[i].productId;
      assert ids[r + m] == evs[i].productId;
      assert ids[..|ids| - 1][r + m] == ids[r + m];
    }
    IdSetCard(ids[..|ids| - 1]);
    if 1 <= k <= |evs| {
      PrefixKeysWithin(evs, k, allowed);
    }
  }

  /**
   * With the corrected schedule, distinct ids and a result for every fetch
   * it makes, the aggregator reaches its stopping point.
   */
  lemma ChunkedStops(ids: seq<string>, evs: seq<Event>)
    requires |ids| > 0 && Dispatch.Distinct(ids) && ResultsWithin(evs, IdSet(ids))
    requires forall p :: Dispatch.Dispatched(Dispatch.ScheduleChunked(ids), p) ==> Reported(evs, p)
    ensures exists k :: Stops(|ids|, evs, k)
  {
    Dispatch.ChunkedCoversOnce(ids);
    StopsWhenEveryIdReported(ids, evs);
  }

  /**
   * The events the fetches of a list of products send, one fetch after
   * another, fetch `j` of `ps[j]` having outcome `outs[j]`.
   */
  function Arrivals(ps: seq<string>, outs: seq<Result<OrderBook, string>>): seq<Event>
    requires |ps| == |outs|
  {
    if |ps| == 0 then []
    else Arrivals(ps[..|ps| - 1], outs[..|outs| - 1]) + FetchEvents(ps[|ps| - 1], outs[|outs| - 1])
  }

  /** The errors of the failed outcomes, in order. */
  function FailureErrors(outs: seq<Result<OrderBook, string>>): seq<string>
  {
    if |outs| == 0 then []
    else
      var last := outs[|outs| - 1];
      FailureErrors(outs[..|outs| - 1]) + (if last.Err? then [last.error] else [])
  }

  /**
   * Every fetch, failed or not, reports a result for its product, and the
   * results are only for the fetched products; the errors are those of the
   * failed fetches, in fetch order.
   */
  lemma {:induction false} ArrivalsReport(ps: seq<string>, outs: seq<Result<OrderBook, string>>)
    requires |ps| == |outs|
    ensures forall j :: 0 <= j < |ps| ==> Reported(Arrivals(ps, outs), ps[j])
    ensures ResultsWithin(Arrivals(ps, outs), IdSet(ps))
    ensures Errors(Arrivals(ps, outs)) == FailureErrors(outs)
  {
    if |ps| > 0 {
      var init, initOuts := ps[..|ps| - 1], outs[..|outs| - 1];
      var p, out := ps[|ps| - 1], outs[|outs| - 1];
      var before := Arrivals(init, initOuts);
      var fetch := FetchEvents(p, out);
      var evs := Arrivals(ps, outs);
      ArrivalsReport(init, initOuts);
      forall j | 0 <= j < |ps|
        ensures Reported(evs, ps[j])
      {
        if j < |init| {
          assert Reported(before, init[j]);
          var i :| 0 <= i < |before| && before[i].Fetched? && before[i].productId == init[j];
          assert evs[i] == before[i];
        } else {
          assert evs[|evs| - 1] == fetch[|fetch| - 1];
        }
      }
      forall i | 0 <= i < |evs| && evs[i].Fetched?
        ensures evs[i].productId in IdSet(ps)
      {
        if i < |before| {
          assert evs[i] == before[i];
          var m :| 0 <= m < |init| && init[m] == evs[i].productId;
          assert ps[m] == init[m];
        } else {
          assert evs[i] == fetch[i - |before|];
          assert ps[|ps| - 1] == p;
        }
      }
      ErrorsInArrivalOrder(before, fetch);
      if out.Err? {
        assert fetch == [Failed(out.error)] + [Fetched(p, None)];
        ErrorsInArrivalOrder([Failed(out.error)], [Fetched(p, None)]);
        assert Errors([Failed(out.error)]) == [] + [out.error];
      }
    }
  }

  /**
   * With the corrected schedule and distinct ids, the aggregator finishes
   * whatever the fetches' outcomes: a failed fetch still reports a result
   * for its product, so every product gets a key.
   */
  lemma ChunkedFetchesComplete(ids: seq<string>, outs: seq<Result<OrderBook, string>>)
    requires |ids| > 0 && Dispatch.Distinct(ids) && |outs| == |ids|
    ensures Dispatch.Flatten(Dispatch.ScheduleChunked(ids)) == ids
    ensures exists k :: Stops(|ids|, Arrivals(Dispatch.Flatten(Dispatch.ScheduleChunked(ids)), outs), k)
  {
    Dispatch.ChunkedCoversOnce(ids);
    ArrivalsReport(ids, outs);
    StopsWhenEveryIdReported(ids, Arrivals(ids, outs));
  }

  /**
   * As written, with five or more distinct ids, the aggregator never
   * finishes, whatever the outcomes of the fetches the schedule makes.
   */
  lemma AsWrittenFetchesNeverComplete(ids: seq<string>, outs: seq<Result<OrderBook, string>>, k: nat)
    requires Dispatch.Distinct(ids) && |ids| >= 5
    requires |outs| == |Dispatch.Flatten(Dispatch.ScheduleAsWritten(ids))|
    ensures !Stops(|ids|, Arrivals(Dispatch.Flatten(Dispatch.ScheduleAsWritten(ids)), outs), k)
  {
    var rounds := Dispatch.ScheduleAsWritten(ids);
    var fetched := Dispatch.Flatten(rounds);
    var evs := Arrivals(fetched, outs);
    ArrivalsReport(fetched, outs);
    Dispatch.FlattenDispatched(rounds);
    forall i | 0 <= i < |evs| && evs[i].Fetched?
      ensures Dispatch.Dispatched(rounds, evs[i].productId)
    {
      var m :| 0 <= m < |fetched| && fetched[m] == evs[i].productId;
    }
    AsWrittenNeverStops(ids, evs, k);
  }
}

/**
 * Turning an order-book snapshot into rows of the `snapshots` table
 * (database.go, `batchInsertSnapshot`, `insertSnapshot` and their inner
 * `parseBidAsk`).  Bids are processed before asks, each side in its own
 * order; a level that does not parse stops the work at that level.
 */
module SnapshotRows {
  import opened Wrappers
  import opened Store

  /** One product's order book as received: each level is `[price, size, order_id]` as strings. */
  datatype Snapshot = Snapshot(productId: string, sequence: int, bids: seq<seq<string>>, asks: seq<seq<string>>)

  datatype Side = Bid | Ask
  {
    /** The `bid_ask` column value. */
    function Tag(): string
    {
      match this
      case Bid => "bid"
      case Ask => "ask"
    }
  }

  datatype ParsedBidAsk = ParsedBidAsk(price: real, size: real, orderId: string)

  /**
   * Why a level could not be parsed.  `IndexOutOfRange(i)` stands for the Go
   * runtime panic of reading element `i` of a level that is too short.
   */
  datatype LevelFault = PriceNotNumber | SizeNotNumber | IndexOutOfRange(index: nat)

  datatype SnapshotError =
    | ParseFailed(side: Side, index: nat, fault: LevelFault)   // "could not parse bid/ask"
    | InsertFailed(side: Side, index: nat)                     // "could not insert bid/ask"
    | BulkInsertFailed                                          // the bulk `db.Exec` failed

  /**
   * `parseBidAsk`: element 0 is read and parsed as the price, then element 1
   * as the size, then element 2 is taken verbatim as the order id.  `parse`
   * stands for `strconv.ParseFloat`.
   */
  function ParseBidAsk(parse: string -> Option<real>, vals: seq<string>): (r: Result<ParsedBidAsk, LevelFault>)
    ensures r.Ok? <==> |vals| >= 3 && parse(vals[0]).Some? && parse(vals[1]).Some?
    ensures r.Ok? ==> r.value == ParsedBidAsk(parse(vals[0]).value, parse(vals[1]).value, vals[2])
    // the price is examined before the size, and the size before the order id
    ensures r == Err(PriceNotNumber) <==> |vals| >= 1 && parse(vals[0]).None?
    ensures r == Err(SizeNotNumber) <==> |vals| >= 2 && parse(vals[0]).Some? && parse(vals[1]).None?
    // a level too short for the next element read faults at that element
    ensures r.Err? && r.error.IndexOutOfRange? <==>
              |vals| == 0 || (parse(vals[0]).Some? && (|vals| == 1 || (parse(vals[1]).Some? && |vals| == 2)))
    ensures r.Err? && r.error.IndexOutOfRange? ==> r.error.index == |vals| < 3
  {
    if |vals| < 1 then Err(IndexOutOfRange(0))
    else match parse(vals[0])
      case None => Err(PriceNotNumber)
      case Some(price) =>
        if |vals| < 2 then Err(IndexOutOfRange(1))
        else match parse(vals[1])
          case None => Err(SizeNotNumber)
          case Some(size) =>
            if |vals| < 3 then Err(IndexOutOfRange(2))
            else Ok(ParsedBidAsk(price, size, vals[2]))
  }

  /** The six values bound for one level: product id, sequence, side tag, price, size, order id. */
  function SnapshotRow(productId: string, sequence: int, side: Side, b: ParsedBidAsk): seq<SqlValue>
  {
    [Text(productId), Integer(sequence), Text(side.Tag()), Decimal(b.price), Decimal(b.size), Text(b.orderId)]
  }

  /** Every level of a side parses. */
  predicate AllParse(parse: string -> Option<real>, levels: seq<seq<string>>)
  {
    forall j :: 0 <= j < |levels| ==> ParseBidAsk(parse, levels[j]).Ok?
  }

  /** The row of a level that parses. */
  function LevelRow(parse: string -> Option<real>, productId: string, sequence: int, side: Side, vals: seq<string>)
    : seq<SqlValue>
    requires ParseBidAsk(parse, vals).Ok?
  {
    SnapshotRow(productId, sequence, side, ParseBidAsk(parse, vals).value)
  }

  /**
   * The rows for the first `k` levels of one side, in order, or the error of
   * the first of them that does not parse.
   */
  function SideRows(parse: string -> Option<real>, productId: string, sequence: int, side: Side,
                    levels: seq<seq<string>>, k: nat): Result<seq<seq<SqlValue>>, SnapshotError>
    requires k <= |levels|
  {
    if k == 0 then Ok([])
    else
      match SideRows(parse, productId, sequence, side, levels, k - 1)
      case Err(e) => Err(e)
      case Ok(rows) =>
        match ParseBidAsk(parse, levels[k - 1])
        case Err(f) => Err(ParseFailed(side, k - 1, f))
        case Ok(b) => Ok(rows + [SnapshotRow(productId, sequence, side, b)])
  }

  /** The rows `batchInsertSnapshot` builds: every bid row, then every ask row, unless some level fails. */
  function SnapshotRowsOf(parse: string -> Option<real>, s: Snapshot): Result<seq<seq<SqlValue>>, SnapshotError>
  {
    match SideRows(parse, s.productId, s.sequence, Bid, s.bids, |s.bids|)
    case Err(e) => Err(e)
    case Ok(bidRows) =>
      match SideRows(parse, s.productId, s.sequence, Ask, s.asks, |s.asks|)
      case Err(e) => Err(e)
      case Ok(askRows) => Ok(bidRows + askRows)
  }

  /** Once the first `k` levels of a side fail, every longer run fails with the same error. */
  lemma {:induction false} SideRowsErrorPersists(parse: string -> Option<real>, productId: string, sequence: int,
                                                 side: Side, levels: seq<seq<string>>, k: nat, m: nat)
    requires k <= m <= |levels| && SideRows(parse, productId, sequence, side, levels, k).Err?
    ensures SideRows(parse, productId, sequence, side, levels, m) == SideRows(parse, productId, sequence, side, levels, k)
  {
    if k < m {
      SideRowsErrorPersists(parse, productId, sequence, side, levels, k, m - 1);
    }
  }

  /**
   * The rows for a side are one row per level, in input order, each carrying
   * the product id, the sequence, the side tag, the parsed price and size,
   * and the order id verbatim.
   */
  lemma {:induction false} SideRowsShape(parse: string -> Option<real>, productId: string, sequence: int,
                                         side: Side, levels: seq<seq<string>>, k: nat)
    requires k <= |levels| && SideRows(parse, productId, sequence, side, levels, k).Ok?
    ensures |SideRows(parse, productId, sequence, side, levels, k).value| == k
    ensures forall j :: 0 <= j < k ==>
              ParseBidAsk(parse, levels[j]).Ok? &&
              SideRows(parse, productId, sequence, side, levels, k).value[j]
                == LevelRow(parse, productId, sequence, side, levels[j])
  {
    if k > 0 {
      SideRowsShape(parse, productId, sequence, side, levels, k - 1);
    }
  }

  /** A side yields rows exactly when each of its levels parses. */
  lemma {:induction false} SideRowsOkIff(parse: string -> Option<real>, productId: string, sequence: int,
                                         side: Side, levels: seq<seq<string>>, k: nat)
    requires k <= |levels|
    ensures SideRows(parse, productId, sequence, side, levels, k).Ok? <==>
              forall j :: 0 <= j < k ==> ParseBidAsk(parse, levels[j]).Ok?
  {
    if k > 0 {
      SideRowsOkIff(parse, productId, sequence, side, levels, k - 1);
      if SideRows(parse, productId, sequence, side, levels, k - 1).Ok? {
        SideRowsShape(parse, productId, sequence, side, levels, k - 1);
      }
    }
  }

  /** A side's failure names its first level that does not parse, and why. */
  lemma {:induction false} SideRowsFirstFailure(parse: string -> Option<real>, productId: string, sequence: int,
                                                side: Side, levels: seq<seq<string>>, k: nat)
    requires k <= |levels| && SideRows(parse, productId, sequence, side, levels, k).Err?
    ensures var e := SideRows(parse, productId, sequence, side, levels, k).error;
            e.ParseFailed? && e.side == side && e.index < k &&
            ParseBidAsk(parse, levels[e.index]) == Err(e.fault) &&
            forall j :: 0 <= j < e.index ==> ParseBidAsk(parse, levels[j]).Ok?
  {
    if SideRows(parse, productId, sequence, side, levels, k - 1).Err? {
      SideRowsFirstFailure(parse, productId, sequence, side, levels, k - 1);
    } else {
      SideRowsShape(parse, productId, sequence, side, levels, k - 1);
    }
  }

  /**
   * `batchInsertSnapshot` on a snapshot whose levels all parse: one row per
   * bid, then one row per ask, each side in input order, every row tagged
   * with its side and carrying the snapshot's product id and sequence.
   */
  lemma SnapshotRowsLayout(parse: string -> Option<real>, s: Snapshot)
    requires SnapshotRowsOf(parse, s).Ok?
    ensures var rows := SnapshotRowsOf(parse, s).value;
      |rows| == |s.bids| + |s.asks| &&
      (forall k :: 0 <= k < |s.bids| ==>
         ParseBidAsk(parse, s.bids[k]).Ok? && rows[k] == LevelRow(parse, s.productId, s.sequence, Bid, s.bids[k])) &&
      (forall k :: 0 <= k < |s.asks| ==>
         ParseBidAsk(parse, s.asks[k]).Ok? &&
         rows[|s.bids| + k] == LevelRow(parse, s.productId, s.sequence, Ask, s.asks[k]))
  {
    SideRowsShape(parse, s.productId, s.sequence, Bid, s.bids, |s.bids|);
    SideRowsShape(parse, s.productId, s.sequence, Ask, s.asks, |s.asks|);
  }

  /**
   * `batchInsertSnapshot` fails exactly when some bid or ask does not parse;
   * the error names the first such level, looking at every bid before any ask.
   */
  lemma SnapshotRowsFailure(parse: string -> Option<real>, s: Snapshot)
    ensures SnapshotRowsOf(parse, s).Ok? <==> AllParse(parse, s.bids) && AllParse(parse, s.asks)
    ensures SnapshotRowsOf(parse, s).Err? ==>
              var e := SnapshotRowsOf(parse, s).error;
              e.ParseFailed? &&
              var levels := if e.side == Bid then s.bids else s.asks;
              e.index < |levels| && ParseBidAsk(parse, levels[e.index]) == Err(e.fault) &&
              (forall j :: 0 <= j < e.index ==> ParseBidAsk(parse, levels[j]).Ok?) &&
              (e.side == Ask ==> AllParse(parse, s.bids))
  {
    SideRowsOkIff(parse, s.productId, s.sequence, Bid, s.bids, |s.bids|);
    SideRowsOkIff(parse, s.productId, s.sequence, Ask, s.asks, |s.asks|);
    if SideRows(parse, s.productId, s.sequence, Bid, s.bids, |s.bids|).Err? {
      SideRowsFirstFailure(parse, s.productId, s.sequence, Bid, s.bids, |s.bids|);
    } else if SideRows(parse, s.productId, s.sequence, Ask, s.asks, |s.asks|).Err? {
      SideRowsFirstFailure(parse, s.productId, s.sequence, Ask, s.asks, |s.asks|);
    }
  }

  /**
   * One of the two loops of `batchInsertSnapshot` (they differ only in the
   * side tag): a value tuple per level, returning at the first level that
   * does not parse.
   */
  method SideValues(parse: string -> Option<real>, productId: string, sequence: int, side: Side,
                    levels: seq<seq<string>>)
    returns (r: Result<seq<seq<SqlValue>>, SnapshotError>)
    ensures r == SideRows(parse, productId, sequence, side, levels, |levels|)
  {
    var values := [];
    for i := 0 to |levels|
      invariant SideRows(parse, productId, sequence, side, levels, i) == Ok(values)
    {
      var b := ParseBidAsk(parse, levels[i]);
      if b.Err? {
        SideRowsErrorPersists(parse, productId, sequence, side, levels, i + 1, |levels|);
        return Err(ParseFailed(side, i, b.error));
      }
      values := values + [SnapshotRow(productId, sequence, side, b.value)];
    }
    return Ok(values);
  }

  /** The value tuples of `batchInsertSnapshot`: the bid loop, then the ask loop. */
  method BuildSnapshotValues(parse: string -> Option<real>, s: Snapshot)
    returns (r: Result<seq<seq<SqlValue>>, SnapshotError>)
    ensures r == SnapshotRowsOf(parse, s)
  {
    var bidRows := SideValues(parse, s.productId, s.sequence, Bid, s.bids);
    if bidRows.Err? {
      return Err(bidRows.error);
    }
    var askRows := SideValues(parse, s.productId, s.sequence, Ask, s.asks);
    if askRows.Err? {
      return Err(askRows.error);
    }
    return Ok(bidRows.value + askRows.value);
  }

  /**
   * `batchInsertSnapshot`: all rows in one insert, or, if any level fails to
   * parse, an error and no write at all.
   */
  method BatchInsertSnapshot(db: Database, parse: string -> Option<real>, s: Snapshot)
    returns (r: Result<Receipt, SnapshotError>)
    modifies db
    ensures SnapshotRowsOf(parse, s).Err? ==>
              r == Err(SnapshotRowsOf(parse, s).error) && db.committed == old(db.committed)
    ensures SnapshotRowsOf(parse, s).Ok? ==>
              var st := Insert(Snapshots, SnapshotRowsOf(parse, s).value);
              (r.Ok? <==> db.accepts(st)) &&
              (r.Err? ==> r.error == BulkInsertFailed) &&
              db.committed == if db.accepts(st) then old(db.committed) + [st] else old(db.committed)
  {
    var values := BuildSnapshotValues(parse, s);
    if values.Err? {
      return Err(values.error);
    }
    var ok, receipt := db.Exec(Insert(Snapshots, values.value));
    if !ok {
      return Err(BulkInsertFailed);
    }
    return Ok(receipt);
  }

  /** What `insertSnapshot` leaves behind: the single-row inserts committed, and the error it stopped at. */
  datatype InsertRun = InsertRun(written: seq<Statement>, error: Option<SnapshotError>)

  /**
   * `insertSnapshot` over the first `k` levels of one side: one prepared
   * insert per level, stopping at the first parse or insert failure.
   */
  function SideInserts(accepts: Statement -> bool, parse: string -> Option<real>, productId: string, sequence: int,
                       side: Side, levels: seq<seq<string>>, k: nat): InsertRun
    requires k <= |levels|
  {
    if k == 0 then InsertRun([], None)
    else
      var run := SideInserts(accepts, parse, productId, sequence, side, levels, k - 1);
      if run.error.Some? then run
      else match ParseBidAsk(parse, levels[k - 1])
        case Err(f) => InsertRun(run.written, Some(ParseFailed(side, k - 1, f)))
        case Ok(b) =>
          var st := Insert(Snapshots, [SnapshotRow(productId, sequence, side, b)]);
          if accepts(st) then InsertRun(run.written + [st], None)
          else InsertRun(run.written, Some(InsertFailed(side, k - 1)))
  }

  /** `insertSnapshot`: the bids, then, if they all went in, the asks. */
  function InsertRunOf(accepts: Statement -> bool, parse: string -> Option<real>, s: Snapshot): InsertRun
  {
    var bids := SideInserts(accepts, parse, s.productId, s.sequence, Bid, s.bids, |s.bids|);
    if bids.error.Some? then bids
    else
      var asks := SideInserts(accepts, parse, s.productId, s.sequence, Ask, s.asks, |s.asks|);
      InsertRun(bids.written + asks.written, asks.error)
  }

  lemma {:induction false} SideInsertsErrorPersists(accepts: Statement -> bool, parse: string -> Option<real>,
                                                    productId: string, sequence: int, side: Side,
                                                    levels: seq<seq<string>>, k: nat, m: nat)
    requires k <= m <= |levels| && SideInserts(accepts, parse, productId, sequence, side, levels, k).error.Some?
    ensures SideInserts(accepts, parse, productId, sequence, side, levels, m)
            == SideInserts(accepts, parse, productId, sequence, side, levels, k)
  {
    if k < m {
      SideInsertsErrorPersists(accepts, parse, productId, sequence, side, levels, k, m - 1);
    }
  }

  /** Whether `insertSnapshot` stopped at level `c` of a side, for the reason the error gives. */
  predicate StoppedAt(accepts: Statement -> bool, parse: string -> Option<real>, productId: string, sequence: int,
                      side: Side, levels: seq<seq<string>>, c: nat, e: SnapshotError)
  {
    c < |levels| &&
    match e
    case ParseFailed(eside, index, f) => eside == side && index == c && ParseBidAsk(parse, levels[c]) == Err(f)
    case InsertFailed(eside, index) =>
      eside == side && index == c && ParseBidAsk(parse, levels[c]).Ok? &&
      !accepts(Insert(Snapshots, [LevelRow(parse, productId, sequence, side, levels[c])]))
    case BulkInsertFailed => false
  }

  /**
   * On one side, `insertSnapshot` writes the levels before the failing one
   * and nothing after: the committed inserts are one per level of a prefix;
   * on success the prefix is every level, on failure the error names the
   * level just past it and says why it stopped there.
   */
  lemma {:induction false} SideInsertsPrefix(accepts: Statement -> bool, parse: string -> Option<real>,
                                             productId: string, sequence: int, side: Side,
                                             levels: seq<seq<string>>, k: nat)
    requires k <= |levels|
    ensures var run := SideInserts(accepts, parse, productId, sequence, side, levels, k);
      |run.written| <= k &&
      (forall j :: 0 <= j < |run.written| ==>
         ParseBidAsk(parse, levels[j]).Ok? &&
         run.written[j] == Insert(Snapshots, [LevelRow(parse, productId, sequence, side, levels[j])])) &&
      (run.error.None? ==> |run.written| == k) &&
      (run.error.Some? ==> StoppedAt(accepts, parse, productId, sequence, side, levels, |run.written|, run.error.value))
  {
    if k > 0 {
      SideInsertsPrefix(accepts, parse, productId, sequence, side, levels, k - 1);
    }
  }

  /**
   * `insertSnapshot` stops at the first failing level, bids before asks, and
   * the inserts it leaves committed are exactly those of the levels before it.
   */
  lemma InsertRunStopsAtFailure(accepts: Statement -> bool, parse: string -> Option<real>, s: Snapshot)
    requires InsertRunOf(accepts, parse, s).error.Some?
    ensures var run := InsertRunOf(accepts, parse, s);
      var e := run.error.value;
      !e.BulkInsertFailed? &&
      (e.side == Bid ==>
         |run.written| == e.index &&
         StoppedAt(accepts, parse, s.productId, s.sequence, Bid, s.bids, e.index, e)) &&
      (e.side == Ask ==>
         |run.written| == |s.bids| + e.index &&
         StoppedAt(accepts, parse, s.productId, s.sequence, Ask, s.asks, e.index, e)) &&
      (forall j :: 0 <= j < |run.written| && j < |s.bids| ==>
         ParseBidAsk(parse, s.bids[j]).Ok? &&
         run.written[j] == Insert(Snapshots, [LevelRow(parse, s.productId, s.sequence, Bid, s.bids[j])])) &&
      (forall j :: |s.bids| <= j < |run.written| ==>
         ParseBidAsk(parse, s.asks[j - |s.bids|]).Ok? &&
         run.written[j] == Insert(Snapshots, [LevelRow(parse, s.productId, s.sequence, Ask, s.asks[j - |s.bids|])]))
  {
    var bids := SideInserts(accepts, parse, s.productId, s.sequence, Bid, s.bids, |s.bids|);
    SideInsertsPrefix(accepts, parse, s.productId, s.sequence, Bid, s.bids, |s.bids|);
    if bids.error.None? {
      var asks := SideInserts(accepts, parse, s.productId, s.sequence, Ask, s.asks, |s.asks|);
      SideInsertsPrefix(accepts, parse, s.productId, s.sequence, Ask, s.asks, |s.asks|);
      assert InsertRunOf(accepts, parse, s) == InsertRun(bids.written + asks.written, asks.error);
      assert asks.error.value.side == Ask;
    }
  }

  /** On one side, a run of inserts without error commits the side's rows, one statement per row. */
  lemma {:induction false} SideInsertsMatchSideRows(accepts: Statement -> bool, parse: string -> Option<real>,
                                                    productId: string, sequence: int, side: Side,
                                                    levels: seq<seq<string>>, k: nat)
    requires k <= |levels| && SideInserts(accepts, parse, productId, sequence, side, levels, k).error.None?
    ensures SideRows(parse, productId, sequence, side, levels, k).Ok?
    ensures var rows := SideRows(parse, productId, sequence, side, levels, k).value;
            var written := SideInserts(accepts, parse, productId, sequence, side, levels, k).written;
            |written| == |rows| == k && forall j :: 0 <= j < k ==> written[j] == Insert(Snapshots, [rows[j]])
  {
    if k > 0 {
      SideInsertsMatchSideRows(accepts, parse, productId, sequence, side, levels, k - 1);
    }
  }

  /**
   * When every level parses and every insert is accepted, `insertSnapshot`
   * commits exactly the rows `batchInsertSnapshot` builds, one statement per row.
   */
  lemma InsertRunMatchesBatchRows(accepts: Statement -> bool, parse: string -> Option<real>, s: Snapshot)
    requires InsertRunOf(accepts, parse, s).error.None?
    ensures SnapshotRowsOf(parse, s).Ok?
    ensures var rows := SnapshotRowsOf(parse, s).value;
            var written := InsertRunOf(accepts, parse, s).written;
            |written| == |rows| && forall k :: 0 <= k < |rows| ==> written[k] == Insert(Snapshots, [rows[k]])
  {
    SideInsertsMatchSideRows(accepts, parse, s.productId, s.sequence, Bid, s.bids, |s.bids|);
    SideInsertsMatchSideRows(accepts, parse, s.productId, s.sequence, Ask, s.asks, |s.asks|);
  }

  /**
   * One of the two loops of `insertSnapshot`: each level of the side is
   * parsed and inserted on its own; the first parse or insert error ends
   * the loop, with the inserts made so far left committed.
   */
  method InsertSide(db: Database, parse: string -> Option<real>, productId: string, sequence: int,
                    side: Side, levels: seq<seq<string>>)
    returns (r: Result<seq<Receipt>, SnapshotError>)
    modifies db
    ensures var run := SideInserts(db.accepts, parse, productId, sequence, side, levels, |levels|);
      db.committed == old(db.committed) + run.written &&
      (run.error.Some? ==> r == Err(run.error.value)) &&
      (run.error.None? ==>
         r.Ok? && |r.value| == |levels| == |run.written| &&
         forall k :: 0 <= k < |levels| ==> r.value[k] == Receipt(|old(db.committed)| + k))
  {
    ghost var written: seq<Statement> := [];
    var results := [];
    for i := 0 to |levels|
      invariant db.committed == old(db.committed) + written
      invariant SideInserts(db.accepts, parse, productId, sequence, side, levels, i) == InsertRun(written, None)
      invariant |results| == i == |written|
      invariant forall k :: 0 <= k < i ==> results[k] == Receipt(|old(db.committed)| + k)
    {
      var b := ParseBidAsk(parse, levels[i]);
      if b.Err? {
        SideInsertsErrorPersists(db.accepts, parse, productId, sequence, side, levels, i + 1, |levels|);
        return Err(ParseFailed(side, i, b.error));
      }
      var st := Insert(Snapshots, [SnapshotRow(productId, sequence, side, b.value)]);
      var ok, receipt := db.Exec(st);
      if !ok {
        SideInsertsErrorPersists(db.accepts, parse, productId, sequence, side, levels, i + 1, |levels|);
        return Err(InsertFailed(side, i));
      }
      written := written + [st];
      results := results + [receipt];
    }
    return Ok(results);
  }

  /**
   * `insertSnapshot`: one prepared insert per level, bids then asks; it
   * returns at the first parse or insert error, leaving the earlier inserts
   * committed, and otherwise returns one result per level in order.
   */
  method InsertSnapshot(db: Database, parse: string -> Option<real>, s: Snapshot)
    returns (r: Result<seq<Receipt>, SnapshotError>)
    modifies db
    ensures var run := InsertRunOf(db.accepts, parse, s);
      db.committed == old(db.committed) + run.written &&
      (run.error.Some? ==> r == Err(run.error.value)) &&
      (run.error.None? ==>
         r.Ok? && |r.value| == |s.bids| + |s.asks| &&
         forall k :: 0 <= k < |r.value| ==> r.value[k] == Receipt(|old(db.committed)| + k))
  {
    ghost var before := |db.committed|;
    var bidResults := InsertSide(db, parse, s.productId, s.sequence, Bid, s.bids);
    if bidResults.Err? {
      return Err(bidResults.error);
    }
    ghost var between := |db.committed|;
    assert between == before + |s.bids|;
    var askResults := InsertSide(db, parse, s.productId, s.sequence, Ask, s.asks);
    if askResults.Err? {
      return Err(askResults.error);
    }
    r := Ok(bidResults.value + askResults.value);
    forall k | |s.bids| <= k < |r.value|
      ensures r.value[k] == Receipt(before + k)
    {
      assert r.value[k] == askResults.value[k - |s.bids|];
    }
  }
}

/**
 * One feed event and the row it becomes in the `messages` table
 * (database.go, `insertMessage` and the tuple built in `batchInsertMessages`).
 */
module MessageRows {
  import opened Wrappers
  import opened Store

  /** A feed event with the twenty fields the pipeline stores. */
  datatype Message = Message(
    kind: string,            // `type`
    productId: string,
    tradeId: int,
    orderId: string,
    sequence: int,
    makerOrderId: string,
    takerOrderId: string,
    time: int,               // exchange timestamp, in nanoseconds since the Unix epoch
    remainingSize: real,
    newSize: real,
    oldSize: real,
    size: real,
    price: real,
    side: string,
    reason: string,
    orderType: string,
    funds: real,
    newFunds: real,
    oldFunds: real,
    text: string             // the embedded `Message.Message`
  )

  /** The column list of every insert into `messages`, in statement order. */
  const MessageColumns: seq<string> := [
    "type", "product_id", "trade_id", "order_id", "sequence", "maker_order_id",
    "taker_order_id", "time", "remaining_size", "new_size", "old_size", "size",
    "price", "side", "reason", "order_type", "funds", "new_funds", "old_funds",
    "message"]

  /** The value a message binds to a named column, independent of column order. */
  function Column(m: Message, name: string): Option<SqlValue>
  {
    match name
    case "type" => Some(Text(m.kind))
    case "product_id" => Some(Text(m.productId))
    case "trade_id" => Some(Integer(m.tradeId))
    case "order_id" => Some(Text(m.orderId))
    case "sequence" => Some(Integer(m.sequence))
    case "maker_order_id" => Some(Text(m.makerOrderId))
    case "taker_order_id" => Some(Text(m.takerOrderId))
    case "time" => Some(Timestamp(m.time))
    case "remaining_size" => Some(Decimal(m.remainingSize))
    case "new_size" => Some(Decimal(m.newSize))
    case "old_size" => Some(Decimal(m.oldSize))
    case "size" => Some(Decimal(m.size))
    case "price" => Some(Decimal(m.price))
    case "side" => Some(Text(m.side))
    case "reason" => Some(Text(m.reason))
    case "order_type" => Some(Text(m.orderType))
    case "funds" => Some(Decimal(m.funds))
    case "new_funds" => Some(Decimal(m.newFunds))
    case "old_funds" => Some(Decimal(m.oldFunds))
    case "message" => Some(Text(m.text))
    case _ => None
  }

  /**
   * The twenty arguments bound for one message, in the order both
   * `insertMessage` and the batch tuple list them.
   */
  function MessageRow(m: Message): (row: seq<SqlValue>)
    ensures |row| == |MessageColumns| == 20
    ensures forall k :: 0 <= k < 20 ==> Column(m, MessageColumns[k]) == Some(row[k])
  {
    [Text(m.kind), Text(m.productId), Integer(m.tradeId), Text(m.orderId),
     Integer(m.sequence), Text(m.makerOrderId), Text(m.takerOrderId),
     Timestamp(m.time), Decimal(m.remainingSize), Decimal(m.newSize),
     Decimal(m.oldSize), Decimal(m.size), Decimal(m.price), Text(m.side),
     Text(m.reason), Text(m.orderType), Decimal(m.funds), Decimal(m.newFunds),
     Decimal(m.oldFunds), Text(m.text)]
  }

  /** Reads a stored `messages` row back into a message, if it has the right shape. */
  function DecodeMessageRow(row: seq<SqlValue>): (r: Option<Message>)
    ensures r.Some? ==> |row| == 20
  {
    if |row| != 20 then None
    else match (row[0], row[1], row[2], row[3], row[4], row[5], row[6], row[7], row[8], row[9])
      case (Text(kind), Text(product), Integer(trade), Text(order), Integer(sequence),
            Text(maker), Text(taker), Timestamp(time), Decimal(remaining), Decimal(newSize)) =>
        (match (row[10], row[11], row[12], row[13], row[14], row[15], row[16], row[17], row[18], row[19])
         case (Decimal(oldSize), Decimal(size), Decimal(price), Text(side), Text(reason),
               Text(orderType), Decimal(funds), Decimal(newFunds), Decimal(oldFunds), Text(text)) =>
           Some(Message(kind, product, trade, order, sequence, maker, taker, time,
                        remaining, newSize, oldSize, size, price, side, reason,
                        orderType, funds, newFunds, oldFunds, text))
         case _ => None)
      case _ => None
  }

  /** Every field of a message survives being stored: the row decodes to the message. */
  lemma MessageRowRoundTrip(m: Message)
    ensures DecodeMessageRow(MessageRow(m)) == Some(m)
  {
  }

  /**
   * The resolution of the time the bulk insert writes: its layout
   * `2006-01-02T15:04:05.0000Z` keeps four fractional digits, 100 µs.
   */
  const BulkTimeResolution: nat := 100000

  /** The instant the bulk insert's time text denotes: the time truncated to 100 µs. */
  function BulkTime(t: int): (r: int)
    ensures r <= t < r + BulkTimeResolution
    ensures r % BulkTimeResolution == 0
  {
    t - t % BulkTimeResolution
  }

  /**
   * The tuple the bulk insert of `batchInsertMessages` writes for one
   * message: the same twenty columns in the same order as `insertMessage`,
   * except that the time is written as text to 100 µs.
   */
  function BulkMessageRow(m: Message): (row: seq<SqlValue>)
    ensures |row| == |MessageColumns|
    ensures forall k :: 0 <= k < 20 ==>
              Column(m.(time := BulkTime(m.time)), MessageColumns[k]) == Some(row[k])
  {
    MessageRow(m.(time := BulkTime(m.time)))
  }

  /**
   * A bulk-inserted row reads back as the message with its time truncated to
   * 100 µs; every other field survives.
   */
  lemma BulkRowRoundTrip(m: Message)
    ensures DecodeMessageRow(BulkMessageRow(m)) == Some(m.(time := BulkTime(m.time)))
  {
    MessageRowRoundTrip(m.(time := BulkTime(m.time)));
  }

  /** The two insert paths store the same row exactly when the time has no digits below 100 µs. */
  lemma BulkRowMatchesPreparedIff(m: Message)
    ensures BulkMessageRow(m) == MessageRow(m) <==> m.time % BulkTimeResolution == 0
  {
    if BulkMessageRow(m) == MessageRow(m) {
      assert BulkMessageRow(m)[7] == MessageRow(m)[7];
    }
  }

  /** `insertMessage`: one prepared insert binding the message's twenty fields. */
  method InsertMessage(db: Database, m: Message) returns (ok: bool, receipt: Receipt)
    modifies db
    ensures ok == db.accepts(Insert(Messages, [MessageRow(m)]))
    ensures db.committed == if ok then old(db.committed) + [Insert(Messages, [MessageRow(m)])]
                            else old(db.committed)
  {
    ok, receipt := db.Exec(Insert(Messages, [MessageRow(m)]));
  }
}

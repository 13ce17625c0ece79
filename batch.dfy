/**
 * The message batch buffer of `batchInsertMessages` (database.go): messages
 * received from the channel are appended to a buffer, and each tick of the
 * one-second ticker writes the whole buffer as one bulk insert and empties it.
 */
module MessageBatch {
  import opened Store
  import opened MessageRows

  /** The rows of one bulk insert: one row per message, in buffer order. */
  function Rows(ms: seq<Message>): (rows: seq<seq<SqlValue>>)
  {
    seq(|ms|, k requires 0 <= k < |ms| => BulkMessageRow(ms[k]))
  }

  /** The loop of the tick branch that turns the buffer into value tuples. */
  method MessageValues(ms: seq<Message>) returns (values: seq<seq<SqlValue>>)
    ensures |values| == |ms|
    ensures forall k :: 0 <= k < |ms| ==> values[k] == BulkMessageRow(ms[k])
  {
    values := [];
    for i := 0 to |ms|
      invariant |values| == i
      invariant forall k :: 0 <= k < i ==> values[k] == BulkMessageRow(ms[k])
    {
      values := values + [BulkMessageRow(ms[i])];
    }
  }

  /** The buffer owned by the batching goroutine. */
  class Batcher {
    var messages: seq<Message>

    constructor ()
      ensures messages == []
    {
      messages := [];
    }

    /** A message received from the channel goes to the end of the buffer. */
    method Push(m: Message)
      modifies this
      ensures messages == old(messages) + [m]
    {
      messages := messages + [m];
    }

    /**
     * A tick: one bulk insert holding exactly the buffered messages in order,
     * then the buffer is reset whatever the outcome, and one outcome is reported.
     * An empty buffer still issues the (empty) insert.
     */
    method Flush(db: Database) returns (ok: bool)
      modifies this, db
      ensures messages == []
      ensures ok == db.accepts(Insert(Messages, Rows(old(messages))))
      ensures db.committed == if ok then old(db.committed) + [Insert(Messages, Rows(old(messages)))]
                              else old(db.committed)
    {
      var values := MessageValues(messages);
      assert values == Rows(messages);
      var receipt;
      ok, receipt := db.Exec(Insert(Messages, values));
      messages := [];
    }
  }

  /**
   * What reaches the batching goroutine, in order: a message it receives, a
   * message taken from the same channel by the draining goroutine, or a tick.
   */
  datatype Delivery = Received(m: Message) | Stolen(m: Message) | Tick

  /** The buffer after a run of deliveries. */
  function Pending(ds: seq<Delivery>): seq<Message>
  {
    if ds == [] then []
    else
      var last := ds[|ds| - 1];
      match last
      case Received(m) => Pending(ds[..|ds| - 1]) + [m]
      case Stolen(_) => Pending(ds[..|ds| - 1])
      case Tick => []
  }

  /** The payload of each tick so far, one per tick, oldest first. */
  function Flushed(ds: seq<Delivery>): seq<seq<Message>>
  {
    if ds == [] then []
    else if ds[|ds| - 1].Tick? then Flushed(ds[..|ds| - 1]) + [Pending(ds[..|ds| - 1])]
    else Flushed(ds[..|ds| - 1])
  }

  /** The messages the batching goroutine received, in order. */
  function Kept(ds: seq<Delivery>): seq<Message>
  {
    if ds == [] then []
    else if ds[|ds| - 1].Received? then Kept(ds[..|ds| - 1]) + [ds[|ds| - 1].m]
    else Kept(ds[..|ds| - 1])
  }

  function Ticks(ds: seq<Delivery>): nat
  {
    if ds == [] then 0
    else Ticks(ds[..|ds| - 1]) + (if ds[|ds| - 1].Tick? then 1 else 0)
  }

  function Concat(batches: seq<seq<Message>>): seq<Message>
  {
    if batches == [] then [] else Concat(batches[..|batches| - 1]) + batches[|batches| - 1]
  }

  /** Exactly one outcome is reported per tick, even for ticks with an empty buffer. */
  lemma {:induction false} OnePayloadPerTick(ds: seq<Delivery>)
    ensures |Flushed(ds)| == Ticks(ds)
  {
    if ds != [] {
      OnePayloadPerTick(ds[..|ds| - 1]);
    }
  }

  /**
   * No received message is lost or written twice: the tick payloads followed
   * by the current buffer are exactly the received messages, in order.
   */
  lemma {:induction false} ReceivedMessagesConserved(ds: seq<Delivery>)
    ensures Concat(Flushed(ds)) + Pending(ds) == Kept(ds)
  {
    if ds != [] {
      var init := ds[..|ds| - 1];
      ReceivedMessagesConserved(init);
      match ds[|ds| - 1]
      case Received(m) =>
        assert Concat(Flushed(ds)) + Pending(ds) == (Concat(Flushed(init)) + Pending(init)) + [m];
      case Stolen(_) =>
      case Tick =>
        assert Concat(Flushed(ds)) == Concat(Flushed(init)) + Pending(init);
    }
  }

  /** The statements the store commits for a list of tick payloads. */
  function CommittedBy(accepts: Statement -> bool, batches: seq<seq<Message>>): seq<Statement>
  {
    if batches == [] then []
    else
      var st := Insert(Messages, Rows(batches[|batches| - 1]));
      CommittedBy(accepts, batches[..|batches| - 1]) + (if accepts(st) then [st] else [])
  }

  /**
   * The batching goroutine's loop over a finite run of deliveries: each
   * tick's outcome is reported, and the store receives exactly the tick payloads.
   */
  method Run(b: Batcher, db: Database, ds: seq<Delivery>) returns (outcomes: seq<bool>)
    requires b.messages == []
    modifies b, db
    ensures b.messages == Pending(ds)
    ensures |outcomes| == |Flushed(ds)|
    ensures forall k :: 0 <= k < |outcomes| ==>
              outcomes[k] == db.accepts(Insert(Messages, Rows(Flushed(ds)[k])))
    ensures db.committed == old(db.committed) + CommittedBy(db.accepts, Flushed(ds))
  {
    outcomes := [];
    for i := 0 to |ds|
      invariant b.messages == Pending(ds[..i])
      invariant |outcomes| == |Flushed(ds[..i])|
      invariant forall k :: 0 <= k < |outcomes| ==>
                  outcomes[k] == db.accepts(Insert(Messages, Rows(Flushed(ds[..i])[k])))
      invariant db.committed == old(db.committed) + CommittedBy(db.accepts, Flushed(ds[..i]))
    {
      assert ds[..i + 1][..i] == ds[..i];
      match ds[i]
      case Received(m) =>
        b.Push(m);
      case Stolen(_) =>
      case Tick =>
        var ok := b.Flush(db);
        outcomes := outcomes + [ok];
    }
    assert ds[..|ds|] == ds;
  }
}

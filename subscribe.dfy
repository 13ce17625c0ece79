/**
 * The subscription request `Subscribe` writes to the websocket feed: a
 * message of type "subscribe" carrying the requested channels, sent as a
 * JSON object whose keys are the struct tags `type`, `channels`, `name` and
 * `product_ids`.
 */
module Subscription {
  import opened Wrappers

  /** A channel to receive, for some products. */
  datatype Channel = Channel(name: string, productIds: seq<string>)

  /** The first message sent to the feed. */
  datatype SubscribeMessage = SubscribeMessage(kind: string, channels: seq<Channel>)

  /** JSON values, as far as the subscription needs them; object members keep their order. */
  datatype Json = JString(s: string) | JArray(items: seq<Json>) | JObject(members: seq<(string, Json)>)

  /**
   * The subscription `Subscribe` builds from the requested channels: the
   * JSON object sent starts with `"type": "subscribe"` and reads back as
   * exactly the requested channels, in order.
   */
  function Subscribe(channels: seq<Channel>): (m: SubscribeMessage)
    ensures m.kind == "subscribe" && m.channels == channels
    ensures ToJson(m).members[0] == ("type", JString("subscribe"))
    ensures FromJson(ToJson(m)) == Some(m)
  {
    ChannelsRoundTrip(channels);
    SubscribeMessage("subscribe", channels)
  }

  function StringsToJson(ss: seq<string>): (items: seq<Json>)
    ensures |items| == |ss|
    ensures forall i :: 0 <= i < |ss| ==> items[i] == JString(ss[i])
  {
    if |ss| == 0 then [] else [JString(ss[0])] + StringsToJson(ss[1..])
  }

  function ChannelToJson(c: Channel): Json
  {
    JObject([("name", JString(c.name)), ("product_ids", JArray(StringsToJson(c.productIds)))])
  }

  function ChannelsToJson(cs: seq<Channel>): (items: seq<Json>)
    ensures |items| == |cs|
  {
    if |cs| == 0 then [] else [ChannelToJson(cs[0])] + ChannelsToJson(cs[1..])
  }

  /** The JSON object written for a subscription, members in declaration order. */
  function ToJson(m: SubscribeMessage): Json
  {
    JObject([("type", JString(m.kind)), ("channels", JArray(ChannelsToJson(m.channels)))])
  }

  function StringsFromJson(items: seq<Json>): Option<seq<string>>
  {
    if |items| == 0 then Some([])
    else match items[0]
      case JString(s) =>
        (match StringsFromJson(items[1..])
         case Some(rest) => Some([s] + rest)
         case None => None)
      case _ => None
  }

  function ChannelFromJson(j: Json): Option<Channel>
  {
    match j
    case JObject(members) =>
      if |members| == 2 && members[0].0 == "name" && members[1].0 == "product_ids" then
        match (members[0].1, members[1].1)
        case (JString(name), JArray(ids)) =>
          (match StringsFromJson(ids)
           case Some(productIds) => Some(Channel(name, productIds))
           case None => None)
        case _ => None
      else None
    case _ => None
  }

  function ChannelsFromJson(items: seq<Json>): Option<seq<Channel>>
  {
    if |items| == 0 then Some([])
    else match ChannelFromJson(items[0])
      case Some(c) =>
        (match ChannelsFromJson(items[1..])
         case Some(rest) => Some([c] + rest)
         case None => None)
      case None => None
  }

  /** Reading a subscription back from its JSON object, as the feed server would. */
  function FromJson(j: Json): Option<SubscribeMessage>
  {
    match j
    case JObject(members) =>
      if |members| == 2 && members[0].0 == "type" && members[1].0 == "channels" then
        match (members[0].1, members[1].1)
        case (JString(kind), JArray(items)) =>
          (match ChannelsFromJson(items)
           case Some(channels) => Some(SubscribeMessage(kind, channels))
           case None => None)
        case _ => None
      else None
    case _ => None
  }

  lemma {:induction false} StringsRoundTrip(ss: seq<string>)
    ensures StringsFromJson(StringsToJson(ss)) == Some(ss)
  {
    if |ss| > 0 {
      StringsRoundTrip(ss[1..]);
      assert [ss[0]] + ss[1..] == ss;
    }
  }

  lemma {:induction false} ChannelsRoundTrip(cs: seq<Channel>)
    ensures ChannelsFromJson(ChannelsToJson(cs)) == Some(cs)
  {
    if |cs| > 0 {
      StringsRoundTrip(cs[0].productIds);
      ChannelsRoundTrip(cs[1..]);
      assert [cs[0]] + cs[1..] == cs;
    }
  }
}

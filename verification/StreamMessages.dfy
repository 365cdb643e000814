/** The order request a gate script appends to an item's stream, and how a consumer reads it back. */
module StreamMessages {
  import opened Text

  /** The names of the fields of a stream message; a reader ignores any other. */
  datatype Field = SchemaVersion | EventType | OrderNo | UserId | ActivityId | ItemId | ReservedAtMs

  type Fields = map<Field, string>

  const SCHEMA_V1: string := "1"
  const EVENT_V1: string := "seckill.order.requested"

  datatype Task = Task(orderNo: string, user: nat, activity: nat, item: nat, reservedAt: int)

  datatype DecodeError = UnsupportedMessage | InvalidMessage

  /** On failure the consumer still reports whatever order number and user it could read. */
  datatype Decoded = Decoded(task: Task) | Undecodable(orderNo: string, user: nat, error: DecodeError)

  /** The fields written by the XADD of the stream reservation script. */
  function Encode(t: Task): (f: Fields) {
    map[SchemaVersion := SCHEMA_V1,
        EventType := EVENT_V1,
        OrderNo := t.orderNo,
        UserId := FormatUint(t.user),
        ActivityId := FormatUint(t.activity),
        ItemId := FormatUint(t.item),
        ReservedAtMs := FormatInt(t.reservedAt)]
  }

  /** An absent field reads as the Go text of nil and is flagged as missing. */
  function ValueString(f: Fields, key: Field): (r: (string, bool)) {
    if key in f then (f[key], true) else ("<nil>", false)
  }

  function Decode(expectedItem: nat, messageId: string, f: Fields): (r: Decoded)
  {
    if ValueString(f, SchemaVersion) != (SCHEMA_V1, true) then Undecodable("", 0, UnsupportedMessage)
    else if ValueString(f, EventType) != (EVENT_V1, true) then Undecodable("", 0, UnsupportedMessage)
    else
      var (orderNo, orderOk) := ValueString(f, OrderNo);
      var (userText, userOk) := ValueString(f, UserId);
      var (activityText, activityOk) := ValueString(f, ActivityId);
      var (itemText, itemOk) := ValueString(f, ItemId);
      var (reservedText, reservedOk) := ValueString(f, ReservedAtMs);
      var user, activity, item := ParseUint(userText), ParseUint(activityText), ParseUint(itemText);
      var reserved := ParseInt(reservedText);
      if messageId == "" || !orderOk || !userOk || !activityOk || !itemOk || !reservedOk
         || TrimSpace(orderNo) == "" || !user.ok || !activity.ok || !item.ok || !reserved.ok
         || user.value == 0 || activity.value == 0 || item.value == 0 || reserved.value <= 0
      then Undecodable(TrimSpace(orderNo), user.value, InvalidMessage)
      else if item.value != expectedItem then Undecodable(TrimSpace(orderNo), user.value, InvalidMessage)
      else Decoded(Task(TrimSpace(orderNo), user.value, activity.value, item.value, reserved.value))
  }

  /** Whatever a message holds, a task that comes out of it is one the services can act on. */
  lemma DecodedIsSound(expectedItem: nat, messageId: string, f: Fields)
    ensures var r := Decode(expectedItem, messageId, f);
            r.Decoded? ==> Admissible(r.task) && r.task.item == expectedItem && 0 < r.task.reservedAt
  {
    hide ParseInt;
    hide ParseUint;
    hide Trimmed;
    Trims(ValueString(f, OrderNo).0);
    hide TrimSpace;
  }

  /** What the gate may put into a message: 64-bit identifiers and a clean, non-empty order number. */
  predicate Admissible(t: Task) {
    && t.orderNo != "" && Trimmed(t.orderNo)
    && 0 < t.user <= MAX_UINT64 && 0 < t.activity <= MAX_UINT64 && 0 < t.item <= MAX_UINT64
    && MIN_INT64 <= t.reservedAt <= MAX_INT64
  }

  lemma EncodedFields(t: Task)
    requires Admissible(t)
    ensures var f := Encode(t);
      && ValueString(f, SchemaVersion) == (SCHEMA_V1, true) && ValueString(f, EventType) == (EVENT_V1, true)
      && ValueString(f, OrderNo) == (t.orderNo, true) && ValueString(f, UserId) == (FormatUint(t.user), true)
      && ValueString(f, ActivityId) == (FormatUint(t.activity), true)
      && ValueString(f, ItemId) == (FormatUint(t.item), true)
      && ValueString(f, ReservedAtMs) == (FormatInt(t.reservedAt), true)
    ensures ParseUint(FormatUint(t.user)) == Parsed(t.user, true, false)
    ensures ParseUint(FormatUint(t.activity)) == Parsed(t.activity, true, false)
    ensures ParseUint(FormatUint(t.item)) == Parsed(t.item, true, false)
    ensures ParseInt(FormatInt(t.reservedAt)) == Parsed(t.reservedAt, true, false)
    ensures TrimSpace(t.orderNo) == t.orderNo
  {
    Trims(t.orderNo);
    ParseFormatUint(t.user);
    ParseFormatUint(t.activity);
    ParseFormatUint(t.item);
    ParseFormatInt(t.reservedAt);
  }

  /** A message written by the gate decodes to exactly the request put in, unless its time is not
      positive; then the failure still names the order and its user. */
  lemma DecodeEncode(t: Task, messageId: string)
    requires Admissible(t) && messageId != ""
    ensures Decode(t.item, messageId, Encode(t))
         == (if 0 < t.reservedAt then Decoded(t) else Undecodable(t.orderNo, t.user, InvalidMessage))
  {
    EncodedFields(t);
    hide Encode;
    hide ValueString;
    hide ParseInt;
    hide ParseUint;
    hide TrimSpace;
    hide FormatUint;
    hide FormatInt;
  }

  lemma AllFieldsRead(expectedItem: nat, messageId: string, f: Fields)
    requires Decode(expectedItem, messageId, f).Decoded?
    ensures forall k: Field :: k in f
  {
    hide ParseInt;
    hide ParseUint;
    hide TrimSpace;
    forall k: Field
      ensures k in f
    {
      match k
      case SchemaVersion =>
      case EventType =>
      case OrderNo =>
      case UserId =>
      case ActivityId =>
      case ItemId =>
      case ReservedAtMs =>
    }
  }

  /** A request that comes out of a message is what the message says, field by field, under the one supported version. */
  lemma DecodedIsRead(expectedItem: nat, messageId: string, f: Fields)
    requires Decode(expectedItem, messageId, f).Decoded?
    ensures var t := Decode(expectedItem, messageId, f).task;
            && (forall k: Field :: k in f)
            && f[SchemaVersion] == "1" && f[EventType] == "seckill.order.requested" && t.orderNo == TrimSpace(f[OrderNo]) != ""
            && ParseUint(f[UserId]) == Parsed(t.user, true, false) && ParseUint(f[ActivityId]) == Parsed(t.activity, true, false)
            && ParseUint(f[ItemId]) == Parsed(t.item, true, false) && ParseInt(f[ReservedAtMs]) == Parsed(t.reservedAt, true, false)
            && t.item == expectedItem && messageId != ""
  {
    AllFieldsRead(expectedItem, messageId, f);
    ParseUintFails(f[UserId]);
    ParseUintFails(f[ActivityId]);
    ParseUintFails(f[ItemId]);
    hide ParseUint;
    hide TrimSpace;
  }

  /** A message moved to another item's stream is refused there, whatever it carries. */
  lemma ForeignItemRefused(t: Task, expectedItem: nat, messageId: string)
    requires Admissible(t) && messageId != "" && expectedItem != t.item
    ensures Decode(expectedItem, messageId, Encode(t)) == Undecodable(t.orderNo, t.user, InvalidMessage)
  {
    EncodedFields(t);
    hide Encode;
    hide ValueString;
    hide ParseInt;
    hide ParseUint;
    hide TrimSpace;
    hide FormatUint;
    hide FormatInt;
  }
}

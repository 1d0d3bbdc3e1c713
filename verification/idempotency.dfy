/** The durable idempotency guard of the confirm step: a table of records
    keyed by the caller's idempotency key. A record whose status is 202 is
    a placeholder for a confirm in progress; any other status marks a
    finalized response that is replayed verbatim. */
module Idempotency {
  import opened Basics
  import opened Responses

  const TargetType := "ORDER_CONFIRMATION"
  const PlaceholderStatus := 202

  /** A stored response body: the serialized form of a body, or text that
      does not parse back. */
  datatype StoredBody = Serialized(body: Body) | Unparseable

  /** One row of the idempotency table. Absent columns are `None`. */
  datatype KeyRecord = KeyRecord(
    targetType: string,
    targetId: Option<int>,
    status: Option<int>,
    body: Option<StoredBody>)

  type Table = map<string, KeyRecord>

  /** The row a fresh key gets before the confirm runs. */
  const Placeholder := KeyRecord(TargetType, None, Some(PlaceholderStatus), None)

  /** The record holds a response to replay: its status is present, not
      zero (both are falsy in JavaScript) and not the placeholder's 202. */
  predicate Finalized(rec: KeyRecord) {
    rec.status.Some? && rec.status.value != 0 && rec.status.value != PlaceholderStatus
  }

  /** The answer of the check: a stored response to replay, or go ahead. */
  datatype Check = Duplicate(status: int, body: Body, targetId: Option<int>) | Proceed

  datatype Checked = Checked(check: Check, table: Table)

  /** The body a finalized record replays: an absent body and one that does
      not parse both give the empty object. */
  function StoredOrEmpty(body: Option<StoredBody>): Body {
    match body
    case Some(Serialized(b)) => b
    case _ => EmptyObject
  }

  /** Looks the key up. A finalized record is reported as a duplicate with
      its stored response; an absent key gets a placeholder row; a record
      still at 202 (or without a status) is neither replayed nor touched. */
  function CheckKey(t: Table, key: string): (r: Checked)
    ensures r.check.Duplicate? <==> key in t && Finalized(t[key])
    ensures r.check.Duplicate? ==>
      && r.check.status == t[key].status.value
      && r.check.body == StoredOrEmpty(t[key].body)
      && r.check.targetId == (if t[key].body == Some(Unparseable) then None else t[key].targetId)
    ensures r.table.Keys == t.Keys + {key}
    ensures forall k :: k in t ==> r.table[k] == t[k]
    ensures key !in t ==> r.table[key] == Placeholder
  {
    if key in t && Finalized(t[key]) then
      var rec := t[key];
      match rec.body
      case Some(Unparseable) => Checked(Duplicate(rec.status.value, EmptyObject, None), t)
      case _ => Checked(Duplicate(rec.status.value, StoredOrEmpty(rec.body), rec.targetId), t)
    else if key !in t then
      Checked(Proceed, t[key := Placeholder])
    else
      Checked(Proceed, t)
  }

  /** Finalizes the record of `key` with a response. The update touches no
      other row and creates none when the key is absent. */
  function Save(t: Table, key: string, orderId: int, body: Body, status: int): (r: Table)
    ensures r.Keys == t.Keys
    ensures forall k :: k in t && k != key ==> r[k] == t[k]
    ensures key in t ==>
      && r[key].targetType == t[key].targetType
      && r[key].targetId == Some(orderId)
      && r[key].status == Some(status)
      && r[key].body == Some(Serialized(body))
  {
    if key in t then
      t[key := t[key].(body := Some(Serialized(body)), status := Some(status), targetId := Some(orderId))]
    else t
  }

  /** A fresh key checked, then saved with a final status, is afterwards
      reported as a duplicate carrying exactly that status and body. */
  lemma CheckSaveCheck(t: Table, key: string, orderId: int, body: Body, status: int)
    requires key !in t
    requires status != 0 && status != PlaceholderStatus
    ensures var t1 := CheckKey(t, key);
      var t2 := Save(t1.table, key, orderId, body, status);
      && t1.check == Proceed
      && CheckKey(t2, key) == Checked(Duplicate(status, body, Some(orderId)), t2)
  {
  }

  /** Checking a fresh key twice inserts exactly one row, and the second
      check, seeing the placeholder, lets the caller proceed again. */
  lemma CheckTwiceInsertsOne(t: Table, key: string)
    requires key !in t
    ensures var t1 := CheckKey(t, key);
      var t2 := CheckKey(t1.table, key);
      && t1.check == Proceed && t2.check == Proceed
      && t2.table == t1.table
      && |t2.table| == |t| + 1
  {
  }
}

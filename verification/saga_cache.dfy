/** The orchestrator's in-process dedup cache: the saga key is the JSON text
    of `{customer_id, items}`, and the cache maps keys to whole responses. */
module SagaCache {
  import opened Basics
  import opened Text
  import Ledger

  type Cache<V> = map<string, V>

  // ---------------------------------------------------------------------
  // The key: the request written as a JSON object

  function ItemText(item: Ledger.ItemRequest): string {
    "{\"product_id\":" + IntText(item.productId) + ",\"qty\":" + IntText(item.qty) + "}"
  }

  /** The items, comma separated, without the brackets. */
  function ItemsText(items: seq<Ledger.ItemRequest>): string {
    if items == [] then ""
    else if |items| == 1 then ItemText(items[0])
    else ItemText(items[0]) + "," + ItemsText(items[1..])
  }

  /** The saga key: the JSON text of `{customer_id, items}`, each item
      written as `{product_id, qty}`. */
  function GetKey(customerId: int, items: seq<Ledger.ItemRequest>): string {
    "{\"customer_id\":" + IntText(customerId) + ",\"items\":[" + ItemsText(items) + "]}"
  }

  // ---------------------------------------------------------------------
  // Reading a key back

  /** Consumes the literal `lit` from the front of `s`. */
  function Skip(s: string, lit: string): (r: Option<string>)
    ensures r.Some? ==> |r.value| + |lit| == |s|
  {
    if |lit| <= |s| && s[..|lit|] == lit then Some(s[|lit|..]) else None
  }

  function ReadItem(s: string): (r: Option<(Ledger.ItemRequest, string)>)
    ensures r.Some? ==> |r.value.1| < |s|
  {
    var s1 :- Skip(s, "{\"product_id\":");
    var p :- ReadInt(s1);
    var s2 :- Skip(p.1, ",\"qty\":");
    var q :- ReadInt(s2);
    var s3 :- Skip(q.1, "}");
    Some((Ledger.ItemRequest(p.0, q.0), s3))
  }

  /** Reads one or more comma-separated items. */
  function ReadItems(s: string): Option<(seq<Ledger.ItemRequest>, string)>
    decreases |s|
  {
    var first :- ReadItem(s);
    if |first.1| > 0 && first.1[0] == ',' then
      var rest :- ReadItems(first.1[1..]);
      Some(([first.0] + rest.0, rest.1))
    else
      Some(([first.0], first.1))
  }

  /** The inverse of `GetKey`: recovers the customer id and the items. */
  function ParseKey(key: string): Option<(int, seq<Ledger.ItemRequest>)> {
    var s1 :- Skip(key, "{\"customer_id\":");
    var c :- ReadInt(s1);
    var s2 :- Skip(c.1, ",\"items\":[");
    if s2 == "]}" then Some((c.0, []))
    else
      var items :- ReadItems(s2);
      if items.1 == "]}" then Some((c.0, items.0)) else None
  }

  lemma Reassociate(a: string, b: string, c: string)
    ensures (a + b) + c == a + (b + c)
  {
  }

  lemma SkipLiteral(lit: string, rest: string)
    ensures Skip(lit + rest, lit) == Some(rest)
  {
    assert (lit + rest)[..|lit|] == lit;
  }

  /** The item's text followed by `rest`, grouped from the right. */
  lemma ItemTextSplit(item: Ledger.ItemRequest, rest: string)
    ensures ItemText(item) + rest ==
      "{\"product_id\":" + (IntText(item.productId) + (",\"qty\":" + (IntText(item.qty) + ("}" + rest))))
  {
    var a := "{\"product_id\":";
    var p := IntText(item.productId);
    var b := ",\"qty\":";
    var q := IntText(item.qty);
    Reassociate(a + p + b + q, "}", rest);
    Reassociate(a + p + b, q, "}" + rest);
    Reassociate(a + p, b, q + ("}" + rest));
    Reassociate(a, p, b + (q + ("}" + rest)));
  }

  lemma ReadItemText(item: Ledger.ItemRequest, rest: string)
    requires rest == [] || !IsDigit(rest[0])
    ensures ReadItem(ItemText(item) + rest) == Some((item, rest))
  {
    var t3 := "}" + rest;
    var t2 := IntText(item.qty) + t3;
    var t1 := ",\"qty\":" + t2;
    var t0 := IntText(item.productId) + t1;
    ItemTextSplit(item, rest);
    SkipLiteral("{\"product_id\":", t0);
    ReadIntText(item.productId, t1);
    SkipLiteral(",\"qty\":", t2);
    ReadIntText(item.qty, t3);
    SkipLiteral("}", rest);
  }

  lemma ReadItemsStep(s: string, item: Ledger.ItemRequest, tail: string, more: seq<Ledger.ItemRequest>, rest: string)
    requires ReadItem(s) == Some((item, "," + tail))
    requires ReadItems(tail) == Some((more, rest))
    ensures ReadItems(s) == Some(([item] + more, rest))
  {
    assert ("," + tail)[1..] == tail;
  }

  lemma ReadItemsLast(s: string, item: Ledger.ItemRequest, rest: string)
    requires ReadItem(s) == Some((item, rest))
    requires |rest| > 0 && rest[0] == ']'
    ensures ReadItems(s) == Some(([item], rest))
  {
  }

  lemma ItemsTextSplit(items: seq<Ledger.ItemRequest>, rest: string)
    requires |items| >= 2
    ensures ItemsText(items) + rest == ItemText(items[0]) + ("," + (ItemsText(items[1..]) + rest))
  {
    var a := ItemText(items[0]);
    var b := ItemsText(items[1..]);
    assert ItemsText(items) == a + "," + b;
    Reassociate(a, ",", b);
    Reassociate(a, "," + b, rest);
    Reassociate(",", b, rest);
  }

  lemma ReadItemsCons(items: seq<Ledger.ItemRequest>, rest: string)
    requires |items| >= 2
    requires |rest| > 0 && rest[0] == ']'
    requires ReadItems(ItemsText(items[1..]) + rest) == Some((items[1..], rest))
    ensures ReadItems(ItemsText(items) + rest) == Some((items, rest))
  {
    var tail := ItemsText(items[1..]) + rest;
    ReadItemThenMore(items[0], tail, items[1..], rest);
    ItemsTextSplit(items, rest);
    assert [items[0]] + items[1..] == items;
  }

  /** One item, a comma, and more items read as all of them. */
  lemma ReadItemThenMore(item: Ledger.ItemRequest, tail: string, more: seq<Ledger.ItemRequest>, rest: string)
    requires ReadItems(tail) == Some((more, rest))
    ensures ReadItems(ItemText(item) + ("," + tail)) == Some(([item] + more, rest))
  {
    var comma := "," + tail;
    assert comma[0] == ',';
    ReadItemText(item, comma);
    ReadItemsStep(ItemText(item) + comma, item, tail, more, rest);
  }

  lemma {:induction false} ReadItemsText(items: seq<Ledger.ItemRequest>, rest: string)
    requires |items| >= 1
    requires |rest| > 0 && rest[0] == ']'
    ensures ReadItems(ItemsText(items) + rest) == Some((items, rest))
  {
    if |items| == 1 {
      ReadItemsOne(items, rest);
    } else {
      ReadItemsText(items[1..], rest);
      ReadItemsCons(items, rest);
    }
  }

  lemma ReadItemsOne(items: seq<Ledger.ItemRequest>, rest: string)
    requires |items| == 1
    requires |rest| > 0 && rest[0] == ']'
    ensures ReadItems(ItemsText(items) + rest) == Some((items, rest))
  {
    assert ItemsText(items) == ItemText(items[0]);
    ReadItemText(items[0], rest);
    ReadItemsLast(ItemText(items[0]) + rest, items[0], rest);
    assert [items[0]] == items;
  }

  lemma ItemTextStart(item: Ledger.ItemRequest)
    ensures |ItemText(item)| > 0 && ItemText(item)[0] == '{'
  {
    var a := "{\"product_id\":";
    var b := IntText(item.productId) + ",\"qty\":" + IntText(item.qty) + "}";
    assert ItemText(item) == a + b;
  }

  /** The items' text opens with the brace of the first item. */
  lemma ItemsTextStart(items: seq<Ledger.ItemRequest>)
    requires items != []
    ensures |ItemsText(items)| > 0 && ItemsText(items)[0] == '{'
  {
    ItemTextStart(items[0]);
    if |items| > 1 {
      var a := ItemText(items[0]);
      var b := "," + ItemsText(items[1..]);
      assert ItemsText(items) == a + b;
      assert (a + b)[0] == a[0];
    }
  }

  lemma ParseKeyStep(key: string, c: int, body: string)
    requires key == "{\"customer_id\":" + (IntText(c) + (",\"items\":[" + body))
    ensures ParseKey(key) ==
      (if body == "]}" then Some((c, []))
       else match ReadItems(body)
            case None => None
            case Some(items) => if items.1 == "]}" then Some((c, items.0)) else None)
  {
    var t1 := ",\"items\":[" + body;
    SkipLiteral("{\"customer_id\":", IntText(c) + t1);
    ReadIntText(c, t1);
    SkipLiteral(",\"items\":[", body);
  }

  /** Reading a key back gives the request it was made from, so the key
      depends on the customer id and the items and on nothing else. */
  lemma ParseGetKey(customerId: int, items: seq<Ledger.ItemRequest>)
    ensures ParseKey(GetKey(customerId, items)) == Some((customerId, items))
  {
    var body := ItemsText(items) + "]}";
    var head := "{\"customer_id\":";
    var t := ",\"items\":[";
    Reassociate(head + IntText(customerId) + t, ItemsText(items), "]}");
    Reassociate(head + IntText(customerId), t, body);
    Reassociate(head, IntText(customerId), t + body);
    ParseKeyStep(GetKey(customerId, items), customerId, body);
    if items != [] {
      ItemsTextStart(items);
      assert body[0] == '{';
      ReadItemsText(items, "]}");
    }
  }

  /** Distinct requests never share a saga key. */
  lemma GetKeyInjective(c1: int, items1: seq<Ledger.ItemRequest>, c2: int, items2: seq<Ledger.ItemRequest>)
    ensures GetKey(c1, items1) == GetKey(c2, items2) <==> c1 == c2 && items1 == items2
  {
    ParseGetKey(c1, items1);
    ParseGetKey(c2, items2);
  }

  // ---------------------------------------------------------------------
  // check and save

  /** The cached response for the key, if any. */
  function Check<V>(cache: Cache<V>, key: string): (r: Option<V>)
    ensures r.Some? <==> key in cache
    ensures r.Some? ==> r.value == cache[key]
  {
    if key in cache then Some(cache[key]) else None
  }

  /** Stores the response under the key, replacing any earlier one. */
  function Save<V>(cache: Cache<V>, key: string, response: V): (r: Cache<V>)
    ensures Check(r, key) == Some(response)
    ensures forall k :: k != key ==> Check(r, k) == Check(cache, k)
    ensures r.Keys == cache.Keys + {key}
  {
    cache[key := response]
  }

  /** A later save to the same key wins. */
  lemma SaveOverwrites<V>(cache: Cache<V>, key: string, first: V, second: V)
    ensures Check(Save(Save(cache, key, first), key, second), key) == Some(second)
    ensures Save(Save(cache, key, first), key, second) == Save(cache, key, second)
  {
  }
}

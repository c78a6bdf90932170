/**
 * The auxiliary metadata of a message (the BytesExtra column): a list of
 * (tag, value) items decoded from Protocol Buffers and folded into a map in
 * which a later item overwrites an earlier one with the same tag.
 */
module BytesExtra {
  import opened Wrappers

  newtype uint8 = x: int | 0 <= x < 0x100

  /** One decoded metadata item: an integer tag and a string value. */
  datatype Item = Item(tag: int, value: string)

  /** The value of the last item carrying `tag`, or None when no item carries it. */
  function LastValue(items: seq<Item>, tag: int): (v: Option<string>)
    ensures v.None? <==> forall j :: 0 <= j < |items| ==> items[j].tag != tag
    ensures v.Some? ==>
      exists j :: 0 <= j < |items| && items[j] == Item(tag, v.value)
        && forall k :: j < k < |items| ==> items[k].tag != tag
    decreases |items|
  {
    if items == [] then None
    else if items[|items| - 1].tag == tag then Some(items[|items| - 1].value)
    else LastValue(items[..|items| - 1], tag)
  }

  /**
   * ParseBytesExtra: decodes `b` with `unmarshal` (proto.Unmarshal into the
   * BytesExtra message; None is a decoding error, the empty list a message
   * without items) and folds the items into a map, later items winning.
   * Gives None (Go's nil map) on a decoding error or when there are no items.
   */
  method ParseBytesExtra(b: seq<uint8>, unmarshal: seq<uint8> -> Option<seq<Item>>)
    returns (r: Option<map<int, string>>)
    ensures r.None? <==> unmarshal(b).None? || unmarshal(b).value == []
    ensures r.Some? ==>
      r.value.Keys == set j | 0 <= j < |unmarshal(b).value| :: unmarshal(b).value[j].tag
    ensures r.Some? ==>
      forall t :: t in r.value ==> LastValue(unmarshal(b).value, t) == Some(r.value[t])
  {
    var decoded := unmarshal(b);
    if decoded.None? {
      return None;
    }
    var items := decoded.value;
    if items == [] {
      return None;
    }
    var ret: map<int, string> := map[];
    for i := 0 to |items|
      invariant forall t :: t in ret <==> LastValue(items[..i], t).Some?
      invariant forall t :: t in ret ==> LastValue(items[..i], t) == Some(ret[t])
    {
      assert items[..i + 1] == items[..i] + [items[i]];
      forall t ensures LastValue(items[..i + 1], t) == LastValue(items[..i] + [items[i]], t) {}
      LastValueAppend(items[..i], items[i]);
      ret := ret[items[i].tag := items[i].value];
    }
    assert items[..|items|] == items;
    KeysAreTags(items, ret);
    return Some(ret);
  }

  /** Appending an item changes the last value of its own tag only. */
  lemma LastValueAppend(items: seq<Item>, x: Item)
    ensures forall t :: LastValue(items + [x], t) == if x.tag == t then Some(x.value) else LastValue(items, t)
  {
  }

  /** A map whose keys are the tags with a last value has exactly the item tags as keys. */
  lemma KeysAreTags(items: seq<Item>, m: map<int, string>)
    requires forall t :: t in m <==> LastValue(items, t).Some?
    ensures m.Keys == set j | 0 <= j < |items| :: items[j].tag
  {
    forall t | t in m ensures t in set j | 0 <= j < |items| :: items[j].tag {
      var j :| 0 <= j < |items| && items[j].tag == t;
    }
  }

  /** Two items with tag 7, values "a" then "b": the map sends 7 to "b". */
  method LastItemWins() returns (r: Option<map<int, string>>)
    ensures r == Some(map[7 := "b"])
  {
    var items := [Item(7, "a"), Item(7, "b")];
    var decode: seq<uint8> -> Option<seq<Item>> := _ => Some(items);
    assert decode([1]) == Some(items);
    r := ParseBytesExtra([1], decode);
    assert LastValue(items, 7) == Some("b");
    var tags := set j | 0 <= j < |items| :: items[j].tag;
    assert items[0].tag == 7;
    assert tags == {7};
    assert r.value.Keys == {7};
    assert r.value[7] == "b";
    assert r.value == map[7 := "b"];
  }
}

/**
 * The configuration (DNSSwitcher/Config.swift): the `settings` list built from
 * the document's "settings" array, keeping in order every entry that decodes
 * with a name, a server list and an interface and skipping every other one.
 */
module Configuration {
  import opened Wrappers
  import opened JsonValues
  import opened SettingItems

  /** The test an item must pass to be kept: all three fields present. */
  predicate Complete(item: SettingItem) {
    item.name.Some? && item.servers.Some? && item.interface.Some?
  }

  predicate AllDecodable(entries: seq<Json>) {
    forall e | e in entries :: ServersDecodable(e)
  }

  /** The entries of the "settings" array; none when there is no such array. */
  function Entries(json: Json): seq<Json> {
    ArrayValue(Member(json, "settings"))
  }

  /** What loading demands of the document: no entry aborts while being decoded. */
  predicate Loadable(json: Json) {
    AllDecodable(Entries(json))
  }

  /** Every entry decoded by `SettingItem(json:)`, in array order. */
  function DecodeAll(entries: seq<Json>): seq<SettingItem>
    requires AllDecodable(entries)
  {
    seq(|entries|, k requires 0 <= k < |entries| => FromJson(entries[k]))
  }

  /** The complete items, in their order: never more than there were, and every one complete. */
  function Keep(items: seq<SettingItem>): (kept: seq<SettingItem>)
    ensures |kept| <= |items|
    ensures forall x | x in kept :: Complete(x)
  {
    if items == [] then []
    else (if Complete(items[0]) then [items[0]] else []) + Keep(items[1..])
  }

  /**
   * A document loads without aborting exactly when every entry of its
   * "settings" array is decodable, that is, no entry has a non-string server.
   */
  lemma LoadableExactly(json: Json)
    ensures Loadable(json) <==>
      (Member(json, "settings").JArray? ==>
        forall k | 0 <= k < |Member(json, "settings").elems| :: ServersDecodable(Member(json, "settings").elems[k]))
  {
    if Member(json, "settings").JArray? {
      var entries := Member(json, "settings").elems;
      assert Entries(json) == entries;
      if forall k | 0 <= k < |entries| :: ServersDecodable(entries[k]) {
        forall e | e in entries ensures ServersDecodable(e) {
          var k :| 0 <= k < |entries| && entries[k] == e;
        }
      }
    }
  }

  /** The settings a document's array yields. */
  function Kept(entries: seq<Json>): seq<SettingItem>
    requires AllDecodable(entries)
  {
    Keep(DecodeAll(entries))
  }

  /** The positions, from `i` on, of the items that are kept. */
  function KeptIndicesFrom(items: seq<SettingItem>, i: nat): seq<nat>
    decreases |items| - i
  {
    if i >= |items| then []
    else (if Complete(items[i]) then [i] else []) + KeptIndicesFrom(items, i + 1)
  }

  class Config {
    var settings: Option<seq<SettingItem>>

    /** `Config(data:)`: an empty list, then one append per complete entry. */
    constructor (json: Json)
      requires Loadable(json)
      ensures settings == Some(Kept(Entries(json)))
      ensures !Member(json, "settings").JArray? ==> settings == Some([])
    {
      settings := Some([]);
      new;
      var found := AsArray(Member(json, "settings"));
      if found.Some? {
        var entries := found.value;
        ghost var decoded := DecodeAll(entries);
        for i := 0 to |entries|
          invariant settings == Some(Keep(decoded[..i]))
        {
          var item := FromJson(entries[i]);
          assert decoded[..i + 1] == decoded[..i] + [item];
          KeepAppend(decoded[..i], [item]);
          KeepSingle(item);
          if item.name.None? || item.servers.None? || item.interface.None? {
            assert Keep(decoded[..i + 1]) == Keep(decoded[..i]);
            continue;
          }
          if settings.Some? {
            settings := Some(settings.value + [item]);
          }
        }
        assert decoded[..|entries|] == decoded;
      }
    }
  }

  /** A one-item list keeps its item exactly when it is complete. */
  lemma KeepSingle(item: SettingItem)
    ensures Keep([item]) == if Complete(item) then [item] else []
  {
    assert [item][1..] == [];
  }

  /** Entries are judged one by one: the kept list of a concatenation is the concatenation of the kept lists. */
  lemma {:induction false} KeepAppend(a: seq<SettingItem>, b: seq<SettingItem>)
    ensures Keep(a + b) == Keep(a) + Keep(b)
  {
    if a == [] {
      assert a + b == b;
    } else {
      assert (a + b)[0] == a[0];
      assert (a + b)[1..] == a[1..] + b;
      KeepAppend(a[1..], b);
    }
  }

  /** Decoding a concatenation decodes each part. */
  lemma DecodeAllAppend(a: seq<Json>, b: seq<Json>)
    requires AllDecodable(a) && AllDecodable(b)
    ensures AllDecodable(a + b)
    ensures DecodeAll(a + b) == DecodeAll(a) + DecodeAll(b)
  {
    assert forall e | e in a + b :: e in a || e in b;
  }

  /** An incomplete item contributes nothing, wherever it stands. */
  lemma SkippedItemIsInvisible(x: seq<SettingItem>, bad: SettingItem, y: seq<SettingItem>)
    requires !Complete(bad)
    ensures Keep(x + [bad] + y) == Keep(x + y)
  {
    KeepAppend(x, [bad]);
    KeepAppend(x + [bad], y);
    KeepAppend(x, y);
    KeepSingle(bad);
    assert Keep(x + [bad]) == Keep(x);
  }

  /**
   * A bad entry never affects the others (the loop's `continue`): removing an
   * incomplete entry from anywhere in the array leaves the settings as they were.
   */
  lemma SkippedEntryIsInvisible(a: seq<Json>, bad: Json, b: seq<Json>)
    requires AllDecodable(a) && AllDecodable(b) && ServersDecodable(bad)
    requires !Complete(FromJson(bad))
    ensures AllDecodable(a + [bad] + b)
    ensures Kept(a + [bad] + b) == Kept(a + b)
  {
    var item := FromJson(bad);
    assert DecodeAll([bad]) == [item];
    DecodeAllAppend(a, [bad]);
    DecodeAllAppend(a + [bad], b);
    DecodeAllAppend(a, b);
    assert DecodeAll(a + [bad] + b) == DecodeAll(a) + [item] + DecodeAll(b);
    SkippedItemIsInvisible(DecodeAll(a), item, DecodeAll(b));
  }

  /** When every item is complete, nothing is dropped. */
  lemma {:induction false} KeepAllComplete(items: seq<SettingItem>)
    requires forall k | 0 <= k < |items| :: Complete(items[k])
    ensures Keep(items) == items
  {
    if items != [] {
      assert Complete(items[0]);
      KeepAllComplete(items[1..]);
    }
  }

  /**
   * The kept list is the subsequence of the items at KeptIndicesFrom(items, i):
   * positions in increasing order (so relative order is kept), and a position
   * is among them exactly when its item is complete.
   */
  lemma {:induction false} KeptIndicesFromSelect(items: seq<SettingItem>, i: nat)
    requires i <= |items|
    ensures var idx := KeptIndicesFrom(items, i);
      && |idx| == |Keep(items[i..])|
      && (forall k | 0 <= k < |idx| :: i <= idx[k] < |items| && Keep(items[i..])[k] == items[idx[k]])
      && (forall k1, k2 | 0 <= k1 < k2 < |idx| :: idx[k1] < idx[k2])
      && (forall p | i <= p < |items| :: p in idx <==> Complete(items[p]))
    decreases |items| - i
  {
    if i < |items| {
      KeptIndicesFromSelect(items, i + 1);
      assert items[i..][1..] == items[i + 1..];
      var rest := KeptIndicesFrom(items, i + 1);
      var idx := KeptIndicesFrom(items, i);
      if Complete(items[i]) {
        assert idx == [i] + rest;
        assert Keep(items[i..]) == [items[i]] + Keep(items[i + 1..]);
        forall k | 0 <= k < |idx|
          ensures i <= idx[k] < |items| && Keep(items[i..])[k] == items[idx[k]]
        {
          if k > 0 { assert idx[k] == rest[k - 1]; }
        }
        forall k1, k2 | 0 <= k1 < k2 < |idx| ensures idx[k1] < idx[k2] {
          assert idx[k2] == rest[k2 - 1];
          if k1 > 0 { assert idx[k1] == rest[k1 - 1]; }
        }
      } else {
        assert idx == rest;
        assert Keep(items[i..]) == Keep(items[i + 1..]);
      }
    }
  }

  /**
   * The settings are a subsequence of the decoded entries: entry positions in
   * increasing order, and position p is among them exactly when entry p
   * decodes complete; every other entry is dropped.
   */
  lemma KeptIsSelection(entries: seq<Json>)
    requires AllDecodable(entries)
    ensures var idx := KeptIndicesFrom(DecodeAll(entries), 0);
      && |idx| == |Kept(entries)|
      && (forall k | 0 <= k < |idx| :: idx[k] < |entries| && Kept(entries)[k] == FromJson(entries[idx[k]]))
      && (forall k1, k2 | 0 <= k1 < k2 < |idx| :: idx[k1] < idx[k2])
      && (forall p | 0 <= p < |entries| :: p in idx <==> Complete(FromJson(entries[p])))
  {
    var items := DecodeAll(entries);
    KeptIndicesFromSelect(items, 0);
    assert items[0..] == items;
  }

  /**
   * Because `servers` is always present, the source's `servers == nil` test
   * never fires: an entry is dropped exactly when it lacks a string name or a
   * string interface.
   */
  lemma CompleteExactlyWhenNamed(j: Json)
    requires ServersDecodable(j)
    ensures Complete(FromJson(j)) <==> Member(j, "name").JString? && Member(j, "interface").JString?
  {
  }

  /** An entry without "servers" but with a name and an interface is kept, with no servers. */
  lemma EntryWithoutServersIsKept()
    ensures var doc := JObject(map["settings" := JArray([
              JObject(map["name" := JString("Office"), "interface" := JString("Wi-Fi")]),
              JObject(map["name" := JString("Home"), "servers" := JArray([JString("8.8.8.8"), JString("8.8.4.4")])])])]);
      && Loadable(doc)
      && Kept(Entries(doc)) == [SettingItem(Some("Office"), Some([]), Some("Wi-Fi"))]
  {
    var office := JObject(map["name" := JString("Office"), "interface" := JString("Wi-Fi")]);
    var home := JObject(map["name" := JString("Home"), "servers" := JArray([JString("8.8.8.8"), JString("8.8.4.4")])]);
    var doc := JObject(map["settings" := JArray([office, home])]);
    assert Entries(doc) == [office, home];
    assert ForceStrings([]) == [];
    var o := SettingItem(Some("Office"), Some([]), Some("Wi-Fi"));
    assert FromJson(office) == o;
    assert !Complete(FromJson(home));
    assert DecodeAll([office, home]) == [o] + [FromJson(home)];
    KeepAppend([o], [FromJson(home)]);
    KeepSingle(o);
    KeepSingle(FromJson(home));
  }
}

/**
 * One DNS profile as read from an entry of the configuration's `settings`
 * array (DNSSwitcher/SettingItem.swift). Each field is optional, as in the
 * source; `servers` is filled by mapping a forced string conversion over the
 * entry's `servers` array, so a non-string element aborts the program.
 */
module SettingItems {
  import opened Wrappers
  import opened JsonValues

  datatype SettingItem = SettingItem(name: Option<string>, servers: Option<seq<string>>, interface: Option<string>)

  /** Every element is a string, so `$0.string!` never unwraps nil. */
  predicate AllStrings(elems: seq<Json>) {
    forall k | 0 <= k < |elems| :: elems[k].JString?
  }

  /** What the force unwrap demands of an entry: its `servers` list holds only strings. */
  predicate ServersDecodable(j: Json) {
    AllStrings(ArrayValue(Member(j, "servers")))
  }

  /** `elems.map({ $0.string! })`: the strings, one per element, in order. */
  function ForceStrings(elems: seq<Json>): (r: seq<string>)
    requires AllStrings(elems)
    ensures |r| == |elems|
    ensures forall k | 0 <= k < |elems| :: r[k] == elems[k].s
  {
    if elems == [] then [] else [elems[0].s] + ForceStrings(elems[1..])
  }

  /** `SettingItem(json:)`. */
  function FromJson(j: Json): SettingItem
    requires ServersDecodable(j)
  {
    SettingItem(
      AsString(Member(j, "name")),
      Some(ForceStrings(ArrayValue(Member(j, "servers")))),
      AsString(Member(j, "interface")))
  }

  /** `name` is the string under "name", and absent when the key is missing or holds no string. */
  lemma NameFromKey(j: Json)
    requires ServersDecodable(j)
    ensures FromJson(j).name.Some? <==> j.JObject? && "name" in j.fields && j.fields["name"].JString?
    ensures FromJson(j).name.Some? ==> FromJson(j).name.value == j.fields["name"].s
  {
  }

  /** `interface` is the string under "interface", and absent otherwise. */
  lemma InterfaceFromKey(j: Json)
    requires ServersDecodable(j)
    ensures FromJson(j).interface.Some? <==> j.JObject? && "interface" in j.fields && j.fields["interface"].JString?
    ensures FromJson(j).interface.Some? ==> FromJson(j).interface.value == j.fields["interface"].s
  {
  }

  /**
   * `servers` is always present; it lists the strings of the "servers" array
   * with the same length and order, and is empty when there is no such array.
   */
  lemma ServersFromKey(j: Json)
    requires ServersDecodable(j)
    ensures FromJson(j).servers.Some?
    ensures j.JObject? && "servers" in j.fields && j.fields["servers"].JArray? ==>
      var raw := j.fields["servers"].elems;
      && |FromJson(j).servers.value| == |raw|
      && forall k | 0 <= k < |raw| :: FromJson(j).servers.value[k] == raw[k].s
    ensures !(j.JObject? && "servers" in j.fields && j.fields["servers"].JArray?) ==>
      FromJson(j).servers == Some([])
  {
  }

  /** Any non-string element of an entry's "servers" array violates the force unwrap. */
  lemma NonStringServerAborts(j: Json, k: nat)
    requires j.JObject? && "servers" in j.fields && j.fields["servers"].JArray?
    requires k < |j.fields["servers"].elems| && !j.fields["servers"].elems[k].JString?
    ensures !ServersDecodable(j)
  {
  }

  /**
   * Conversely, the force unwrap holds exactly when the entry has no "servers"
   * array or every element of it is a string.
   */
  lemma ServersDecodableExactly(j: Json)
    ensures ServersDecodable(j) <==>
      (j.JObject? && "servers" in j.fields && j.fields["servers"].JArray? ==>
        forall e | e in j.fields["servers"].elems :: e.JString?)
  {
    if j.JObject? && "servers" in j.fields && j.fields["servers"].JArray? {
      var elems := j.fields["servers"].elems;
      assert ArrayValue(Member(j, "servers")) == elems;
      assert (forall e | e in elems :: e.JString?) <==> (forall k | 0 <= k < |elems| :: elems[k].JString?) by {
        if forall k | 0 <= k < |elems| :: elems[k].JString? {
          forall e | e in elems ensures e.JString? {
            var k :| 0 <= k < |elems| && elems[k] == e;
          }
        }
      }
    }
  }

  /** Only the three keys are read: entries that agree on them decode alike, whatever else they hold. */
  lemma OnlyThreeKeysRead(j1: Json, j2: Json)
    requires ServersDecodable(j1)
    requires Member(j1, "name") == Member(j2, "name")
    requires Member(j1, "servers") == Member(j2, "servers")
    requires Member(j1, "interface") == Member(j2, "interface")
    ensures ServersDecodable(j2) && FromJson(j2) == FromJson(j1)
  {
  }

  /** Adding or changing a key other than the three leaves the decoded item as it was. */
  lemma OtherKeysIgnored(fields: map<string, Json>, key: string, v: Json)
    requires key != "name" && key != "servers" && key != "interface"
    requires ServersDecodable(JObject(fields))
    ensures ServersDecodable(JObject(fields[key := v]))
    ensures FromJson(JObject(fields[key := v])) == FromJson(JObject(fields))
  {
    OnlyThreeKeysRead(JObject(fields), JObject(fields[key := v]));
  }

  /** An entry that is not an object decodes to no name, no interface and no servers. */
  lemma NonObjectDecodesEmpty(j: Json)
    requires !j.JObject?
    ensures ServersDecodable(j)
    ensures FromJson(j) == SettingItem(None, Some([]), None)
  {
  }
}

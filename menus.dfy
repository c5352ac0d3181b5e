/**
 * The status-bar menu as the program maintains it (DNSSwitcher/AppDelegate.swift):
 * a list of top-level items, each either a DNS profile item (the source's
 * `DNSMenuItem`, titled with a profile's name and carrying its submenu) or
 * any other item of the menu (version, edit, restore, about, quit, separators).
 */
module Menus {
  import opened SettingItems
  import opened Configuration

  /**
   * An entry of a profile's submenu: the enabled action item wired to the
   * DNS-setting action and carrying its profile, a separator, or a disabled
   * line of text.
   */
  datatype SubmenuEntry = LoadEntry(title: string, setting: SettingItem) | Separator | InfoEntry(title: string)

  datatype MenuItem = ProfileItem(title: string, submenu: seq<SubmenuEntry>) | OtherItem(title: string)

  /** The menu with every profile item taken out and every other item in its place in the order. */
  function NonProfile(items: seq<MenuItem>): seq<MenuItem> {
    if items == [] then []
    else (if items[0].ProfileItem? then [] else [items[0]]) + NonProfile(items[1..])
  }

  /** One disabled line per server, in order. */
  function ServerEntries(servers: seq<string>): seq<SubmenuEntry> {
    seq(|servers|, k requires 0 <= k < |servers| => InfoEntry(servers[k]))
  }

  /** The four fixed entries that open every profile submenu. */
  function SubmenuHeader(setting: SettingItem): seq<SubmenuEntry>
    requires setting.interface.Some?
  {
    [LoadEntry("Load", setting), Separator, InfoEntry("Interface: " + setting.interface.value), InfoEntry("Servers:")]
  }

  /** A profile's submenu. */
  function Layout(setting: SettingItem): seq<SubmenuEntry>
    requires setting.interface.Some? && setting.servers.Some?
  {
    SubmenuHeader(setting) + ServerEntries(setting.servers.value)
  }

  function ProfileItemFor(setting: SettingItem): MenuItem
    requires Complete(setting)
  {
    ProfileItem(setting.name.value, Layout(setting))
  }

  predicate AllComplete(settings: seq<SettingItem>) {
    forall s | s in settings :: Complete(s)
  }

  /** One profile item per setting, in the settings' order. */
  function ProfileItems(settings: seq<SettingItem>): seq<MenuItem>
    requires AllComplete(settings)
  {
    if settings == [] then [] else [ProfileItemFor(settings[0])] + ProfileItems(settings[1..])
  }

  /**
   * A profile submenu has 4 + |servers| entries: "Load", a separator,
   * "Interface: X", "Servers:", then one line per server in order.
   */
  lemma LayoutShape(setting: SettingItem)
    requires setting.interface.Some? && setting.servers.Some?
    ensures var sub, servers := Layout(setting), setting.servers.value;
      && |sub| == 4 + |servers|
      && sub[0] == LoadEntry("Load", setting)
      && sub[1] == Separator
      && sub[2] == InfoEntry("Interface: " + setting.interface.value)
      && sub[3] == InfoEntry("Servers:")
      && forall k | 0 <= k < |servers| :: sub[4 + k] == InfoEntry(servers[k])
  {
  }

  /** Profile item k is titled with setting k's name and loads setting k: the file's order. */
  lemma {:induction false} ProfileItemsInOrder(settings: seq<SettingItem>)
    requires AllComplete(settings)
    ensures |ProfileItems(settings)| == |settings|
    ensures forall k | 0 <= k < |settings| ::
      && ProfileItems(settings)[k] == ProfileItemFor(settings[k])
      && ProfileItems(settings)[k].title == settings[k].name.value
      && ProfileItems(settings)[k].submenu[0] == LoadEntry("Load", settings[k])
  {
    if settings != [] {
      ProfileItemsInOrder(settings[1..]);
      forall k | 0 <= k < |settings|
        ensures ProfileItems(settings)[k] == ProfileItemFor(settings[k])
      {
        if k > 0 { assert settings[1..][k - 1] == settings[k]; }
      }
    }
  }

  /** Removal works item by item: clearing a concatenation clears each part. */
  lemma {:induction false} NonProfileAppend(a: seq<MenuItem>, b: seq<MenuItem>)
    ensures NonProfile(a + b) == NonProfile(a) + NonProfile(b)
  {
    if a == [] {
      assert a + b == b;
    } else {
      assert (a + b)[0] == a[0];
      assert (a + b)[1..] == a[1..] + b;
      NonProfileAppend(a[1..], b);
    }
  }

  /** What remains is exactly the menu's non-profile items. */
  lemma {:induction false} NonProfileMembers(items: seq<MenuItem>)
    ensures |NonProfile(items)| <= |items|
    ensures forall x :: x in NonProfile(items) <==> x in items && x.OtherItem?
  {
    if items != [] {
      NonProfileMembers(items[1..]);
      assert forall x :: x in items <==> x == items[0] || x in items[1..];
    }
  }

  /** A menu without profile items is left exactly as it is, order included. */
  lemma {:induction false} NonProfileKeepsOthers(items: seq<MenuItem>)
    requires forall k | 0 <= k < |items| :: items[k].OtherItem?
    ensures NonProfile(items) == items
  {
    if items != [] {
      assert items[0].OtherItem?;
      NonProfileKeepsOthers(items[1..]);
    }
  }

  /** The built profile items are all taken out again by the next clearing. */
  lemma {:induction false} NonProfileOfProfileItems(settings: seq<SettingItem>)
    requires AllComplete(settings)
    ensures NonProfile(ProfileItems(settings)) == []
  {
    if settings != [] {
      NonProfileOfProfileItems(settings[1..]);
    }
  }

  /**
   * Rebuilding replaces the profiles and nothing else: building the menu for
   * `next` over a menu already built for `previous` gives the same menu as
   * building it over the original one.
   */
  lemma RebuildReplacesProfiles(previous: seq<SettingItem>, next: seq<SettingItem>, menu: seq<MenuItem>)
    requires AllComplete(previous) && AllComplete(next)
    ensures ProfileItems(next) + NonProfile(ProfileItems(previous) + NonProfile(menu))
         == ProfileItems(next) + NonProfile(menu)
  {
    NonProfileAppend(ProfileItems(previous), NonProfile(menu));
    NonProfileOfProfileItems(previous);
    NonProfileMembers(menu);
    NonProfileKeepsOthers(NonProfile(menu));
    assert [] + NonProfile(NonProfile(menu)) == NonProfile(menu);
  }
}

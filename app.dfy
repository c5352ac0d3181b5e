/**
 * The application delegate (DNSSwitcher/AppDelegate.swift): it notices edits
 * to the configuration file by its modification time, rebuilds the profile
 * part of the menu whenever the menu opens after such an edit, and applies a
 * profile by running `networksetup` through `/usr/bin/env`.
 *
 * The file system and the process launcher are inputs: the configuration
 * file's modification time as an optional integer, its contents as an
 * optional JSON document, and the exit status of a launched command as an
 * oracle fixed by the operating system.
 */
module App {
  import opened Wrappers
  import opened JsonValues
  import opened SettingItems
  import opened Configuration
  import opened Menus

  // ----- Running the DNS command -----

  /** The type of a process's termination status. */
  newtype int32 = x: int | -0x8000_0000 <= x < 0x8000_0000

  /** The executable `runCommand` launches; the argument vector names the real tool. */
  const EnvPath: string := "/usr/bin/env"

  /** The exit status the system yields for launching `path` with `arguments`. */
  type ProcessOracle = (string, seq<string>) -> int32

  /** The argument vector of `setDNSServers`. */
  function DnsCommand(setting: SettingItem): seq<string>
    requires setting.interface.Some? && setting.servers.Some?
  {
    ["networksetup", "-setdnsservers", setting.interface.value] + setting.servers.value
  }

  /** `runCommand`: launch `/usr/bin/env` with `args`, wait, and return the status. */
  function RunCommand(args: seq<string>, system: ProcessOracle): int32 {
    system(EnvPath, args)
  }

  /** `setDNSServers`: the status it reports as an error, if any. */
  function SetDnsServers(setting: SettingItem, system: ProcessOracle): Option<int32>
    requires setting.interface.Some? && setting.servers.Some?
  {
    var result := RunCommand(DnsCommand(setting), system);
    if result != 0 then Some(result) else None
  }

  /** The tool, its option and the interface, then every server in its original order. */
  lemma DnsCommandShape(setting: SettingItem)
    requires setting.interface.Some? && setting.servers.Some?
    ensures var cmd, servers := DnsCommand(setting), setting.servers.value;
      && |cmd| == 3 + |servers|
      && cmd[0] == "networksetup" && cmd[1] == "-setdnsservers" && cmd[2] == setting.interface.value
      && cmd[3..] == servers
  {
  }

  /**
   * `networksetup` is run under `/usr/bin/env` with the profile's interface
   * and servers, and an error is reported exactly when its status is not zero,
   * with that status.
   */
  lemma SetDnsServersReportsFailure(setting: SettingItem, system: ProcessOracle)
    requires setting.interface.Some? && setting.servers.Some?
    ensures var status := system("/usr/bin/env", ["networksetup", "-setdnsservers", setting.interface.value] + setting.servers.value);
      && (SetDnsServers(setting, system).Some? <==> status != 0)
      && (SetDnsServers(setting, system).Some? ==> SetDnsServers(setting, system).value == status)
  {
  }

  /**
   * The "Load" entry of profile item k applies setting k: its force unwraps
   * succeed, and it sets setting k's servers on setting k's interface.
   */
  lemma LoadEntryAppliesItsProfile(settings: seq<SettingItem>, k: nat)
    requires AllComplete(settings) && k < |settings|
    ensures Complete(settings[k])
    ensures |ProfileItems(settings)| == |settings| && ProfileItems(settings)[k] == ProfileItemFor(settings[k])
    ensures var entry := ProfileItems(settings)[k].submenu[0];
      && entry == LoadEntry("Load", settings[k])
      && entry.setting.interface.Some? && entry.setting.servers.Some?
      && DnsCommand(entry.setting) == ["networksetup", "-setdnsservers", settings[k].interface.value] + settings[k].servers.value
  {
    ProfileItemsInOrder(settings);
    assert settings[k] in settings;
  }

  // ----- Detecting edits of the configuration file -----

  /** Whether to reload, and the modification time recorded afterwards. */
  datatype UpdateCheck = UpdateCheck(reload: bool, recorded: Option<int>)

  /**
   * One `checkForConfigUpdate`, given the recorded time and the modification
   * time just read (None when the attributes or the date cannot be read).
   */
  function CheckStep(last: Option<int>, observed: Option<int>): UpdateCheck {
    match observed
    case None => UpdateCheck(true, last)
    case Some(t) =>
      if last.None? then UpdateCheck(true, Some(t))
      else UpdateCheck(t > last.value, Some(t))
  }

  /** A failed read forces a reload and leaves the recorded time as it was. */
  lemma FailedReadForcesReload(last: Option<int>)
    ensures CheckStep(last, None) == UpdateCheck(true, last)
  {
  }

  /** The first successful read always reloads, and records the time read. */
  lemma FirstLoadReloads(t: int)
    ensures CheckStep(None, Some(t)) == UpdateCheck(true, Some(t))
  {
  }

  /**
   * After a first load, a read reloads exactly when the file is strictly newer
   * than recorded; the recorded time becomes the time read in every case.
   */
  lemma ReloadExactlyWhenNewer(t0: int, t: int)
    ensures CheckStep(Some(t0), Some(t)).reload <==> t > t0
    ensures CheckStep(Some(t0), Some(t)).recorded == Some(t)
  {
  }

  /** Whatever was recorded, a second check of an unchanged file does not reload. */
  lemma UnchangedFileReloadsOnce(last: Option<int>, t: int)
    ensures CheckStep(CheckStep(last, Some(t)).recorded, Some(t)).reload == false
  {
  }

  /**
   * The comparison is strict and one-sided: a file whose modification time
   * moved back (say, replaced by an older copy) is not reloaded.
   */
  lemma OlderFileIsNotReloaded(t0: int, t: int)
    requires t <= t0
    ensures !CheckStep(Some(t0), Some(t)).reload
  {
  }

  // ----- Building the menu -----

  /** The submenu `initMenu` builds for one setting, entry by entry. */
  method BuildSubmenu(setting: SettingItem) returns (submenu: seq<SubmenuEntry>)
    requires setting.interface.Some? && setting.servers.Some?
    ensures submenu == Layout(setting)
  {
    submenu := [];
    submenu := submenu + [LoadEntry("Load", setting)];
    submenu := submenu + [Separator];
    submenu := submenu + [InfoEntry("Interface: " + setting.interface.value)];
    submenu := submenu + [InfoEntry("Servers:")];
    var servers := setting.servers.value;
    for k := 0 to |servers|
      invariant submenu == SubmenuHeader(setting) + ServerEntries(servers[..k])
    {
      assert ServerEntries(servers[..k + 1]) == ServerEntries(servers[..k]) + [InfoEntry(servers[k])];
      submenu := submenu + [InfoEntry(servers[k])];
    }
    assert servers[..|servers|] == servers;
  }

  class AppDelegate {
    /** The top-level items of the status-bar menu, top first. */
    var menu: seq<MenuItem>
    var config: Config?
    var lastConfigFileUpdate: Option<int>
    /** False once the application has been asked to terminate. */
    var running: bool

    /** The delegate as loaded with the menu's fixed items, before any configuration is read. */
    constructor (items: seq<MenuItem>)
      ensures menu == items && config == null && lastConfigFileUpdate == None && running
    {
      menu := items;
      config := null;
      lastConfigFileUpdate := None;
      running := true;
    }

    /** `quit`: the request to terminate; the status item's removal is not modelled. */
    method Quit()
      modifies this`running
      ensures !running
    {
      running := false;
    }

    /** `clearServers`: remove every profile item, walking a snapshot of the item list. */
    method ClearServers()
      modifies this`menu
      ensures menu == NonProfile(old(menu))
    {
      var snapshot := menu;
      var at := 0;
      for i := 0 to |snapshot|
        invariant at == |NonProfile(snapshot[..i])|
        invariant menu == NonProfile(snapshot[..i]) + snapshot[i..]
      {
        assert snapshot[..i + 1] == snapshot[..i] + [snapshot[i]];
        NonProfileAppend(snapshot[..i], [snapshot[i]]);
        assert NonProfile([snapshot[i]]) == if snapshot[i].ProfileItem? then [] else [snapshot[i]] by {
          assert [snapshot[i]][1..] == [];
        }
        assert menu[at] == snapshot[i];
        if snapshot[i].ProfileItem? {
          // removeItem: the item sits at index `at` of the current list
          menu := menu[..at] + menu[at + 1..];
          assert menu == NonProfile(snapshot[..i + 1]) + snapshot[i + 1..];
        } else {
          at := at + 1;
          assert menu == NonProfile(snapshot[..i + 1]) + snapshot[i + 1..];
        }
      }
      assert snapshot[..|snapshot|] == snapshot;
      assert menu == NonProfile(snapshot) + [];
    }

    /**
     * `initMenu`: read the configuration (quitting when the file cannot be
     * read), clear the profile items, then insert one item per setting at the
     * top while walking the settings from last to first.
     */
    method InitMenu(data: Option<Json>)
      requires data.Some? ==> Loadable(data.value)
      modifies this`menu, this`config, this`running
      ensures data.None? ==> !running && menu == old(menu) && config == old(config)
      ensures data.Some? ==>
        && running == old(running)
        && config != null && fresh(config)
        && config.settings == Some(Kept(Entries(data.value)))
        && menu == ProfileItems(Kept(Entries(data.value))) + NonProfile(old(menu))
    {
      if data.None? {
        Quit();
        return;
      }
      var c := new Config(data.value);
      config := c;
      ClearServers();
      var settings := c.settings.value;
      InsertProfiles(settings);
    }

    /**
     * The loop of `initMenu`: for each setting from the last to the first,
     * build its item and insert it at index 0, so the profiles end up on top
     * in the settings' order.
     */
    method InsertProfiles(settings: seq<SettingItem>)
      requires AllComplete(settings)
      modifies this`menu
      ensures menu == ProfileItems(settings) + old(menu)
    {
      var i := |settings|;
      while i > 0
        invariant 0 <= i <= |settings|
        invariant menu == ProfileItems(settings[i..]) + old(menu)
      {
        i := i - 1;
        var setting := settings[i];
        assert setting in settings;
        var submenu := BuildSubmenu(setting);
        var item := ProfileItem(setting.name.value, submenu);
        assert settings[i..][1..] == settings[i + 1..];
        menu := [item] + menu;
      }
      assert settings[0..] == settings;
    }

    /** `checkForConfigUpdate`. */
    method CheckForConfigUpdate(observed: Option<int>) returns (updateNeeded: bool)
      modifies this`lastConfigFileUpdate
      ensures updateNeeded == CheckStep(old(lastConfigFileUpdate), observed).reload
      ensures lastConfigFileUpdate == CheckStep(old(lastConfigFileUpdate), observed).recorded
    {
      if observed.None? {
        // the attributes or the modification date could not be read
        return true;
      }
      var lastModification := observed.value;
      if lastConfigFileUpdate.None? {
        lastConfigFileUpdate := Some(lastModification);
        return true;
      }
      updateNeeded := lastModification > lastConfigFileUpdate.value;
      lastConfigFileUpdate := Some(lastModification);
    }

    /**
     * `menuWillOpen`: rebuild the menu exactly when the check says the file
     * changed; otherwise leave the menu and the configuration alone.
     */
    method MenuWillOpen(observed: Option<int>, data: Option<Json>)
      requires CheckStep(lastConfigFileUpdate, observed).reload && data.Some? ==> Loadable(data.value)
      modifies this
      ensures lastConfigFileUpdate == CheckStep(old(lastConfigFileUpdate), observed).recorded
      ensures !CheckStep(old(lastConfigFileUpdate), observed).reload ==>
        menu == old(menu) && config == old(config) && running == old(running)
      ensures CheckStep(old(lastConfigFileUpdate), observed).reload && data.None? ==>
        !running && menu == old(menu) && config == old(config)
      ensures CheckStep(old(lastConfigFileUpdate), observed).reload && data.Some? ==>
        && running == old(running)
        && config != null && fresh(config)
        && config.settings == Some(Kept(Entries(data.value)))
        && menu == ProfileItems(Kept(Entries(data.value))) + NonProfile(old(menu))
    {
      var reload := CheckForConfigUpdate(observed);
      if !reload {
        return;
      }
      InitMenu(data);
    }
  }
}

# DNSSwitcher, modelled in Dafny

DNSSwitcher is a macOS status-bar utility. It reads DNS "profiles" from the
JSON file `~/.dnsswitcher.json`. Each profile has a name, a network interface
and a list of DNS servers. The program lists the profiles in its menu and
applies one with `networksetup -setdnsservers`. This project models the three
pieces of its logic and proves what they promise:

- **Decoding one profile** (`SettingItem(json:)`, module `SettingItems`). This
  is a pure function from a JSON value to a record with three optional fields.
  The JSON document is an abstract datatype (`JsonValues.Json`). It has the
  four SwiftyJSON accessors the program uses: `json[key]`, `.string`, `.array`
  and `.arrayValue`.
- **Loading the configuration** (`Config(data:)`, module `Configuration`). A
  class whose constructor starts from an empty list and, in a loop with
  `continue`, appends every complete entry of the "settings" array. It is
  proved against `Kept`, which filters the decoded entries. The lemmas about
  `Kept` show:
  - the settings are a subsequence of the entries;
  - an entry is kept exactly when it is complete;
  - a skipped entry has no effect on any other entry.
- **The application delegate** (module `App`, with the menu abstraction in
  module `Menus`):
  - the modification-time detector `checkForConfigUpdate`, and `menuWillOpen`,
    which rebuilds the menu only when that detector says so;
  - `clearServers` and `initMenu`, which update the list of menu items in
    place;
  - the argument vector that `setDNSServers` passes to `runCommand`.

The file system, the JSON parser and the process launcher are inputs:
- the configuration file's modification time is an `Option<int>` (None when
  the attributes or the date cannot be read);
- the file's contents are an `Option<Json>` (None when the file cannot be
  read; bytes SwiftyJSON cannot parse become the null value, as the library
  does);
- the exit status of a launched command comes from an oracle function of the
  launch path and the arguments.

Some behaviour of the code worth noting:
- A profile without "servers" is *kept*, with an empty server list, because
  `arrayValue` never fails. So the `servers == nil` test in `Config` never
  fires (`Configuration.CompleteExactlyWhenNamed`,
  `Configuration.EntryWithoutServersIsKept`).
- The interface is a field of each entry, and an entry without one is dropped.
  There is no file-wide interface.
- Profiles are shown in file order, not in reverse. The reverse walk undoes
  the reversal that inserting at index 0 would cause
  (the loop of `App.AppDelegate.InsertProfiles`, with `Menus.ProfileItemsInOrder`).
- A file that does not parse is not fatal: it yields no settings. Only a file
  that cannot be read at all makes `initMenu` quit.

Files: `wrappers.dfy` (Option), `json.dfy`, `setting_item.dfy`, `config.dfy`,
`menus.dfy`, `app.dfy`.

## Model

| member | source | states |
|---|---|---|
| SettingItems.ForceStrings | DNSSwitcher/SettingItem.swift:20 | the forced string conversion gives one string per element, same length and same order |
| SettingItems.NameFromKey | DNSSwitcher/SettingItem.swift:19 | `name` is present iff the entry is an object whose "name" is a string, and it is then that string |
| SettingItems.InterfaceFromKey | DNSSwitcher/SettingItem.swift:21 | `interface` is present iff the entry is an object whose "interface" is a string, and it is then that string |
| SettingItems.ServersFromKey | DNSSwitcher/SettingItem.swift:20 | `servers` is always present; it has the "servers" array's length and the element strings in order, and is empty when there is no such array |
| SettingItems.NonStringServerAborts | DNSSwitcher/SettingItem.swift:20 | any entry whose "servers" array has a non-string element, at any position, breaks the force-unwrap precondition |
| SettingItems.ServersDecodableExactly | DNSSwitcher/SettingItem.swift:20 | the force unwrap holds iff the entry has no "servers" array or every element of it is a string |
| SettingItems.OnlyThreeKeysRead | DNSSwitcher/SettingItem.swift:18-22 | two entries that agree on "name", "servers" and "interface" decode to the same item |
| SettingItems.OtherKeysIgnored | DNSSwitcher/SettingItem.swift:18-22 | adding or changing any other key leaves the decoded item unchanged |
| SettingItems.NonObjectDecodesEmpty | DNSSwitcher/SettingItem.swift:18-22 | a non-object entry decodes to no name, no interface and an empty server list |
| Configuration.LoadableExactly | DNSSwitcher/Config.swift:24-25 | a document loads without aborting iff it has no "settings" array or every entry of that array has only string servers |
| Configuration.Keep | DNSSwitcher/Config.swift:24-31 | the kept list is never longer than the list it filters, and every kept item has its name, servers and interface |
| Configuration.Config.constructor | DNSSwitcher/Config.swift:16-32 | after init, `settings` is present and equals the complete decoded entries in array order; it is empty when "settings" is not an array |
| Configuration.KeepAppend | DNSSwitcher/Config.swift:24-31 | entries are judged one at a time: filtering a concatenation gives the concatenation of the filtered parts |
| Configuration.SkippedItemIsInvisible | DNSSwitcher/Config.swift:26-29 | an incomplete item adds nothing, wherever it stands |
| Configuration.SkippedEntryIsInvisible | DNSSwitcher/Config.swift:24-31 | removing an incomplete entry from anywhere in the array leaves the settings unchanged, so a bad entry never affects later ones |
| Configuration.KeepAllComplete | DNSSwitcher/Config.swift:26-30 | when every entry is complete, every entry is kept, in order |
| Configuration.KeptIndicesFromSelect | DNSSwitcher/Config.swift:24-31 | the kept suffix equals the items at a strictly increasing list of positions, and a position is on that list iff its item is complete |
| Configuration.KeptIsSelection | DNSSwitcher/Config.swift:24-31 | the settings are the decoded entries at strictly increasing positions (order kept), exactly the positions whose entry is complete (every other entry is dropped) |
| Configuration.CompleteExactlyWhenNamed | DNSSwitcher/Config.swift:26 | because `servers` is always set, an entry is kept iff its "name" and "interface" are strings |
| Configuration.EntryWithoutServersIsKept | DNSSwitcher/Config.swift:26-30 | a document with one entry lacking "servers" and one lacking "interface" loads as exactly the first, with no servers |
| Menus.LayoutShape | DNSSwitcher/AppDelegate.swift:72-93 | a profile submenu has 4 entries plus one per server: "Load" (carrying the profile), a separator, "Interface: X", "Servers:", then one line per server in order |
| Menus.ProfileItemsInOrder | DNSSwitcher/AppDelegate.swift:66-100 | one profile item per setting; item k is titled with setting k's name and loads setting k |
| Menus.NonProfileAppend | DNSSwitcher/AppDelegate.swift:103-109 | clearing works item by item: clearing a concatenation clears each part |
| Menus.NonProfileMembers | DNSSwitcher/AppDelegate.swift:103-109 | after clearing, an item is in the menu iff it was there and is not a profile item |
| Menus.NonProfileKeepsOthers | DNSSwitcher/AppDelegate.swift:103-109 | a menu with no profile items is left exactly as it was, order included |
| Menus.NonProfileOfProfileItems | DNSSwitcher/AppDelegate.swift:63-100 | every item `initMenu` inserts is removed again by the next `clearServers` |
| Menus.RebuildReplacesProfiles | DNSSwitcher/AppDelegate.swift:60-100 | rebuilding over an already-built menu gives the same menu as rebuilding over the original: only the profile items are replaced |
| App.DnsCommandShape | DNSSwitcher/AppDelegate.swift:172 | the argument vector is "networksetup", "-setdnsservers", the interface, then exactly the servers in their original order |
| App.SetDnsServersReportsFailure | DNSSwitcher/AppDelegate.swift:171-186 | the command runs under /usr/bin/env with that vector, and an error is reported, with the status, iff the exit status is non-zero |
| App.LoadEntryAppliesItsProfile | DNSSwitcher/AppDelegate.swift:75-76 | the first submenu entry of profile item k is the action item titled "Load" carrying setting k, which is complete, so the unwraps in `setDNSServers` succeed and it sets setting k's servers on setting k's interface |
| App.FailedReadForcesReload | DNSSwitcher/AppDelegate.swift:132-142 | when the attributes or the modification date cannot be read, the check says reload and the recorded time is unchanged |
| App.FirstLoadReloads | DNSSwitcher/AppDelegate.swift:145-148 | with no recorded time, the check says reload and records the time read |
| App.ReloadExactlyWhenNewer | DNSSwitcher/AppDelegate.swift:151-153 | otherwise it says reload iff the file is strictly newer than recorded, and records the time read |
| App.UnchangedFileReloadsOnce | DNSSwitcher/AppDelegate.swift:145-153 | after a successful read, a second check of an unchanged file does not reload |
| App.OlderFileIsNotReloaded | DNSSwitcher/AppDelegate.swift:151 | a modification time that moved back does not cause a reload |
| App.BuildSubmenu | DNSSwitcher/AppDelegate.swift:72-93 | the submenu built entry by entry is the profile's layout |
| App.AppDelegate.constructor | DNSSwitcher/AppDelegate.swift:21-22 | the delegate starts with no configuration and no recorded modification time |
| App.AppDelegate.Quit | DNSSwitcher/AppDelegate.swift:203-206 | quitting marks the application as no longer running |
| App.AppDelegate.ClearServers | DNSSwitcher/AppDelegate.swift:103-109 | removing the profile items from a snapshot, one by one, leaves exactly the other items in their original order |
| App.AppDelegate.InsertProfiles | DNSSwitcher/AppDelegate.swift:66-100 | inserting at index 0 while walking the settings backwards puts one profile item per setting on top, in settings order, above the old items |
| App.AppDelegate.InitMenu | DNSSwitcher/AppDelegate.swift:51-101 | an unreadable file makes it quit with the menu unchanged; otherwise the new configuration holds the loaded settings and the menu is their profile items followed by the previous non-profile items |
| App.AppDelegate.CheckForConfigUpdate | DNSSwitcher/AppDelegate.swift:129-154 | the answer and the new recorded time are those of one detector step on the old recorded time and the time read |
| App.AppDelegate.MenuWillOpen | DNSSwitcher/AppDelegate.swift:159-166 | the menu is rebuilt exactly when the check says reload; otherwise the menu, the configuration and the running state are untouched |

## Left out

- Process launching (`NSTask` in `runCommand`): a foreign call. It is an oracle from launch path and arguments to an `int32` exit status. A launch that fails is not modelled.
- File-system I/O: reading the file (`NSData(contentsOfFile:)`) and its attributes (`attributesOfItemAtPath`) are inputs. `createDefaultConfigFile`, `fileExistsAtPath` and the default-file copy and write are not modelled.
- SwiftyJSON's byte parser is a foreign library. The model starts from a parsed `Json` value, and object keys form a map, so duplicate keys are not represented.
- `NSDate`: modification times are integers, and `compare(...) == .OrderedDescending` is `>`.
- App.AppDelegate.CheckForConfigUpdate: its two failure paths (the attributes cannot be read; there is no modification date) are one input, None, because both return true and record nothing.
- SettingItems.FromJson and Configuration.Config.constructor: the force unwrap `$0.string!` aborts the whole program on a non-string server. The model states this as a precondition (`ServersDecodable`, `Loadable`) and does not model the abort itself.
- App.AppDelegate.InitMenu: it requires `Loadable` of the file's contents, for the same reason. The force unwraps of `name` and `interface` inside it need no precondition, because they are proved safe.
- App.AppDelegate.MenuWillOpen: it requires `Loadable` only when the check decides to reload, for the same reason.
- App.AppDelegate.Quit: removing the status item and the process ending are not modelled. The model only sets `running` to false.
- Cocoa UI plumbing: the status item and icon, the version label, `applicationDidFinishLaunching`, `editServers`, `about` and `restoreDefaultServers` (a default-file copy followed by `initMenu`).
- Menu items are values. `NSMenuItem` identity is replaced by the item's current position, which `ClearServers` tracks. Key equivalents, selectors and `enabled` flags become the entry kinds (`LoadEntry` is the enabled action item, with its title; `InfoEntry` is a disabled line).
- The `print` diagnostics are not modelled, except the failure report of `setDNSServers`, which is the returned status.
- Pre-activation commands, interface enumeration and fallback, saving the configuration, and reading the current DNS servers do not exist in this code and are not modelled.

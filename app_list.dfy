/**
 * The game list on the settings screen: an "Add" entry followed by one
 * entry per registered package, titled by the app's label and sorted by it.
 * The list is kept as package names in the settings provider; the package
 * manager's lookup of a label is a map from package to label.
 */
module AppLists {

  import opened Wrappers
  import opened Platform
  import opened Text
  import opened Sorting
  import DeviceSettings

  const RESULT_OK := -1

  datatype Entry = AddEntry | AppEntry(key: string, title: string)

  function TitleKey(e: Entry): string {
    match e
    case AddEntry => "Add"
    case AppEntry(_, title) => Lower(title)
  }

  predicate NoDuplicates(s: seq<string>) {
    forall i, j | 0 <= i < j < |s| :: s[i] != s[j]
  }

  /** `registerApp`'s list update: append the package only when it is absent. */
  function WithApp(apps: seq<string>, p: string): (r: seq<string>)
    ensures p in r
    ensures forall a :: a in apps ==> a in r
    ensures NoDuplicates(apps) ==> NoDuplicates(r)
    ensures p in apps ==> r == apps
    ensures p !in apps ==> r == apps + [p]
  {
    if p in apps then apps else apps + [p]
  }

  /** `MutableList.remove`: drop the first occurrence of `key`, if any. */
  function WithoutApp(apps: seq<string>, key: string): (r: seq<string>)
    ensures key !in apps ==> r == apps
    ensures key in apps ==> |r| == |apps| - 1 && multiset(r) == multiset(apps) - multiset{key}
  {
    if |apps| == 0 then []
    else
      assert apps == [apps[0]] + apps[1..];
      if apps[0] == key then apps[1..]
      else [apps[0]] + WithoutApp(apps[1..], key)
  }

  /** The position of the first `key`, or `|apps|` when there is none. */
  function FirstIndexOf(apps: seq<string>, key: string): (i: nat)
    ensures i <= |apps| && key !in apps[..i]
    ensures i < |apps| <==> key in apps
    ensures i < |apps| ==> apps[i] == key
  {
    if |apps| == 0 then 0
    else if apps[0] == key then 0
    else
      var k := FirstIndexOf(apps[1..], key);
      assert apps[..k + 1] == [apps[0]] + apps[1..][..k];
      k + 1
  }

  /** Removing at a first occurrence keeps everything before it and everything after it. */
  lemma {:induction false} WithoutAppAt(apps: seq<string>, key: string, i: nat)
    requires i < |apps| && apps[i] == key && key !in apps[..i]
    ensures WithoutApp(apps, key) == apps[..i] + apps[i + 1..]
  {
    if i > 0 {
      var tail := apps[1..];
      assert apps[0] in apps[..i];
      assert tail[..i - 1] == apps[1..i];
      WithoutAppAt(tail, key, i - 1);
      assert apps[..i] == [apps[0]] + tail[..i - 1];
      assert apps[i + 1..] == tail[i..];
    }
  }

  /** The occurrence removed is the first one, and the rest keep their order. */
  lemma WithoutAppFirst(apps: seq<string>, key: string)
    requires key in apps
    ensures var i := FirstIndexOf(apps, key);
      WithoutApp(apps, key) == apps[..i] + apps[i + 1..]
  {
    WithoutAppAt(apps, key, FirstIndexOf(apps, key));
  }

  /** In a list without duplicates, removing a package removes it entirely. */
  lemma {:induction false} WithoutAppRemoves(apps: seq<string>, key: string)
    requires NoDuplicates(apps)
    ensures key !in WithoutApp(apps, key)
  {
    if |apps| > 0 {
      if apps[0] == key {
        assert forall j | 0 < j < |apps| :: apps[j] != apps[0];
        assert key !in apps[1..];
      } else {
        WithoutAppRemoves(apps[1..], key);
      }
    }
  }

  /** Removing a package just added gives the list back. */
  lemma {:induction false} RemoveUndoesAdd(apps: seq<string>, p: string)
    requires p !in apps
    ensures WithoutApp(WithApp(apps, p), p) == apps
  {
    if |apps| > 0 {
      assert (apps + [p])[1..] == apps[1..] + [p];
      RemoveUndoesAdd(apps[1..], p);
    }
  }

  /** The names `updateAppList` loads: the stored list when settings exist and it is non-empty. */
  function Loaded(hasSettings: bool, s: Store): (r: seq<string>)
    ensures !hasSettings ==> r == []
    ensures forall i :: 0 <= i < |r| ==> r[i] != "" && ';' !in r[i]
  {
    if hasSettings && |DeviceSettings.UserGamesOf(s)| > 0 then DeviceSettings.UserGamesOf(s) else []
  }

  /** The non-empty check is redundant: with settings the stored list is what is loaded. */
  lemma LoadedIsStored(s: Store)
    ensures Loaded(true, s) == DeviceSettings.UserGamesOf(s)
  {
  }

  predicate Storable(names: seq<string>) {
    forall i | 0 <= i < |names| :: names[i] != "" && ';' !in names[i]
  }

  /** A registration survives the write and the reload exactly. */
  lemma RegisterRoundTrip(s: Store, apps: seq<string>, p: string)
    requires Storable(apps) && p != "" && ';' !in p
    ensures Loaded(true, DeviceSettings.PutUserGames(s, WithApp(apps, p))) == WithApp(apps, p)
  {
    var w := WithApp(apps, p);
    assert Storable(w) by {
      forall i | 0 <= i < |w| ensures w[i] != "" && ';' !in w[i] {
        if i < |apps| { assert w[i] == apps[i]; }
      }
    }
    DeviceSettings.NamesRoundTripExact(s, w);
  }

  predicate AllInstalled(apps: seq<string>, installed: map<string, string>) {
    forall i | 0 <= i < |apps| :: apps[i] in installed
  }

  function Entries(apps: seq<string>, installed: map<string, string>): seq<Entry>
    requires AllInstalled(apps, installed)
  {
    seq(|apps|, i requires 0 <= i < |apps| => AppEntry(apps[i], installed[apps[i]]))
  }

  /** The entries after "Add": all registered apps sorted by lower-cased title, or none at all when one
      of them cannot be resolved. */
  function Listed(apps: seq<string>, installed: map<string, string>): (r: seq<Entry>)
    ensures AllInstalled(apps, installed) ==> |r| == |apps| && SortedBy(r, TitleKey)
    ensures !AllInstalled(apps, installed) ==> r == []
    ensures forall e :: e in r ==> e.AppEntry? && e.key in apps && e.title == installed[e.key]
  {
    if AllInstalled(apps, installed) then
      var es := Entries(apps, installed);
      var r := SortBy(es, TitleKey);
      assert forall e :: e in r ==> e in es by {
        forall e | e in r ensures e in es {
          assert multiset(r)[e] > 0;
        }
      }
      r
    else []
  }

  /** Every registered package gets exactly one entry, as many as it appears in the list. */
  lemma ListedKeys(apps: seq<string>, installed: map<string, string>)
    requires AllInstalled(apps, installed)
    ensures multiset(Listed(apps, installed)) == multiset(Entries(apps, installed))
  {
  }

  datatype ActivityResult = ActivityResult(resultCode: int, app: Option<string>)

  /** The package `useSelectorResult` registers: only for an OK result that carries one. */
  function SelectedApp(result: Option<ActivityResult>): (r: Option<string>)
    ensures r.Some? <==> result.Some? && result.value.resultCode == RESULT_OK && result.value.app.Some?
    ensures r.Some? ==> r == result.value.app
  {
    if result.Some? && result.value.resultCode == RESULT_OK then result.value.app else None
  }

  class AppListPreferences {
    const device: Device
    /** The settings accessor exists only when the preference has a context. */
    const hasSettings: bool
    var apps: seq<string>
    var entries: seq<Entry>

    constructor(device: Device, hasSettings: bool)
      ensures this.device == device && this.hasSettings == hasSettings
      ensures apps == [] && entries == []
    {
      this.device := device;
      this.hasSettings := hasSettings;
      apps := [];
      entries := [];
    }

    /** `updateAppList`: reload the names, then rebuild the entries with "Add" first. */
    method UpdateAppList(installed: map<string, string>)
      modifies this`apps, this`entries
      ensures apps == Loaded(hasSettings, device.settings)
      ensures entries == [AddEntry] + Listed(apps, installed)
    {
      apps := [];
      if hasSettings {
        var stored := DeviceSettings.UserGamesOf(device.settings);
        if |stored| > 0 {
          apps := apps + stored;
        }
      }
      entries := [AddEntry];
      var ok, built := ResolveEntries(apps, installed);
      if !ok {
        return;
      }
      entries := entries + SortBy(built, TitleKey);
    }

    /** The `map` of `updateAppList`: one entry per package, or a stop at the first unresolved one. */
    static method ResolveEntries(apps: seq<string>, installed: map<string, string>) returns (ok: bool, built: seq<Entry>)
      ensures ok <==> AllInstalled(apps, installed)
      ensures ok ==> built == Entries(apps, installed)
    {
      built := [];
      var i := 0;
      while i < |apps|
        invariant 0 <= i <= |apps|
        invariant forall k | 0 <= k < i :: apps[k] in installed
        invariant |built| == i
        invariant forall k | 0 <= k < i :: built[k] == AppEntry(apps[k], installed[apps[k]])
      {
        if apps[i] !in installed {
          return false, built;
        }
        built := built + [AppEntry(apps[i], installed[apps[i]])];
        i := i + 1;
      }
      ok := true;
    }

    /** `registerApp`: add the package if absent, write the list, reload. */
    method RegisterApp(p: string, installed: map<string, string>)
      modifies this`apps, this`entries, device`settings
      ensures device.settings ==
        if hasSettings then DeviceSettings.PutUserGames(old(device.settings), WithApp(old(apps), p))
        else old(device.settings)
      ensures apps == Loaded(hasSettings, device.settings)
      ensures entries == [AddEntry] + Listed(apps, installed)
    {
      if p !in apps {
        apps := apps + [p];
      }
      if hasSettings {
        device.settings := DeviceSettings.PutUserGames(device.settings, apps);
      }
      UpdateAppList(installed);
    }

    /** `unregisterApp`: remove the entry's package, write the list, reload. */
    method UnregisterApp(key: string, installed: map<string, string>)
      modifies this`apps, this`entries, device`settings
      ensures device.settings ==
        if hasSettings then DeviceSettings.PutUserGames(old(device.settings), WithoutApp(old(apps), key))
        else old(device.settings)
      ensures apps == Loaded(hasSettings, device.settings)
      ensures entries == [AddEntry] + Listed(apps, installed)
    {
      apps := WithoutApp(apps, key);
      if hasSettings {
        device.settings := DeviceSettings.PutUserGames(device.settings, apps);
      }
      UpdateAppList(installed);
    }

    /** `useSelectorResult`: register the selected package, if the selector returned one. */
    method UseSelectorResult(result: Option<ActivityResult>, installed: map<string, string>)
      modifies this`apps, this`entries, device`settings
      ensures SelectedApp(result).None? ==>
        apps == old(apps) && entries == old(entries) && device.settings == old(device.settings)
      ensures SelectedApp(result).Some? && hasSettings ==>
        device.settings == DeviceSettings.PutUserGames(old(device.settings), WithApp(old(apps), SelectedApp(result).value))
      ensures SelectedApp(result).Some? ==>
        apps == Loaded(hasSettings, device.settings) && entries == [AddEntry] + Listed(apps, installed)
    {
      if result.Some? && result.value.resultCode == RESULT_OK && result.value.app.Some? {
        RegisterApp(result.value.app.value, installed);
      }
    }
  }
}

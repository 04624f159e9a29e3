/**
 * The app selector screen: the candidate list offered for registration and
 * the search box that filters it. The selector reads the game list as
 * package names.
 */
module AppSelector {

  import opened Wrappers
  import opened Text
  import opened Sorting
  import opened AppsAdapters

  /** An app is offered when it is not this app, not a system app, and not already registered;
      without the settings the registered list is unknown and nothing is offered. */
  predicate Eligible(a: App, ownPackage: Option<string>, registered: Option<seq<string>>) {
    && (ownPackage.None? || a.packageName != ownPackage.value)
    && !a.system
    && registered.Some? && a.packageName !in registered.value
  }

  function EligibleApps(installed: seq<App>, ownPackage: Option<string>, registered: Option<seq<string>>): (r: seq<App>)
    ensures forall a :: a in r <==> a in installed && Eligible(a, ownPackage, registered)
    ensures |r| <= |installed|
    ensures registered.None? ==> r == []
  {
    if |installed| == 0 then []
    else if Eligible(installed[0], ownPackage, registered) then
      [installed[0]] + EligibleApps(installed[1..], ownPackage, registered)
    else EligibleApps(installed[1..], ownPackage, registered)
  }

  function LabelKey(a: App): string { Lower(a.appLabel) }

  /** The candidates of `setupAppListView`: the eligible apps sorted by lower-cased label. */
  function Candidates(installed: seq<App>, ownPackage: Option<string>, registered: Option<seq<string>>): (r: seq<App>)
    ensures forall a :: a in r <==> a in installed && Eligible(a, ownPackage, registered)
    ensures SortedBy(r, LabelKey)
    ensures multiset(r) == multiset(EligibleApps(installed, ownPackage, registered))
  {
    var e := EligibleApps(installed, ownPackage, registered);
    var r := SortBy(e, LabelKey);
    assert forall a :: a in r <==> a in e by {
      forall a ensures a in r <==> a in e {
        assert multiset(r)[a] == multiset(e)[a];
      }
    }
    r
  }

  /** Without the settings no app is offered. */
  lemma NoSettingsNoCandidates(installed: seq<App>, ownPackage: Option<string>)
    ensures Candidates(installed, ownPackage, None) == []
  {
    var r := Candidates(installed, ownPackage, None);
    assert |multiset(r)| == 0;
  }

  /** A registered package is never offered again. */
  lemma RegisteredExcluded(installed: seq<App>, ownPackage: Option<string>, registered: seq<string>, i: int)
    requires 0 <= i < |Candidates(installed, ownPackage, Some(registered))|
    ensures Candidates(installed, ownPackage, Some(registered))[i].packageName !in registered
    ensures !Candidates(installed, ownPackage, Some(registered))[i].system
  {
    var r := Candidates(installed, ownPackage, Some(registered));
    assert r[i] in r;
  }

  class AppSelectorFragment {
    var adapter: Option<AppsAdapter>

    constructor()
      ensures adapter.None?
    {
      adapter := None;
    }

    /** `setupAppListView`: a fresh adapter over the candidates, unfiltered. */
    method SetupAppListView(installed: seq<App>, ownPackage: Option<string>, registered: Option<seq<string>>)
      modifies this`adapter
      ensures adapter.Some? && fresh(adapter.value)
      ensures adapter.value.apps == Candidates(installed, ownPackage, registered)
      ensures adapter.value.filteredList == [] && adapter.value.Valid()
    {
      var a := new AppsAdapter(Candidates(installed, ownPackage, registered));
      adapter := Some(a);
    }

    /** A query change refilters the adapter, if there is one. */
    method OnQueryTextChange(hasContext: bool, matches: string -> bool) returns (handled: bool)
      modifies if adapter.Some? then {adapter.value} else {}
      ensures !handled
      ensures adapter.Some? && hasContext ==>
        adapter.value.filteredList == Matching(adapter.value.apps, matches)
      ensures adapter.Some? && !hasContext ==>
        adapter.value.filteredList == old(adapter.value.filteredList)
    {
      if adapter.Some? {
        adapter.value.FilterWith(hasContext, matches);
      }
      handled := false;
    }
  }
}

/**
 * The app selector's list adapter: a fixed list of installed apps and a
 * filter buffer that a search query refills. An empty buffer shows the whole
 * list. The case-insensitive `.*text.*` regular expression is abstracted as
 * a predicate on the app's label.
 */
module AppsAdapters {

  /** The fields of an installed app the selector reads. */
  datatype App = App(packageName: string, appLabel: string, system: bool)

  /** `apps.filter { matches(label) }`: the matching apps in their original order. */
  function Matching(apps: seq<App>, matches: string -> bool): (r: seq<App>)
    ensures forall a :: a in r <==> a in apps && matches(a.appLabel)
    ensures |r| <= |apps|
  {
    if |apps| == 0 then []
    else if matches(apps[0].appLabel) then [apps[0]] + Matching(apps[1..], matches)
    else Matching(apps[1..], matches)
  }

  /** Filtering distributes over concatenation, so the filter keeps the apps' relative order. */
  lemma {:induction false} MatchingConcat(a: seq<App>, b: seq<App>, matches: string -> bool)
    ensures Matching(a + b, matches) == Matching(a, matches) + Matching(b, matches)
  {
    if |a| == 0 {
      assert a + b == b;
    } else {
      assert (a + b)[1..] == a[1..] + b;
      MatchingConcat(a[1..], b, matches);
    }
  }

  /** Every app matching means nothing is dropped. */
  lemma {:induction false} MatchingAll(apps: seq<App>, matches: string -> bool)
    requires forall i | 0 <= i < |apps| :: matches(apps[i].appLabel)
    ensures Matching(apps, matches) == apps
  {
    if |apps| > 0 {
      MatchingAll(apps[1..], matches);
    }
  }

  class AppsAdapter {
    const apps: seq<App>
    var filteredList: seq<App>

    constructor(apps: seq<App>)
      ensures this.apps == apps && filteredList == [] && Valid()
    {
      this.apps := apps;
      filteredList := [];
    }

    /** The filter buffer holds only listed apps. */
    predicate Valid()
      reads this
    {
      forall a :: a in filteredList ==> a in apps
    }

    /** `displayApp`: the filter when it is non-empty, else every app. */
    function Displayed(): seq<App>
      reads this
    {
      if |filteredList| == 0 then apps else filteredList
    }

    /** `getItemCount`: the size of what is displayed. */
    function ItemCount(): (n: int)
      reads this
      ensures n == |Displayed()|
      ensures |filteredList| == 0 ==> n == |apps|
    {
      if |filteredList| == 0 then |apps| else |filteredList|
    }

    /** The app bound at `position` and handed to the click callback: always one of the listed apps. */
    function ItemAt(position: int): (a: App)
      reads this
      requires Valid() && 0 <= position < ItemCount()
      ensures a in apps
    {
      Displayed()[position]
    }

    /** `filterWith`: nothing without a context; else the buffer becomes the matching apps, and is
        emptied, so that every app shows, when none match. */
    method FilterWith(hasContext: bool, matches: string -> bool)
      modifies this`filteredList
      ensures !hasContext ==> filteredList == old(filteredList)
      ensures hasContext ==> filteredList == Matching(apps, matches)
      ensures hasContext && Matching(apps, matches) == [] ==> Displayed() == apps
      ensures old(Valid()) ==> Valid()
    {
      if !hasContext {
        return;
      }
      var found := Matching(apps, matches);
      if |found| > 0 {
        filteredList := [];
        filteredList := filteredList + found;
      } else {
        filteredList := [];
      }
    }
  }
}

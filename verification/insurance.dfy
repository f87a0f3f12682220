/** The insurance screen: the network catalogue, the provider picker with its
    case-insensitive search and fixed-size pages, and the screen's state. */
module Insurance {
  import opened Routing

  datatype Network = Network(name: string, types: seq<string>, link: string)

  const ALL_INSURANCE_NETWORKS: seq<Network> := [
    Network("Aetna", ["PPO", "HMO", "EPO", "POS"], "#view-aetna-plans"),
    Network("Blue Cross Blue Shield", ["PPO", "HMO", "POS"], "#view-bcbs-plans"),
    Network("Cigna", ["PPO", "HMO", "EPO"], "#view-cigna-plans"),
    Network("UnitedHealthcare", ["PPO", "HMO", "POS"], "#view-uhc-plans"),
    Network("Kaiser Permanente", ["HMO"], "#view-kaiser-plans"),
    Network("Humana", ["PPO", "HMO"], "#view-humana-plans"),
    Network("Delta Dental", ["PPO", "HMO"], "#view-delta-plans"),
    Network("VSP Vision Care", ["PPO"], "#view-vsp-plans"),
    Network("Medicare", ["Original Medicare", "Medicare Advantage"], "#view-medicare-plans"),
    Network("Medicaid", ["State Medicaid"], "#view-medicaid-plans")
  ]

  datatype Provider = Provider(id: int, name: string, location: string, specialty: string)

  const ALL_PROVIDERS: seq<Provider> := [
    Provider(1, "Dr. Smith", "Downtown Medical Center", "Family Medicine"),
    Provider(2, "Dr. Johnson", "Westside Clinic", "Internal Medicine"),
    Provider(3, "Dr. Williams", "North Medical Group", "Pediatrics"),
    Provider(4, "Dr. Brown", "South Bay Medical", "Cardiology"),
    Provider(5, "Dr. Jones", "East Side Health", "Dermatology"),
    Provider(6, "Dr. Garcia", "Central Medical Plaza", "Orthopedics"),
    Provider(7, "Dr. Miller", "Harbor Health Center", "Neurology"),
    Provider(8, "Dr. Davis", "Valley Medical Group", "Endocrinology"),
    Provider(9, "Dr. Rodriguez", "Lakeside Clinic", "Psychiatry"),
    Provider(10, "Dr. Martinez", "Mountain View Medical", "Rheumatology"),
    Provider(11, "Dr. Anderson", "Riverside Health", "Gastroenterology"),
    Provider(12, "Dr. Taylor", "Ocean Medical Center", "Pulmonology")
  ]

  const PROVIDERS_PER_PAGE := 10

  /** `ALL_INSURANCE_NETWORKS.map(network => network.name)` */
  function CatalogNames(): (names: seq<string>)
    ensures |names| == |ALL_INSURANCE_NETWORKS|
    ensures forall i :: 0 <= i < |names| ==> names[i] == ALL_INSURANCE_NETWORKS[i].name
  {
    seq(|ALL_INSURANCE_NETWORKS|, i requires 0 <= i < |ALL_INSURANCE_NETWORKS| => ALL_INSURANCE_NETWORKS[i].name)
  }

  /** `allProviders.map(provider => provider.id)` */
  function ProviderIds(): (ids: seq<int>)
    ensures |ids| == |ALL_PROVIDERS|
    ensures forall i :: 0 <= i < |ids| ==> ids[i] == ALL_PROVIDERS[i].id
  {
    seq(|ALL_PROVIDERS|, i requires 0 <= i < |ALL_PROVIDERS| => ALL_PROVIDERS[i].id)
  }

  // ---------------------------------------------------------------------------
  // Membership toggles

  ghost predicate NoDup<T>(s: seq<T>) {
    forall i, j :: 0 <= i < j < |s| ==> s[i] != s[j]
  }

  /** `a` is `b` with some entries dropped and the rest in their original order. */
  ghost predicate IsSublist<T>(a: seq<T>, b: seq<T>)
    decreases |b|
  {
    a == [] || (b != [] && ((a[0] == b[0] && IsSublist(a[1..], b[1..])) || IsSublist(a, b[1..])))
  }

  /** `prev.filter(i => i !== x)` */
  function Without<T(==)>(s: seq<T>, x: T): (r: seq<T>)
    ensures multiset(r) == multiset(s)[x := 0]
    ensures |r| == |s| - multiset(s)[x]
    ensures forall y :: y in r ==> y in s && y != x
    ensures forall y :: y in s && y != x ==> y in r
    ensures IsSublist(r, s)
  {
    if s == [] then []
    else
      assert s == [s[0]] + s[1..];
      if s[0] == x then Without(s[1..], x) else [s[0]] + Without(s[1..], x)
  }

  /** `prev.includes(x) ? prev.filter(i => i !== x) : [...prev, x]`, the body of
      both `handleToggleInsurance` and `handleProviderSelect`. */
  function Toggle<T(==)>(s: seq<T>, x: T): (r: seq<T>)
    ensures x in r <==> x !in s
    ensures forall y :: y in s && y != x ==> y in r
    ensures forall y :: y in r && y != x ==> y in s
    ensures x in s ==> multiset(r) == multiset(s)[x := 0] && IsSublist(r, s)
    ensures x !in s ==> r == s + [x]
  {
    if x in s then Without(s, x) else s + [x]
  }

  lemma {:induction false} NoDupCount<T>(s: seq<T>, x: T)
    requires NoDup(s) && x in s
    ensures multiset(s)[x] == 1
  {
    assert s == [s[0]] + s[1..];
    if s[0] == x {
      assert x !in s[1..];
    } else {
      NoDupCount(s[1..], x);
    }
  }

  lemma {:induction false} WithoutKeepsNoDup<T>(s: seq<T>, x: T)
    requires NoDup(s)
    ensures NoDup(Without(s, x))
  {
    if s != [] {
      WithoutKeepsNoDup(s[1..], x);
      if s[0] != x {
        var rest := Without(s[1..], x);
        assert s[0] !in multiset(s[1..]);
        assert s[0] !in multiset(rest);
        assert Without(s, x) == [s[0]] + rest;
      }
    }
  }

  /** A duplicate-free selection stays duplicate-free under toggling, and
      toggling a selected entry shortens it by exactly one. */
  lemma ToggleKeepsNoDup<T>(s: seq<T>, x: T)
    requires NoDup(s)
    ensures NoDup(Toggle(s, x))
    ensures x in s ==> |Toggle(s, x)| == |s| - 1
    ensures x !in s ==> |Toggle(s, x)| == |s| + 1
  {
    if x in s {
      WithoutKeepsNoDup(s, x);
      NoDupCount(s, x);
    }
  }

  /** Filtering an entry out of a list that ends with its only occurrence
      gives back the list before it. */
  lemma {:induction false} WithoutAppended<T>(s: seq<T>, x: T)
    requires x !in s
    ensures Without(s + [x], x) == s
  {
    if s != [] {
      assert (s + [x])[1..] == s[1..] + [x];
      WithoutAppended(s[1..], x);
    }
  }

  /** Toggling the same entry twice restores exactly the original membership;
      when the entry was absent it restores the very list. (When it was
      present, the second toggle puts it back at the end.) */
  lemma ToggleTwice<T>(s: seq<T>, x: T)
    ensures forall y :: y in s ==> y in Toggle(Toggle(s, x), x)
    ensures forall y :: y in Toggle(Toggle(s, x), x) ==> y in s
    ensures x !in s ==> Toggle(Toggle(s, x), x) == s
  {
    if x !in s {
      WithoutAppended(s, x);
    }
  }

  // ---------------------------------------------------------------------------
  // Case-insensitive substring search

  /** ASCII `toLowerCase` of one character. */
  function LowerChar(c: char): char {
    if 'A' <= c <= 'Z' then (c as int + 32) as char else c
  }

  /** ASCII `toLowerCase`: each upper-case letter becomes its lower-case
      letter, 32 code points on; every other character stays. */
  function ToLower(s: string): (r: string)
    ensures |r| == |s|
    ensures forall i :: 0 <= i < |r| ==> !('A' <= r[i] <= 'Z')
    ensures forall i :: 0 <= i < |s| && 'A' <= s[i] <= 'Z' ==> r[i] as int == s[i] as int + 32
    ensures forall i :: 0 <= i < |r| ==> ('A' <= s[i] <= 'Z' || r[i] == s[i])
  {
    seq(|s|, i requires 0 <= i < |s| => LowerChar(s[i]))
  }

  /** Two strings that differ only in the case of ASCII letters. */
  ghost predicate EqualIgnoringCase(a: string, b: string) {
    |a| == |b| &&
    forall i :: 0 <= i < |a| ==>
      a[i] == b[i]
      || ('A' <= a[i] <= 'Z' && b[i] as int == a[i] as int + 32)
      || ('A' <= b[i] <= 'Z' && a[i] as int == b[i] as int + 32)
  }

  /** Lower-casing forgets exactly the case of ASCII letters: two strings
      lower-case alike iff they are equal up to case. */
  lemma ToLowerIgnoresCase(a: string, b: string)
    ensures ToLower(a) == ToLower(b) <==> EqualIgnoringCase(a, b)
  {
    if ToLower(a) == ToLower(b) {
      forall i | 0 <= i < |a|
        ensures a[i] == b[i]
                || ('A' <= a[i] <= 'Z' && b[i] as int == a[i] as int + 32)
                || ('A' <= b[i] <= 'Z' && a[i] as int == b[i] as int + 32)
      {
        assert ToLower(a)[i] == ToLower(b)[i];
      }
    }
  }

  ghost predicate OccursAt(hay: string, needle: string, i: int) {
    0 <= i && i + |needle| <= |hay| && hay[i..i + |needle|] == needle
  }

  lemma OccursShift(hay: string, needle: string, i: int)
    requires hay != [] && 0 <= i
    ensures OccursAt(hay[1..], needle, i) <==> OccursAt(hay, needle, i + 1)
  {
    if 0 <= i && i + |needle| <= |hay| - 1 {
      assert hay[1..][i..i + |needle|] == hay[i + 1..i + 1 + |needle|];
    }
  }

  /** Past a position where `needle` does not start, the occurrences in `hay`
      are those in its tail. */
  lemma OccursInTail(hay: string, needle: string)
    requires hay != [] && !OccursAt(hay, needle, 0)
    ensures (exists i :: OccursAt(hay[1..], needle, i)) <==> (exists i :: OccursAt(hay, needle, i))
  {
    if i :| OccursAt(hay[1..], needle, i) {
      OccursShift(hay, needle, i);
    }
    if j :| OccursAt(hay, needle, j) {
      OccursShift(hay, needle, j - 1);
    }
  }

  /** `hay.includes(needle)`: some position of `hay` starts a copy of `needle`. */
  function Includes(hay: string, needle: string): (r: bool)
    ensures r <==> exists i :: OccursAt(hay, needle, i)
    decreases |hay|
  {
    if |needle| > |hay| then false
    else if hay[..|needle|] == needle then
      assert OccursAt(hay, needle, 0);
      true
    else
      assert !OccursAt(hay, needle, 0);
      OccursInTail(hay, needle);
      Includes(hay[1..], needle)
  }

  /** The filter predicate: the lower-cased term occurs in the lower-cased
      name, location or specialty. */
  function Matches(p: Provider, term: string): (r: bool)
    ensures r <==> exists i :: OccursAt(ToLower(p.name), ToLower(term), i)
                                || OccursAt(ToLower(p.location), ToLower(term), i)
                                || OccursAt(ToLower(p.specialty), ToLower(term), i)
    ensures term == [] ==> r
  {
    var t := ToLower(term);
    assert term == [] ==> OccursAt(ToLower(p.name), t, 0);
    Includes(ToLower(p.name), t) || Includes(ToLower(p.location), t) || Includes(ToLower(p.specialty), t)
  }

  /** `allProviders.filter(provider => ...)` */
  function FilterProviders(ps: seq<Provider>, term: string): (r: seq<Provider>)
    ensures forall p :: p in r <==> p in ps && Matches(p, term)
    ensures IsSublist(r, ps)
    ensures |r| <= |ps|
  {
    if ps == [] then []
    else if Matches(ps[0], term) then [ps[0]] + FilterProviders(ps[1..], term)
    else FilterProviders(ps[1..], term)
  }

  /** The search is case-insensitive: terms equal up to the case of their
      letters keep the same providers, in the same order. */
  lemma {:induction false} FilterIgnoresCase(ps: seq<Provider>, t1: string, t2: string)
    requires EqualIgnoringCase(t1, t2)
    ensures FilterProviders(ps, t1) == FilterProviders(ps, t2)
  {
    ToLowerIgnoresCase(t1, t2);
    if ps != [] {
      assert Matches(ps[0], t1) == Matches(ps[0], t2);
      FilterIgnoresCase(ps[1..], t1, t2);
    }
  }

  /** Every string includes the empty string, so an empty search keeps every provider. */
  lemma {:induction false} EmptyTermKeepsAll(ps: seq<Provider>)
    ensures FilterProviders(ps, "") == ps
  {
    if ps != [] {
      var p := ps[0];
      assert OccursAt(ToLower(p.name), ToLower(""), 0);
      EmptyTermKeepsAll(ps[1..]);
    }
  }

  // ---------------------------------------------------------------------------
  // Pagination

  /** `Math.ceil(n / providersPerPage)` for a count `n`. */
  function PageCount(n: nat): (r: nat)
    ensures n <= r * PROVIDERS_PER_PAGE
    ensures r == 0 || (r - 1) * PROVIDERS_PER_PAGE < n
  {
    (n + PROVIDERS_PER_PAGE - 1) / PROVIDERS_PER_PAGE
  }

  /** How `Array.prototype.slice` turns an index argument into a position:
      a negative index counts from the end, and both are clamped to the length. */
  function SliceBound(k: int, len: nat): (r: nat)
    ensures r <= len
    ensures 0 <= k <= len ==> r == k
    ensures k > len ==> r == len
  {
    if k < 0 then (if len + k < 0 then 0 else len + k)
    else if k > len then len
    else k
  }

  /** `s.slice(start, end)`: the entries from the clamped start up to the
      clamped end, none when the end does not lie past the start. */
  function JsSlice<T>(s: seq<T>, start: int, end: int): (r: seq<T>)
    ensures var from, to := SliceBound(start, |s|), SliceBound(end, |s|);
            |r| == (if from < to then to - from else 0)
            && forall k :: 0 <= k < |r| ==> r[k] == s[from + k]
  {
    var from, to := SliceBound(start, |s|), SliceBound(end, |s|);
    if from < to then s[from..to] else []
  }

  /** `filteredProviders.slice((currentPage - 1) * 10, currentPage * 10)` */
  function PageOf<T>(items: seq<T>, page: int): (r: seq<T>)
    ensures page >= 1 ==> |r| <= PROVIDERS_PER_PAGE
    ensures page >= 1 && r != [] ==> (page - 1) * PROVIDERS_PER_PAGE + |r| <= |items|
    ensures page >= 1 ==> forall k :: 0 <= k < |r| ==> r[k] == items[(page - 1) * PROVIDERS_PER_PAGE + k]
    ensures page >= 1 && page * PROVIDERS_PER_PAGE <= |items| ==> |r| == PROVIDERS_PER_PAGE
    ensures page >= 1 ==> |r| == if |items| <= (page - 1) * PROVIDERS_PER_PAGE then 0
                                 else if page * PROVIDERS_PER_PAGE <= |items| then PROVIDERS_PER_PAGE
                                 else |items| - (page - 1) * PROVIDERS_PER_PAGE
    ensures page > PageCount(|items|) ==> r == []
  {
    JsSlice(items, (page - 1) * PROVIDERS_PER_PAGE, page * PROVIDERS_PER_PAGE)
  }

  /** Every filtered provider is shown on exactly one page, the one its index
      falls into, and that page is among the `pageCount` pages offered. */
  lemma PagesCoverItems<T>(items: seq<T>, i: int)
    requires 0 <= i < |items|
    ensures var page := i / PROVIDERS_PER_PAGE + 1;
            1 <= page <= PageCount(|items|)
            && i % PROVIDERS_PER_PAGE < |PageOf(items, page)|
            && PageOf(items, page)[i % PROVIDERS_PER_PAGE] == items[i]
    ensures forall page :: 1 <= page ==>
              ((page - 1) * PROVIDERS_PER_PAGE <= i < (page - 1) * PROVIDERS_PER_PAGE + |PageOf(items, page)|
               <==> page == i / PROVIDERS_PER_PAGE + 1)
  {
    var page := i / PROVIDERS_PER_PAGE + 1;
    var from := (page - 1) * PROVIDERS_PER_PAGE;
    assert from <= i < from + PROVIDERS_PER_PAGE;
    assert SliceBound(from, |items|) == from;
    forall other | 1 <= other && other != page
      ensures !((other - 1) * PROVIDERS_PER_PAGE <= i < (other - 1) * PROVIDERS_PER_PAGE + |PageOf(items, other)|)
    {
      if other < page {
        assert other * PROVIDERS_PER_PAGE <= from;
      } else {
        assert (other - 1) * PROVIDERS_PER_PAGE >= from + PROVIDERS_PER_PAGE;
      }
    }
  }

  // ---------------------------------------------------------------------------
  // The screen's state

  class InsuranceUpdateScreen {
    /** `location.state` as received on mount. */
    const incoming: Option<State>
    var selectedInsurances: seq<string>
    var applyToAll: bool
    var showProviderDialog: bool
    var searchTerm: string
    var selectedProviders: seq<int>
    var currentPage: int

    ghost predicate Valid()
      reads this
    {
      NoDup(selectedInsurances) && NoDup(selectedProviders) && currentPage >= 1
    }

    /** The initial component state: every catalogue network selected, in
        catalogue order; no provider selected; first page; empty search. */
    constructor (state: Option<State>)
      ensures Valid()
      ensures incoming == state
      ensures selectedInsurances == CatalogNames()
      ensures applyToAll && !showProviderDialog
      ensures searchTerm == "" && selectedProviders == [] && currentPage == 1
    {
      incoming := state;
      selectedInsurances := CatalogNames();
      applyToAll := true;
      showProviderDialog := false;
      searchTerm := "";
      selectedProviders := [];
      currentPage := 1;
    }

    method ToggleInsurance(name: string)
      requires Valid()
      modifies this`selectedInsurances
      ensures Valid()
      ensures selectedInsurances == Toggle(old(selectedInsurances), name)
      ensures name in old(selectedInsurances) ==> |selectedInsurances| == |old(selectedInsurances)| - 1
    {
      ToggleKeepsNoDup(selectedInsurances, name);
      selectedInsurances := Toggle(selectedInsurances, name);
    }

    /** The "Apply to all contracted providers" checkbox: unchecking it opens
        the provider dialog, checking it leaves the dialog as it was. */
    method ApplyToAllChange(checked: bool)
      requires Valid()
      modifies this`applyToAll, this`showProviderDialog
      ensures Valid()
      ensures applyToAll == checked
      ensures !checked ==> showProviderDialog
      ensures checked ==> showProviderDialog == old(showProviderDialog)
    {
      applyToAll := checked;
      if !checked {
        showProviderDialog := true;
      }
    }

    /** The dialog's close, Cancel and Done actions. */
    method CloseProviderDialog()
      requires Valid()
      modifies this`showProviderDialog
      ensures Valid()
      ensures !showProviderDialog
    {
      showProviderDialog := false;
    }

    /** The search field; the current page is left as it was. */
    method ChangeSearchTerm(term: string)
      requires Valid()
      modifies this`searchTerm
      ensures Valid()
      ensures searchTerm == term
    {
      searchTerm := term;
    }

    /** "Select all" when fewer than all providers are selected, "Deselect all" otherwise. */
    method SelectAll()
      requires Valid()
      modifies this`selectedProviders
      ensures Valid()
      ensures |old(selectedProviders)| == |ALL_PROVIDERS| ==> selectedProviders == []
      ensures |old(selectedProviders)| != |ALL_PROVIDERS| ==> selectedProviders == ProviderIds()
    {
      if |selectedProviders| == |ALL_PROVIDERS| {
        selectedProviders := [];
      } else {
        selectedProviders := ProviderIds();
      }
    }

    method SelectProvider(id: int)
      requires Valid()
      modifies this`selectedProviders
      ensures Valid()
      ensures selectedProviders == Toggle(old(selectedProviders), id)
      ensures id in old(selectedProviders) ==> |selectedProviders| == |old(selectedProviders)| - 1
    {
      ToggleKeepsNoDup(selectedProviders, id);
      selectedProviders := Toggle(selectedProviders, id);
    }

    /** The pagination widget reports a page number from 1 up. */
    method ChangePage(value: int)
      requires Valid() && value >= 1
      modifies this`currentPage
      ensures Valid() && currentPage == value
    {
      currentPage := value;
    }

    function FilteredProviders(): (r: seq<Provider>)
      reads this
      ensures forall p :: p in r <==> p in ALL_PROVIDERS && Matches(p, searchTerm)
    {
      FilterProviders(ALL_PROVIDERS, searchTerm)
    }

    function CurrentProviders(): (r: seq<Provider>)
      reads this
      ensures currentPage >= 1 ==> |r| <= PROVIDERS_PER_PAGE
      ensures forall p :: p in r ==> p in ALL_PROVIDERS && Matches(p, searchTerm)
      ensures currentPage > PageCount(|FilteredProviders()|) ==> r == []
    {
      var filtered := FilteredProviders();
      var page := PageOf(filtered, currentPage);
      assert forall p :: p in page ==> p in filtered by {
        if currentPage < 1 {
          assert page == JsSlice(filtered, (currentPage - 1) * PROVIDERS_PER_PAGE, currentPage * PROVIDERS_PER_PAGE);
        }
      }
      page
    }

    /** `handleSave`: back to the results screen with the received payload,
        its `from` overwritten with `'insurance-save'`. */
    function Save(): (nav: Nav)
      ensures nav.Go? && nav.path == RESULTS_PATH
      ensures nav.state.Keys == Fields(incoming).Keys + {"from"}
      ensures nav.state["from"] == Str(INSURANCE_SAVE)
      ensures forall k :: k in Fields(incoming) && k != "from" ==> nav.state[k] == Fields(incoming)[k]
    {
      SaveAndReturn(incoming, INSURANCE_SAVE)
    }

    /** The impact banner under the heading. */
    function ImpactNotice(): (b: Banner)
      ensures b.ImpactShown? <==> Truthy(Lookup(incoming, "impactMetric")) && Truthy(Lookup(incoming, "impactPercentage"))
      ensures b.ImpactShown? ==> b.metric == Lookup(incoming, "impactMetric") && b.percentage == Lookup(incoming, "impactPercentage")
      ensures b.StrayText? <==> Lookup(incoming, "impactMetric") == Num(0)
                                || (Truthy(Lookup(incoming, "impactMetric")) && Lookup(incoming, "impactPercentage") == Num(0))
      ensures incoming.None? ==> b == Hidden
    {
      ImpactBanner(incoming)
    }
  }

  // ---------------------------------------------------------------------------
  // Facts about the catalogue

  /** The initial selection is exactly the ten catalogue names, in catalogue order, without repeats. */
  lemma InitialInsurances()
    ensures CatalogNames() == ["Aetna", "Blue Cross Blue Shield", "Cigna", "UnitedHealthcare",
                               "Kaiser Permanente", "Humana", "Delta Dental", "VSP Vision Care",
                               "Medicare", "Medicaid"]
    ensures NoDup(CatalogNames())
  {
  }

  /** The provider ids are 1 to 12, in order, without repeats. */
  lemma ProviderIdsAreOneToTwelve()
    ensures ProviderIds() == [1, 2, 3, 4, 5, 6, 7, 8, 9, 10, 11, 12]
    ensures NoDup(ProviderIds())
  {
  }

  /** "Select all", then unticking one provider, leaves eleven selected. */
  lemma SelectAllThenUntickOne(id: int)
    requires id in ProviderIds()
    ensures |Toggle(ProviderIds(), id)| == |ALL_PROVIDERS| - 1
  {
    ProviderIdsAreOneToTwelve();
    ToggleKeepsNoDup(ProviderIds(), id);
  }

  /** The current page is not reset when the search term changes: once a
      search leaves at most one page of matches, a user still on page 2 sees
      an empty list while every match sits on page 1. */
  lemma StrandedPage(filtered: seq<Provider>)
    requires 0 < |filtered| <= PROVIDERS_PER_PAGE
    ensures PageCount(|filtered|) == 1
    ensures PageOf(filtered, 2) == []
    ensures PageOf(filtered, 1) == filtered
  {
  }
}

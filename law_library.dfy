/**
 * The law library page: the catalog filter (a free-text term and an optional
 * category) and the page state that drives which view is shown.
 */
module LawLibrary {
  import opened Wrappers
  import opened JsText
  import opened JsArray
  import opened LawData

  /** `selectedCategory ? ... : true`: a category filter applies only when the
      selected category is a non-empty string. */
  predicate CategorySet(selected: Option<string>) {
    selected.Some? && Truthy(selected.value)
  }

  /** Some tag of the law includes the (already lower-cased) term. */
  predicate SomeTagIncludes(tags: seq<string>, lowerTerm: string) {
    exists k :: 0 <= k < |tags| && Includes(ToLowerCase(tags[k]), lowerTerm)
  }

  /** The text test: the lower-cased term occurs in the lower-cased title,
      description, simplified text or any tag. */
  predicate MatchesSearch(law: Law, term: string) {
    var t := ToLowerCase(term);
    || Includes(ToLowerCase(law.title), t)
    || Includes(ToLowerCase(law.description), t)
    || Includes(ToLowerCase(law.simplified), t)
    || SomeTagIncludes(law.tags, t)
  }

  /** The category test: exact, case-sensitive equality when a category is set. */
  predicate MatchesCategory(law: Law, selected: Option<string>) {
    if CategorySet(selected) then law.category == selected.value else true
  }

  /** The predicate passed to `laws.filter`. */
  predicate Keep(law: Law, term: string, selected: Option<string>) {
    MatchesSearch(law, term) && MatchesCategory(law, selected)
  }

  /** `laws.filter(...)`: the laws that pass both tests, in their original order. */
  function FilterLaws(laws: seq<Law>, term: string, selected: Option<string>): (r: seq<Law>)
    ensures forall x :: x in r ==> x in laws && Keep(x, term, selected)
  {
    Filter(laws, law => Keep(law, term, selected))
  }

  /** The result is exactly the order-preserving subsequence of the input made of
      the laws that pass both tests (positions as in `SelectedIndices`). */
  lemma FilterLawsIsOrderedSelection(laws: seq<Law>, term: string, selected: Option<string>)
    ensures var keep := law => Keep(law, term, selected);
      var r, idx := FilterLaws(laws, term, selected), SelectedIndices(laws, keep);
      && |idx| == |r|
      && (forall k :: 0 <= k < |idx| ==> r[k] == laws[idx[k]])
      && (forall k, l :: 0 <= k < l < |idx| ==> idx[k] < idx[l])
      && (forall j :: 0 <= j < |laws| ==> (j in idx <==> Keep(laws[j], term, selected)))
  {
    FilterIsOrderedSelection(laws, law => Keep(law, term, selected));
  }

  /** A law is in the result exactly when it is in the input and passes both tests. */
  lemma FilterLawsMembership(laws: seq<Law>, term: string, selected: Option<string>, x: Law)
    ensures x in FilterLaws(laws, term, selected) <==> x in laws && Keep(x, term, selected)
  {
    FilterMembership(laws, law => Keep(law, term, selected), x);
  }

  /** With an empty term and no category every law is returned, unchanged and in order. */
  lemma FilterUnfilteredIsIdentity(laws: seq<Law>, term: string, selected: Option<string>)
    requires term == "" && !CategorySet(selected)
    ensures FilterLaws(laws, term, selected) == laws
  {
    forall i | 0 <= i < |laws| ensures Keep(laws[i], term, selected) {
      IncludesEmpty(ToLowerCase(laws[i].title));
    }
    FilterAllPass(laws, law => Keep(law, term, selected));
  }

  /** With a category selected, every returned law carries exactly that category. */
  lemma FilterCategoryExact(laws: seq<Law>, term: string, selected: Option<string>)
    requires CategorySet(selected)
    ensures forall x :: x in FilterLaws(laws, term, selected) ==> x.category == selected.value
  {
  }

  /** Changing only the letter case of the search term leaves the result unchanged. */
  lemma FilterIgnoresTermCase(laws: seq<Law>, t1: string, t2: string, selected: Option<string>)
    requires SameIgnoringCase(t1, t2)
    ensures FilterLaws(laws, t1, selected) == FilterLaws(laws, t2, selected)
  {
    SameIgnoringCaseLowersEqual(t1, t2);
    FilterCongruent(laws, law => Keep(law, t1, selected), law => Keep(law, t2, selected));
  }

  /** Filtering the result again with the same term and category changes nothing. */
  lemma FilterLawsIdempotent(laws: seq<Law>, term: string, selected: Option<string>)
    ensures FilterLaws(FilterLaws(laws, term, selected), term, selected) == FilterLaws(laws, term, selected)
  {
    FilterIdempotent(laws, law => Keep(law, term, selected));
  }

  /** The text test is a case-insensitive substring test on each field, OR-ed
      across title, description, simplified text and tags. */
  lemma MatchesSearchIff(law: Law, term: string)
    ensures MatchesSearch(law, term) <==>
      || OccursIgnoringCase(law.title, term)
      || OccursIgnoringCase(law.description, term)
      || OccursIgnoringCase(law.simplified, term)
      || (exists k :: 0 <= k < |law.tags| && OccursIgnoringCase(law.tags[k], term))
  {
    IncludesLowerIff(law.title, term);
    IncludesLowerIff(law.description, term);
    IncludesLowerIff(law.simplified, term);
    forall k | 0 <= k < |law.tags| {
      IncludesLowerIff(law.tags[k], term);
    }
  }

  /** An empty term passes the text test of every law. */
  lemma EmptyTermMatchesEveryLaw(law: Law)
    ensures MatchesSearch(law, "")
  {
    IncludesEmpty(ToLowerCase(law.title));
  }

  /** With an empty term, the laws kept are exactly those whose category is the
      selected one. */
  lemma EmptyTermKeepsCategory(law: Law, category: string)
    requires category != ""
    ensures Keep(law, "", Some(category)) <==> law.category == category
  {
    EmptyTermMatchesEveryLaw(law);
  }

  /** Filtering distributes over concatenation of catalogs. */
  lemma FilterLawsAppend(a: seq<Law>, b: seq<Law>, term: string, selected: Option<string>)
    ensures FilterLaws(a + b, term, selected) == FilterLaws(a, term, selected) + FilterLaws(b, term, selected)
  {
    FilterAppend(a, b, law => Keep(law, term, selected));
  }

  /** With an empty term, a catalog holding no law of the selected category
      filters to nothing. */
  lemma NoLawOfCategory(laws: seq<Law>, category: string)
    requires category != ""
    requires forall i :: 0 <= i < |laws| ==> laws[i].category != category
    ensures FilterLaws(laws, "", Some(category)) == []
  {
    forall i | 0 <= i < |laws| ensures !Keep(laws[i], "", Some(category)) {
      EmptyTermKeepsCategory(laws[i], category);
    }
    FilterNonePass(laws, law => Keep(law, "", Some(category)));
  }

  /** With an empty term, a list whose last law, and only that one, has the
      selected category filters to that law alone. */
  lemma OnlyLastOfCategory(laws: seq<Law>, category: string)
    requires category != "" && |laws| > 0
    requires laws[|laws| - 1].category == category
    requires forall i :: 0 <= i < |laws| - 1 ==> laws[i].category != category
    ensures FilterLaws(laws, "", Some(category)) == [laws[|laws| - 1]]
  {
    var n := |laws| - 1;
    var init, last := laws[..n], [laws[n]];
    assert laws == init + last;
    NoLawOfCategory(init, category);
    EmptyTermKeepsCategory(laws[n], category);
    FilterLawsAppend(init, last, "", Some(category));
    assert last[1..] == [];
    assert FilterLaws(last, "", Some(category)) == last;
  }

  /** With an empty term, a nine-law list whose fifth and ninth laws, and only
      those, have the selected category filters to exactly those two, in order. */
  lemma TwoOfNineCategory(laws: seq<Law>, category: string)
    requires category != "" && |laws| == 9
    requires laws[4].category == category && laws[8].category == category
    requires forall i :: 0 <= i < 9 && i != 4 && i != 8 ==> laws[i].category != category
    ensures FilterLaws(laws, "", Some(category)) == [laws[4], laws[8]]
  {
    var front, back := laws[..5], laws[5..];
    assert laws == front + back;
    OnlyLastOfCategory(front, category);
    OnlyLastOfCategory(back, category);
    FilterLawsAppend(front, back, "", Some(category));
  }

  /** Scenario: with an empty term, the category "Online Fraud & Financial Crimes"
      yields the laws with ids 5 and 9, in that order. */
  lemma FraudCategoryScenario()
    ensures FilterLaws(Catalog, "", Some("Online Fraud & Financial Crimes")) == [Section66D, CardFraudRules]
    ensures [Section66D.id, CardFraudRules.id] == [5, 9]
  {
    TwoOfNineCategory(Catalog, "Online Fraud & Financial Crimes");
  }

  /** Scenario: the category comparison is case-sensitive, so a lower-cased
      category name selects nothing. */
  lemma CategoryIsCaseSensitiveScenario()
    ensures FilterLaws(Catalog, "", Some("online fraud & financial crimes")) == []
  {
    var c := "online fraud & financial crimes";
    forall i | 0 <= i < |Catalog| ensures !Keep(Catalog[i], "", Some(c)) {
      EmptyTermKeepsCategory(Catalog[i], c);
    }
    FilterNonePass(Catalog, law => Keep(law, "", Some(c)));
  }

  /** The Section 66C law passes the text test for "identity" through its tag
      "Identity Theft" once both are lower-cased. */
  lemma IdentityMatchesSection66C()
    ensures Keep(Section66C, "identity", None)
  {
    var tag := ToLowerCase(Section66C.tags[0]);
    var t := ToLowerCase("identity");
    assert t == "identity";
    assert tag[0..8] == "identity";
    assert PieceAt(tag, t, 0);
    assert SomeTagIncludes(Section66C.tags, t);
  }

  /** Scenario: the term "identity" keeps the law with id 4. */
  lemma IdentitySearchScenario()
    ensures Section66C in FilterLaws(Catalog, "identity", None)
    ensures Section66C.id == 4
  {
    IdentityMatchesSection66C();
    FilterLawsMembership(Catalog, "identity", None, Section66C);
  }

  // ---------------------------------------------------------------------------
  // View-mode rules of the page

  /** The category grid is rendered when there is no term and no category. */
  predicate ShowsCategoryGrid(term: string, selected: Option<string>) {
    !Truthy(term) && !CategorySet(selected)
  }

  /** The results header and list are rendered when a term or a category is set. */
  predicate ShowsResults(term: string, selected: Option<string>) {
    Truthy(term) || CategorySet(selected)
  }

  /** "Back to Categories" is offered when a category is set and there is no term. */
  predicate ShowsBackToCategories(term: string, selected: Option<string>) {
    CategorySet(selected) && !Truthy(term)
  }

  /** "Clear all filters" is offered when the results view shows no law. */
  predicate ShowsClearAll(term: string, selected: Option<string>, shown: seq<Law>) {
    ShowsResults(term, selected) && |shown| == 0
  }

  /** The results heading: the quoted term when there is one, else the category. */
  function ResultsHeading(term: string, selected: Option<string>): (h: string)
    requires ShowsResults(term, selected)
    ensures Truthy(term) ==> h == "Results for \"" + term + "\""
    ensures !Truthy(term) ==> h == selected.value && ShowsBackToCategories(term, selected)
  {
    if Truthy(term) then "Results for \"" + term + "\"" else selected.value
  }

  /** Exactly one of the two main views is rendered. */
  lemma GridAndResultsExclusive(term: string, selected: Option<string>)
    ensures ShowsCategoryGrid(term, selected) <==> !ShowsResults(term, selected)
  {
  }

  /** "Clear all filters" is only offered when the filter excludes every law; the
      list being non-empty, at least one law fails the filter. */
  lemma ClearAllMeansSomeLawRejected(laws: seq<Law>, term: string, selected: Option<string>)
    requires |laws| > 0
    requires ShowsClearAll(term, selected, FilterLaws(laws, term, selected))
    ensures exists i :: 0 <= i < |laws| && !Keep(laws[i], term, selected)
  {
    FilterLawsMembership(laws, term, selected, laws[0]);
    assert !Keep(laws[0], term, selected);
  }

  /** The page state: the search term, the selected category and the list the
      recompute effect last produced. */
  class LibraryView {
    /** The law records the page imports. */
    const laws: seq<Law>
    var searchTerm: string
    var selectedCategory: Option<string>
    var filteredLaws: seq<Law>

    /** The recompute effect is up to date with the term and the category. */
    ghost predicate Valid()
      reads this
    {
      filteredLaws == FilterLaws(laws, searchTerm, selectedCategory)
    }

    /** Initial state: empty term, no category, and the whole catalog listed;
        the first run of the effect leaves that list as it is. */
    constructor(laws: seq<Law>)
      ensures this.laws == laws
      ensures searchTerm == "" && selectedCategory == None && filteredLaws == laws
      ensures Valid()
    {
      this.laws := laws;
      searchTerm := "";
      selectedCategory := None;
      filteredLaws := laws;
      FilterUnfilteredIsIdentity(laws, "", None);
    }

    /** The effect that recomputes the list after the term or the category changed. */
    method Recompute()
      modifies this
      ensures searchTerm == old(searchTerm) && selectedCategory == old(selectedCategory)
      ensures Valid()
    {
      filteredLaws := FilterLaws(laws, searchTerm, selectedCategory);
    }

    /** The `search` query parameter of the URL, when it is a non-empty string,
        becomes the term; an absent or empty parameter changes nothing. */
    method ApplyUrlQuery(query: Option<string>)
      requires Valid()
      modifies this
      ensures searchTerm == (if query.Some? && Truthy(query.value) then query.value else old(searchTerm))
      ensures selectedCategory == old(selectedCategory)
      ensures Valid()
    {
      if query.Some? && Truthy(query.value) {
        searchTerm := query.value;
        Recompute();
      }
    }

    /** Typing in the search box replaces the term. */
    method EditSearch(value: string)
      modifies this
      ensures searchTerm == value && selectedCategory == old(selectedCategory)
      ensures Valid()
    {
      searchTerm := value;
      Recompute();
    }

    /** The X button, rendered only while there is a term, empties it. */
    method ClearSearch()
      requires Truthy(searchTerm)
      modifies this
      ensures searchTerm == "" && selectedCategory == old(selectedCategory)
      ensures Valid()
    {
      searchTerm := "";
      Recompute();
    }

    /** A category card of the grid selects that category by its title (every
        card title is a non-empty string). */
    method PickCategory(title: string)
      requires ShowsCategoryGrid(searchTerm, selectedCategory)
      requires Truthy(title)
      modifies this
      ensures searchTerm == old(searchTerm) && selectedCategory == Some(title)
      ensures Valid()
      ensures forall x :: x in filteredLaws ==> x.category == title
    {
      selectedCategory := Some(title);
      Recompute();
      FilterCategoryExact(laws, searchTerm, selectedCategory);
    }

    /** "Back to Categories" drops the category and returns to the grid. */
    method BackToCategories()
      requires ShowsBackToCategories(searchTerm, selectedCategory)
      modifies this
      ensures searchTerm == old(searchTerm) && selectedCategory == None
      ensures ShowsCategoryGrid(searchTerm, selectedCategory)
      ensures Valid() && filteredLaws == laws
    {
      selectedCategory := None;
      Recompute();
      FilterUnfilteredIsIdentity(laws, searchTerm, selectedCategory);
    }

    /** "Clear all filters" resets both the term and the category. */
    method ClearAllFilters()
      modifies this
      ensures searchTerm == "" && selectedCategory == None
      ensures ShowsCategoryGrid(searchTerm, selectedCategory)
      ensures Valid() && filteredLaws == laws
    {
      searchTerm := "";
      selectedCategory := None;
      Recompute();
      FilterUnfilteredIsIdentity(laws, searchTerm, selectedCategory);
    }
  }
}

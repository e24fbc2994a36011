/**
 * The resources page, src/components/resources/ResourcesPage.tsx: a catalogue
 * of link categories, narrowed by a case-insensitive search over titles and
 * descriptions, or replaced by the one category picked from the side list.
 */
module ResourcesPage {
  import opened Wrappers
  import opened Seqs
  import opened Text

  datatype Difficulty = Beginner | Intermediate | Advanced

  datatype Resource = Resource(
    title: string,
    url: string,
    description: string,
    category: string,
    difficulty: Option<Difficulty>,
    estimatedTime: Option<string>)

  /** A category of the catalogue; its icon is not modelled. */
  datatype ResourceCategory = ResourceCategory(id: string, title: string, description: string, resources: seq<Resource>)

  /** `haystack.toLowerCase().includes(term.toLowerCase())`. */
  predicate MentionsTerm(haystack: string, term: string) {
    Includes(Lower(haystack), Lower(term))
  }

  /** The search keeps a category whose title, or one of whose resources' title or description, mentions the term. */
  predicate MatchesSearch(category: ResourceCategory, term: string) {
    MentionsTerm(category.title, term)
    || exists i :: 0 <= i < |category.resources|
         && (MentionsTerm(category.resources[i].title, term) || MentionsTerm(category.resources[i].description, term))
  }

  /**
   * `filteredCategories`: exactly the categories that match the search, in
   * catalogue order. The category's description and the resources' own
   * category labels are not searched.
   */
  function FilteredCategories(categories: seq<ResourceCategory>, term: string): (r: seq<ResourceCategory>)
    ensures forall c :: c in r <==> c in categories && MatchesSearch(c, term)
  {
    Filter(categories, c => MatchesSearch(c, term))
  }

  /** The search result keeps the catalogue's order. */
  lemma FilteredInOrder(categories: seq<ResourceCategory>, term: string)
    ensures Subsequence(FilteredCategories(categories, term), categories)
  {
    FilterSubsequence(categories, c => MatchesSearch(c, term));
  }

  /** An empty search keeps every category. */
  lemma EmptySearchKeepsAll(categories: seq<ResourceCategory>)
    ensures FilteredCategories(categories, "") == categories
  {
    forall i | 0 <= i < |categories| ensures MatchesSearch(categories[i], "") {
      IncludesEmpty(Lower(categories[i].title));
    }
    FilterKeepsAll(categories, c => MatchesSearch(c, ""));
  }

  /** Search terms that differ only in the case of their letters give the same result. */
  lemma SearchIgnoresCase(categories: seq<ResourceCategory>, term: string, other: string)
    requires Lower(term) == Lower(other)
    ensures FilteredCategories(categories, term) == FilteredCategories(categories, other)
  {
    FilterExtensional(categories, c => MatchesSearch(c, term), c => MatchesSearch(c, other));
  }

  /** Searching for a term and for its lower-case form gives the same result. */
  lemma SearchOfLowered(categories: seq<ResourceCategory>, term: string)
    ensures FilteredCategories(categories, Lower(term)) == FilteredCategories(categories, term)
  {
    LowerIdempotent(term);
    SearchIgnoresCase(categories, Lower(term), term);
  }

  /**
   * `displayedCategories`: the categories with the selected id when one is
   * selected, whatever the search says, and the search result otherwise. A
   * selection is tested for truthiness, so an empty id counts as none.
   */
  function DisplayedCategories(categories: seq<ResourceCategory>, selected: Option<string>, term: string): (r: seq<ResourceCategory>)
    ensures selected.Some? && selected.value != "" ==> forall c :: c in r <==> c in categories && c.id == selected.value
    ensures selected.None? ==> r == FilteredCategories(categories, term)
  {
    if selected.Some? && selected.value != "" then Filter(categories, (c: ResourceCategory) => c.id == selected.value)
    else FilteredCategories(categories, term)
  }

  /** With a category selected, the search term has no effect. */
  lemma SelectionOverridesSearch(categories: seq<ResourceCategory>, id: string, term: string, other: string)
    requires id != ""
    ensures DisplayedCategories(categories, Some(id), term) == DisplayedCategories(categories, Some(id), other)
  {
  }

  /** The classes of the difficulty badge. */
  const Green := "text-green-600 bg-green-50 dark:bg-green-900/20"
  const Yellow := "text-yellow-600 bg-yellow-50 dark:bg-yellow-900/20"
  const Red := "text-red-600 bg-red-50 dark:bg-red-900/20"
  const Gray := "text-gray-600 bg-gray-50 dark:bg-gray-900/20"

  /** `getDifficultyColor(difficulty)`: gray only without a difficulty. The page
      renders the badge only for a resource that has one, so it never shows gray. */
  function DifficultyColor(difficulty: Option<Difficulty>): (classes: string)
    ensures classes == Gray <==> difficulty.None?
  {
    // The last letter of each colour name, eight characters from the end.
    assert Green[|Green| - 8] == 'n' && Yellow[|Yellow| - 8] == 'w';
    assert Red[|Red| - 8] == 'd' && Gray[|Gray| - 8] == 'y';
    match difficulty
    case Some(Beginner) => Green
    case Some(Intermediate) => Yellow
    case Some(Advanced) => Red
    case None => Gray
  }

  /** Each difficulty has a badge colour of its own. */
  lemma DifficultyColorsDistinct(a: Option<Difficulty>, b: Option<Difficulty>)
    ensures DifficultyColor(a) == DifficultyColor(b) <==> a == b
  {
    assert Green[|Green| - 8] == 'n' && Yellow[|Yellow| - 8] == 'w';
    assert Red[|Red| - 8] == 'd' && Gray[|Gray| - 8] == 'y';
  }
}

/**
 * The sitemap: an entry for the home page followed by one entry per
 * recipe that the unfiltered query returns, in that order.
 */
module Sitemap {
  import opened Wrappers
  import opened RecipeApi

  const BaseUrl := "https://flavor-find.vercel.app"
  const RecipesPath := "/recipes/"

  datatype ChangeFrequency = Weekly | Monthly

  /** One sitemap entry; its `lastModified` time stamp is not modelled. */
  datatype Entry = Entry(url: string, changeFrequency: ChangeFrequency, priority: real)

  const HomeEntry := Entry(BaseUrl, Weekly, 1.0)

  function RecipeUrl(id: string): string {
    BaseUrl + RecipesPath + id
  }

  /** `recipes.map(recipe => ...)`. */
  function RecipeEntries(rs: seq<Recipe>): (entries: seq<Entry>)
    ensures |entries| == |rs|
    ensures forall i :: 0 <= i < |rs| ==> entries[i] == Entry(RecipeUrl(rs[i].id), Monthly, 0.8)
  {
    seq(|rs|, i requires 0 <= i < |rs| => Entry(RecipeUrl(rs[i].id), Monthly, 0.8))
  }

  /** The sitemap for the list the unfiltered query returns from the loaded collection. */
  function BuildSitemap(loaded: Nullable<seq<Recipe>>): seq<Entry> {
    [HomeEntry] + RecipeEntries(QueryLoaded(loaded, NoFilters))
  }

  /** The recipe identifier a recipe URL names; `None` for any other URL. */
  function RecipeIdOf(url: string): Option<string> {
    var prefix := BaseUrl + RecipesPath;
    if prefix <= url then Some(url[|prefix|..]) else None
  }

  /**
   * For a loaded list the sitemap has one more entry than there are
   * recipes: the weekly home page, then one monthly entry per recipe, in
   * order, whose URL names exactly that recipe's identifier.
   */
  lemma SitemapListsEveryRecipe(rs: seq<Recipe>)
    ensures |BuildSitemap(NonNull(rs))| == |rs| + 1
    ensures BuildSitemap(NonNull(rs))[0] == HomeEntry && RecipeIdOf(HomeEntry.url).None?
    ensures forall i :: 0 <= i < |rs| ==>
      && BuildSitemap(NonNull(rs))[i + 1].changeFrequency == Monthly
      && RecipeIdOf(BuildSitemap(NonNull(rs))[i + 1].url) == Some(rs[i].id)
  {
    NoActiveFilterKeepsAll(rs, NoFilters);
    var prefix := BaseUrl + RecipesPath;
    forall i | 0 <= i < |rs|
      ensures RecipeIdOf(RecipeUrl(rs[i].id)) == Some(rs[i].id)
    {
      assert RecipeUrl(rs[i].id) == prefix + rs[i].id;
      assert (prefix + rs[i].id)[|prefix|..] == rs[i].id;
    }
  }

  /** A data file holding `null` leaves only the home page in the sitemap. */
  lemma NullCollectionSitemap()
    ensures BuildSitemap(Null) == [HomeEntry]
  {
  }
}

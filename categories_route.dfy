/** `GET /api/categories` narrows the primary categories by their high-value
    flag. The collection is a parameter; the random analytics branch is not
    part of this model. */
module CategoriesRoute {
  import opened Wrappers
  import opened Entities
  import opened Sequences

  datatype CategoryList = CategoryList(categories: seq<Category>, total: int)

  /** `highValue='true'` keeps the high-value categories, `'false'` the
      others; any other value, or none, keeps all. */
  predicate Selected(highValue: Option<string>, c: Category)
  {
    (highValue == Some("true") ==> c.isHighValue) &&
    (highValue == Some("false") ==> !c.isHighValue)
  }

  /** The predicate the handler passes to `filter`. */
  function HighValueFilter(isHighValue: bool): Category -> bool
  {
    (c: Category) => c.isHighValue == isHighValue
  }

  /** `Selected` as one predicate. */
  function Selection(highValue: Option<string>): Category -> bool
  {
    (c: Category) => Selected(highValue, c)
  }

  /** The GET handler. */
  function Get(all: seq<Category>, highValue: Option<string>): (r: CategoryList)
    ensures r.total == |r.categories|
    ensures r.categories == Filter(all, Selection(highValue))
    ensures IsSubsequence(r.categories, all)
    ensures forall c :: c in r.categories ==> Selected(highValue, c)
    ensures forall i :: 0 <= i < |all| && Selected(highValue, all[i]) ==> all[i] in r.categories
    ensures highValue !in {Some("true"), Some("false")} ==> r.categories == all
  {
    var categories :=
      if highValue == Some("true") then Filter(all, HighValueFilter(true))
      else if highValue == Some("false") then Filter(all, HighValueFilter(false))
      else all;
    assert categories == Filter(all, Selection(highValue)) by {
      if highValue in {Some("true"), Some("false")} {
        FilterExtensional(all, HighValueFilter(highValue == Some("true")), Selection(highValue));
      } else {
        FilterKeepsAll(all, Selection(highValue));
      }
    }
    CategoryList(categories, |categories|)
  }

  /** The high-value and the other categories together are all of them. */
  lemma HighValueSplitsCategories(all: seq<Category>)
    ensures |Get(all, Some("true")).categories| + |Get(all, Some("false")).categories| == |all|
  {
    FilterComplementLength(all, HighValueFilter(true), HighValueFilter(false));
  }
}

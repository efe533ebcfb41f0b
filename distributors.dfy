/** The distributors section: a distributor's categories, a category's
    subcategories and a subcategory's product names, drilled into by
    clicks, each click clearing the levels below it. */
module Distributors {
  import opened Wrappers
  import opened Text
  import opened JsObjects

  /** A distributor with its categories, each mapping subcategories to
      product names in the order the object literal lists them. */
  datatype Distributor = Distributor(name: string, logo: string, categories: Dict<Dict<seq<string>>>)

  /** The objects of a distributor are well formed: keys listed once each
      with a value, at both levels. */
  predicate WellFormedDistributor(d: Distributor) {
    WellFormed(d.categories) && forall c :: c in d.categories.values ==> WellFormed(d.categories.values[c])
  }

  /** Object.entries. */
  function Entries<V>(d: Dict<V>): (r: seq<(string, V)>)
    requires WellFormed(d)
    ensures |r| == |d.keys| && forall i :: 0 <= i < |d.keys| ==> r[i] == (d.keys[i], d.values[d.keys[i]])
  {
    seq(|d.keys|, i requires 0 <= i < |d.keys| => (d.keys[i], d.values[d.keys[i]]))
  }

  /** An entry's value is the value stored under its key. */
  lemma EntryIsLookup<V>(d: Dict<V>, k: string, v: V)
    requires WellFormed(d)
    requires (k, v) in Entries(d)
    ensures k in d.values && d.values[k] == v
  {
    var i :| 0 <= i < |Entries(d)| && Entries(d)[i] == (k, v);
    assert d.keys[i] in d.keys;
  }

  class DistributorsState {
    var selectedDistributor: Option<Distributor>
    var selectedCategory: Option<string>
    var selectedSubcategory: Option<string>
    var selectedProducts: seq<string>

    /** Each selection lies inside the one above it, and the product list is
        the selected subcategory's list, or empty without one. */
    predicate Valid()
      reads this
    {
      (selectedDistributor.Some? ==> WellFormedDistributor(selectedDistributor.value))
      && (selectedCategory.Some? ==>
            selectedDistributor.Some? && selectedCategory.value in selectedDistributor.value.categories.values)
      && (selectedSubcategory.Some? ==>
            Truthy(selectedCategory) && selectedSubcategory.value in SubcategoriesOf().values
            && selectedProducts == SubcategoriesOf().values[selectedSubcategory.value])
      && (selectedSubcategory.None? ==> selectedProducts == [])
    }

    /** The subcategory object of the selected category. */
    function SubcategoriesOf(): Dict<seq<string>>
      requires selectedDistributor.Some? && selectedCategory.Some?
      requires selectedCategory.value in selectedDistributor.value.categories.values
      reads this
    {
      selectedDistributor.value.categories.values[selectedCategory.value]
    }

    constructor ()
      ensures selectedDistributor.None? && selectedCategory.None? && selectedSubcategory.None? && selectedProducts == []
      ensures Valid()
    {
      selectedDistributor := None;
      selectedCategory := None;
      selectedSubcategory := None;
      selectedProducts := [];
    }

    /** handleDistributorClick: the distributor is selected and everything
        below it cleared. */
    method ClickDistributor(d: Distributor)
      requires WellFormedDistributor(d)
      modifies this
      ensures selectedDistributor == Some(d) && selectedCategory.None? && selectedSubcategory.None? && selectedProducts == []
      ensures Valid()
    {
      selectedDistributor := Some(d);
      selectedCategory := None;
      selectedSubcategory := None;
      selectedProducts := [];
    }

    /** handleCategoryClick, from one of the category buttons shown for the
        selected distributor. */
    method ClickCategory(c: string)
      requires Valid()
      requires CategoryButtons().Some? && c in CategoryButtons().value
      modifies this
      ensures selectedDistributor == old(selectedDistributor)
      ensures selectedCategory == Some(c) && selectedSubcategory.None? && selectedProducts == []
      ensures Valid()
    {
      selectedCategory := Some(c);
      selectedSubcategory := None;
      selectedProducts := [];
    }

    /** handleSubcategoryClick, from one of the subcategory buttons shown
        for the selected category, which hands over its own products. */
    method ClickSubcategory(s: string, products: seq<string>)
      requires Valid()
      requires SubcategoryButtons().Some? && (s, products) in SubcategoryButtons().value
      modifies this
      ensures selectedDistributor == old(selectedDistributor) && selectedCategory == old(selectedCategory)
      ensures selectedSubcategory == Some(s) && selectedProducts == products
      ensures Valid()
    {
      EntryIsLookup(SubcategoriesOf(), s, products);
      selectedSubcategory := Some(s);
      selectedProducts := products;
    }

    /** The category buttons: shown only with a distributor selected, one
        per category in the object's order. */
    function CategoryButtons(): (r: Option<seq<string>>)
      reads this
      ensures r.Some? <==> selectedDistributor.Some?
      ensures r.Some? ==> r.value == selectedDistributor.value.categories.keys
    {
      if selectedDistributor.Some? then Some(selectedDistributor.value.categories.keys) else None
    }

    /** The subcategory buttons: shown only with a (truthy) category
        selected, each with its product list. */
    function SubcategoryButtons(): (r: Option<seq<(string, seq<string>)>>)
      requires Valid()
      reads this
      ensures r.Some? <==> Truthy(selectedCategory)
      ensures r.Some? ==> forall e :: e in r.value ==> e.0 in SubcategoriesOf().values && SubcategoriesOf().values[e.0] == e.1
    {
      if Truthy(selectedCategory) then
        var sub := SubcategoriesOf();
        forall e | e in Entries(sub) ensures e.0 in sub.values && sub.values[e.0] == e.1 {
          EntryIsLookup(sub, e.0, e.1);
        }
        Some(Entries(sub))
      else None
    }

    /** The product list: shown only when non-empty, and then it is the list
        of the selected distributor, category and subcategory. */
    function ProductList(): (r: Option<seq<string>>)
      requires Valid()
      reads this
      ensures r.Some? <==> selectedProducts != []
      ensures r.Some? ==> selectedSubcategory.Some? && r.value == SubcategoriesOf().values[selectedSubcategory.value]
    {
      if |selectedProducts| > 0 then Some(selectedProducts) else None
    }
  }
}

/** The product explorer: a manufacturer's categories, a category's
    subcategories, and the grid of a subcategory's products, each choice
    clearing the ones below it. */
module ProductExplorer {
  import opened Wrappers
  import opened Text
  import opened JsObjects

  /** A manufacturer with its categories, each mapping subcategories to the
      products of the grid. */
  datatype Maker<P> = Maker(name: string, logo: string, categories: Dict<Dict<seq<P>>>)

  predicate WellFormedMaker<P>(m: Maker<P>) {
    WellFormed(m.categories) && forall c :: c in m.categories.values ==> WellFormed(m.categories.values[c])
  }

  /** What the section shows below the manufacturer buttons. */
  datatype View<P> = View(categories: Option<seq<string>>, subcategories: Option<seq<string>>, grid: Option<seq<P>>)

  class Explorer<P> {
    var selectedManufacturer: Option<Maker<P>>
    var selectedCategory: Option<string>
    var selectedSubcategory: Option<string>

    /** Every selection lies inside the one above it; a subcategory is only
        chosen while its list is shown. */
    predicate Valid()
      reads this
    {
      (selectedManufacturer.Some? ==> WellFormedMaker(selectedManufacturer.value))
      && (selectedCategory.Some? ==>
            selectedManufacturer.Some? && selectedCategory.value in selectedManufacturer.value.categories.values)
      && (selectedSubcategory.Some? ==>
            Truthy(selectedCategory) && selectedSubcategory.value in SubcategoriesOf().values)
    }

    function SubcategoriesOf(): Dict<seq<P>>
      requires selectedManufacturer.Some? && selectedCategory.Some?
      requires selectedCategory.value in selectedManufacturer.value.categories.values
      reads this
    {
      selectedManufacturer.value.categories.values[selectedCategory.value]
    }

    constructor ()
      ensures selectedManufacturer.None? && selectedCategory.None? && selectedSubcategory.None?
      ensures Valid()
    {
      selectedManufacturer := None;
      selectedCategory := None;
      selectedSubcategory := None;
    }

    /** handleManufacturerSelect: category and subcategory are cleared. */
    method SelectManufacturer(m: Maker<P>)
      requires WellFormedMaker(m)
      modifies this
      ensures selectedManufacturer == Some(m) && selectedCategory.None? && selectedSubcategory.None?
      ensures Valid()
    {
      selectedManufacturer := Some(m);
      selectedCategory := None;
      selectedSubcategory := None;
    }

    /** handleCategorySelect, from a button of the shown category list: the
        subcategory is cleared. */
    method SelectCategory(c: string)
      requires Valid()
      requires Render().categories.Some? && c in Render().categories.value
      modifies this
      ensures selectedManufacturer == old(selectedManufacturer)
      ensures selectedCategory == Some(c) && selectedSubcategory.None?
      ensures Valid()
    {
      selectedCategory := Some(c);
      selectedSubcategory := None;
    }

    /** handleSubcategorySelect, from a button of the shown subcategory
        list: nothing else changes. */
    method SelectSubcategory(s: string)
      requires Valid()
      requires Render().subcategories.Some? && s in Render().subcategories.value
      modifies this
      ensures selectedManufacturer == old(selectedManufacturer) && selectedCategory == old(selectedCategory)
      ensures selectedSubcategory == Some(s)
      ensures Valid()
    {
      selectedSubcategory := Some(s);
    }

    /** Each level is shown only when the one above is selected (and
        truthy), and the grid is the selected subcategory's products. */
    function Render(): (v: View<P>)
      requires Valid()
      reads this
      ensures v.categories.Some? <==> selectedManufacturer.Some?
      ensures v.categories.Some? ==> v.categories.value == selectedManufacturer.value.categories.keys
      ensures v.subcategories.Some? <==> Truthy(selectedCategory)
      ensures v.subcategories.Some? ==> v.subcategories.value == SubcategoriesOf().keys
      ensures v.grid.Some? <==> Truthy(selectedSubcategory)
      ensures v.grid.Some? ==> v.grid.value == SubcategoriesOf().values[selectedSubcategory.value]
    {
      View(
        if selectedManufacturer.Some? then Some(selectedManufacturer.value.categories.keys) else None,
        if Truthy(selectedCategory) then Some(SubcategoriesOf().keys) else None,
        if Truthy(selectedSubcategory) then Some(SubcategoriesOf().values[selectedSubcategory.value]) else None)
    }
  }
}

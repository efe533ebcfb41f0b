/** The catalogue record shared by the front end and the API. */
module Catalog {
  import opened Wrappers

  datatype ColorVariant = ColorVariant(name: string, gallery: seq<string>)

  /** One product. Optional fields are None when the record omits them; a
      missing list is the empty list, which every reader of these lists
      treats the same way. */
  datatype Product = Product(
    id: int,
    name: string,
    description: string,
    category: string,
    subCategory: Option<string>,
    subSubCategory: Option<string>,
    distributor: string,
    manufacturer: Option<string>,
    price: Option<int>,
    image: string,
    gallery: seq<string>,
    colors: seq<string>,
    sizes: seq<string>,
    colorVariants: seq<ColorVariant>)
}

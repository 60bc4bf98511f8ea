/**
 * Catalog products (the `IProduct` record and the `Product` object).
 * Every field but `selected` is fixed once the product exists; `selected`
 * is flipped in place by the checkout controller and by `AppState`, on the
 * very object that the catalog and the basket share.
 */
module Products {
  import opened Wrappers

  /** The five catalog categories. */
  datatype Category = SoftSkill | Other | Additional | Button | HardSkill

  /**
   * The plain product record as the catalog source delivers it. A price of
   * `None` is JavaScript `null` ("not for sale"); an absent `selected` is
   * modelled as `false`.
   */
  datatype ProductInfo = ProductInfo(
    id: string,
    category: Category,
    title: string,
    description: string,
    image: string,
    price: Option<int>,
    selected: bool)

  /** A product object; only `selected` can change after construction. */
  class Product {
    const id: string
    const category: Category
    const title: string
    const description: string
    const image: string
    const price: Option<int>
    var selected: bool

    /** The record this object currently holds. */
    function Info(): ProductInfo
      reads this
    {
      ProductInfo(id, category, title, description, image, price, selected)
    }

    /** Copies every field of `info` into a new object. */
    constructor (info: ProductInfo)
      ensures Info() == info
    {
      id := info.id;
      category := info.category;
      title := info.title;
      description := info.description;
      image := info.image;
      price := info.price;
      selected := info.selected;
    }
  }
}

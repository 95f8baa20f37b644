/** The four reference tables the pricing engine reads, one record per ORM
    model (Product, PriceRange, Material, Modifier). Prices and multipliers
    are SQL `Numeric` columns and are kept here as exact reals. */
module Catalog {

  datatype Product = Product(
    id: int,
    code: string,
    name: string,
    unit: string,
    baseDeadlineDays: int)

  /** A quantity band `[rangeFrom, rangeTo]` of one product with a flat price
      for the whole band. */
  datatype PriceRange = PriceRange(
    id: int,
    productId: int,
    rangeFrom: int,
    rangeTo: int,
    price: real)

  datatype Material = Material(
    id: int,
    code: string,
    name: string,
    priceMultiplier: real)

  datatype Modifier = Modifier(
    id: int,
    code: string,
    name: string,
    priceMultiplier: real,
    deadlineModifierDays: int)

  /** The rows of the four tables, in table order, as one calculation sees them. */
  datatype Tables = Tables(
    products: seq<Product>,
    priceRanges: seq<PriceRange>,
    materials: seq<Material>,
    modifiers: seq<Modifier>)
}

/** The catalog entity shared by the local list, the remote search and the cart. */
module Products {

  /** A value or its absence; stands for TypeScript's `T | null` and optional fields. */
  datatype Option<+T> = None | Some(value: T)

  /**
   * A product. `id` is the sole identity key; the other fields are display data.
   * `price` is a currency amount, modelled exactly (no binary floating point).
   */
  datatype Product = Product(
    id: int,
    title: string,
    description: string,
    price: real,
    thumbnail: Option<string>)

  /** True when some entry of `items` carries identity `id`. */
  predicate HasId(items: seq<Product>, id: int)
  {
    exists i | 0 <= i < |items| :: items[i].id == id
  }

  /** No two entries of `items` share an `id`. */
  ghost predicate UniqueIds(items: seq<Product>)
  {
    forall i, j | 0 <= i < j < |items| :: items[i].id != items[j].id
  }
}

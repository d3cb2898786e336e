/** Record shapes shared by the storefront: catalog entries, cart lines and
    the signed-in user (src/types.ts). */
module Types {

  datatype Option<+T> = None | Some(value: T)

  /** The fixed category enumeration, 'All' included. */
  datatype Category =
    | All
    | FoodAndGroceries
    | CookingAndGas
    | HygieneAndCare
    | KitchenItems
    | Appliances
    | Household

  /** A catalog entry. The optional discount percentage is `discount`, with 0
      standing for "absent": every guard in the storefront treats an absent
      discount and a zero discount alike. The image and tags carry no logic. */
  datatype MenuItem = MenuItem(
    id: string,
    name: string,
    description: string,
    price: int,
    discount: int,
    category: Category,
    stock: int)

  /** A cart line: a copy of the catalog entry, its quantity and the line id
      generated when it was first added. */
  datatype CartItem = CartItem(item: MenuItem, quantity: int, cartId: string)

  datatype UserProfile = UserProfile(
    name: string,
    rank: string,
    unit: string,
    balance: int,
    serviceNumber: Option<string>)

  /** The two payment channels. */
  datatype PaymentMethod = Zigama | Momo
}

/**
 * The records shared by the stores (src/types/index.ts). Prices are integer
 * cents so that totals are exact; ids and timestamps are opaque strings
 * supplied from outside (they come from a uuid generator and the clock).
 */
module Types {
  import opened Wrappers

  type Id = string

  /** An ISO-8601 time stamp, never inspected. */
  type Timestamp = string

  datatype User = User(
    id: Id,
    username: string,
    email: string,
    phone: string,
    address: string,
    country: string,
    state: string,
    city: string,
    createdAt: Timestamp)

  /** A catalog entry; the seller fields are a copy of the seller's profile taken at creation. */
  datatype Product = Product(
    id: Id,
    name: string,
    price: int,
    description: string,
    image: string,
    sellerId: Id,
    sellerUsername: string,
    sellerPhone: Option<string>,
    sellerCountry: string,
    sellerState: string,
    createdAt: Timestamp)

  datatype PurchaseStatus = Pending | Completed | Cancelled

  datatype Purchase = Purchase(
    id: Id,
    productId: Id,
    productName: string,
    price: int,
    buyerId: Id,
    sellerId: Id,
    purchasedAt: Timestamp,
    status: PurchaseStatus)

  /** A stored login record, kept apart from the user profiles. */
  datatype Credential = Credential(userId: Id, username: string, email: string, password: string)

  /**
   * How the persistent store behaves during one operation: the number of
   * storage calls (reads, writes, removals) that complete before one throws.
   * A value at least the operation's number of calls means nothing fails.
   */
  type FailAt = nat

  /** How an asynchronous operation's promise settles. */
  datatype Completion = Resolved | Rejected

  function ProductId(p: Product): Id { p.id }
}

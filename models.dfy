/** The stored customer record (the `models` package). */
module Models {

  /** A UUID as github.com/google/uuid represents it: sixteen bytes, compared by value. */
  type Uuid = s: seq<bv8> | |s| == 16
    witness [0, 0, 0, 0, 0, 0, 0, 0, 0, 0, 0, 0, 0, 0, 0, 0]

  /** One customer record as the service keeps it in its collection. */
  datatype Customer = Customer(
    id: Uuid,
    name: string,
    role: string,
    email: string,
    phone: string,
    contacted: bool)
}

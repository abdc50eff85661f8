/** The records the service exchanges with its callers (the `viewmodels` package). */
module ViewModels {
  import opened Models

  /** What every read and write operation hands back to its caller. */
  datatype CustomerViewModel = CustomerViewModel(
    id: Uuid,
    name: string,
    role: string,
    email: string,
    phone: string,
    contacted: bool)

  /** The input of an update; its `id` is carried but the service ignores it. */
  datatype CustomerEditViewModel = CustomerEditViewModel(
    id: Uuid,
    name: string,
    role: string,
    email: string,
    phone: string,
    contacted: bool)

  /** The input of a create: every field but the identifier, which the service assigns. */
  datatype CustomerCreateViewModel = CustomerCreateViewModel(
    name: string,
    role: string,
    email: string,
    phone: string,
    contacted: bool)
}

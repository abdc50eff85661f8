# Customer store model

A Dafny model of the in-memory customer store of a small CRM backend
(`CustomerService` in `src/services/customer.service.go`). The store owns one
insertion-ordered collection of customer records (id, name, role, email,
phone, contacted flag) and offers five operations over it:

- `GetAll` projects every record to a view, in order;
- `GetById` scans for the first record with an id and returns its view, or nothing;
- `Create` refuses an input whose email or phone is already stored ("customer already exists"),
  otherwise appends a record with a newly assigned UUID;
- `Update` replaces the first record with an id in place, keeping the id and
  taking the other five fields from the input, or reports "customer not found";
- `Delete` removes the first record with an id by compaction, keeping the
  order of the rest, and answers whether it found one.

Layout:

- `wrappers.dfy` — `Option` (a Go pointer that may be nil) and `Result` (a Go `(value, error)` pair).
- `models.dfy` — `Uuid` (sixteen bytes) and the stored `Customer` record.
- `view_models.dfy` — the view, edit-input and create-input records.
- `customer_spec.dfy` — module `CustomerSpec`: what the operations mean, as
  functions over `seq<Customer>` (first-match lookup, the duplicate check,
  the records a create and an update build, order-preserving removal), and
  lemmas relating the operations (uniqueness preserved or not, what a lookup
  sees after each change).
- `customer_service.dfy` — module `Services`: the class `CustomerService`
  whose field `customers` the methods reassign, each proved against the
  functions of `CustomerSpec`, and a client method that runs the
  seed / create / update / delete sequence the service tests exercise.

The UUID that the source draws at random inside `Create` is the parameter
`newId`. The source does not check that it is fresh, so `Create` does not
require it; the lemmas about finding the created record do.

## Model

| member | source | states |
|---|---|---|
| `CustomerSpec.IndexOf` | src/services/customer.service.go:154-155 | the scan's stopping point exists exactly when some record has the id, and it is the first such record |
| `CustomerSpec.Lookup` | src/services/customer.service.go:73-88 | nothing exactly when no record has the id; otherwise the view of the first record with it, whose id is the queried id |
| `CustomerSpec.ToView` | src/services/customer.service.go:59-66 | the view copies all six fields of the record, so the record can be rebuilt from it (the same copy is made at lines 76-83, 110-117 and 137-144) |
| `CustomerSpec.FromCreate` | src/services/customer.service.go:99-106 | the created record carries the assigned id and the input's five fields, so it clashes with its own input |
| `CustomerSpec.FromEdit` | src/services/customer.service.go:127-134 | the updated record keeps the looked-up id and otherwise equals the edit input: the input's own id is ignored |
| `CustomerSpec.Conflicts` | src/services/customer.service.go:93-97 | a create is refused exactly when the input's email is among the stored emails or its phone among the stored phones |
| `CustomerSpec.CreateTwiceRefused` | src/services/customer.service.go:93-108 | after a successful create, the same input is refused by the next create |
| `CustomerSpec.CreatePreservesUniqueContacts` | src/services/customer.service.go:93-108 | an append that passed the email/phone check keeps "no two records share an email or a phone" |
| `CustomerSpec.CreatePreservesUniqueIds` | src/services/customer.service.go:99-108 | an append with a fresh id keeps ids unique |
| `CustomerSpec.CreatedIsFound` | src/services/customer.service.go:99-119 | with a fresh id, the new record is found at the end and its view carries the id and the input's five fields |
| `CustomerSpec.CreateKeepsLookups` | src/services/customer.service.go:108 | after an append, a lookup of every id other than the newly assigned one (and of any id already present) finds the same as before |
| `CustomerSpec.UpdatedIsFound` | src/services/customer.service.go:125-145 | after an update of a present id, a lookup of it shows the same id and the input's other five fields |
| `CustomerSpec.UpdateKeepsIds` | src/services/customer.service.go:127-135 | an update keeps the length and every id, so unique ids stay unique |
| `CustomerSpec.UpdateCanBreakUniqueContacts` | src/services/customer.service.go:125-135 | an update is not checked against other records: giving a record another record's email breaks uniqueness of contacts |
| `CustomerSpec.RemoveAt` | src/services/customer.service.go:156 | the removal is one shorter, keeps the records before the index and shifts the ones after it down by one |
| `CustomerSpec.RemoveAtMultiset` | src/services/customer.service.go:156 | the removal takes away exactly one occurrence of the removed record and nothing else |
| `CustomerSpec.DeletedIdAbsentIff` | src/services/customer.service.go:153-160 | after removing the first record with an id, the id is gone if and only if no other record had it |
| `CustomerSpec.DeleteRemovesId` | src/services/customer.service.go:153-160 | with unique ids, a lookup of a deleted id comes back empty |
| `CustomerSpec.RemoveAtPreservesUniqueness` | src/services/customer.service.go:156 | a removal keeps unique ids unique and unique emails and phones unique |
| `Services.ServiceError.Message` | src/services/customer.service.go:95 | a refused create reads "customer already exists", a missing id on update "customer not found" (line 149); each message identifies its error |
| `Services.CustomerService.constructor` | src/services/customer.service.go:49-53 | the store starts out holding the seed records in the given order |
| `Services.CustomerService.GetAll` | src/services/customer.service.go:56-70 | one view per stored record, in the same order, all six fields copied; the store is not changed |
| `Services.CustomerService.GetById` | src/services/customer.service.go:73-88 | the view of the first record with the id; nothing exactly when no record has it; the found view's id is the queried id |
| `Services.CustomerService.Create` | src/services/customer.service.go:91-120 | on an email or phone clash: "customer already exists" and the store unchanged; otherwise exactly one record appended with the given id and the input's fields, earlier records unchanged, and its view returned |
| `Services.CustomerService.Update` | src/services/customer.service.go:123-150 | on a present id: only the first matching position replaced, by a record keeping the id with the input's other fields, and its view returned; otherwise "customer not found" and the store unchanged |
| `Services.CustomerService.Delete` | src/services/customer.service.go:153-161 | true exactly when the id is present; then the first record with it removed and the rest kept in order; otherwise the store unchanged |
| `Services.CreateUpdateDelete` | src/services/customer.service_test.go:31-111 | from a seed with distinct ids: create, update and delete each succeed; create grows the store by one and the new id is found; update keeps the size and shows the new fields; delete shrinks it by one and the id is then absent |

## Left out

- `readData` and the file loading inside `NewCustomerService` (src/services/customer.service.go:23-47): file I/O, JSON decoding and the fatal exit on failure; the seed records are the constructor's parameter instead.
- `uuid.New()` (src/services/customer.service.go:100): random generation; the new id is a parameter of `Create`, and neither the model nor the source guarantees it is fresh.
- The HTTP controller, routing, JSON encoding and status codes (src/controllers/customer.controller.go) and server startup (src/main.go): glue around the store.
- The integer-id interface (src/services/customer-service.interface.go) and the integer ids in the service tests: an older revision of the same API; only the counts and presence facts of the tests are modelled, by `Services.CreateUpdateDelete`.
- `Customer` and `CustomerCreateViewModel` have exactly the fields the service reads and writes (src/services/customer.service.go:99-106, 127-134); any other field of the stored record is not modelled (the struct literal of an update would reset it to its zero value).
- Concurrency: the source has no locking, and no concurrent access is modelled.
- Slice aliasing: the Go slice is a view of a shared backing array that `append` and the index assignment change in place; the model reassigns a `seq` field, which is equivalent for every caller because no operation hands out the slice itself.

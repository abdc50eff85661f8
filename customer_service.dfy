/**
 * The in-memory customer store: one ordered collection of records, read
 * by linear scans and changed in place by create, update and delete.
 */
module Services {
  import opened Wrappers
  import opened Models
  import opened ViewModels
  import opened CustomerSpec

  /** The two failures the store reports, with their messages. */
  datatype ServiceError = CustomerAlreadyExists | CustomerNotFound
  {
    /** The text the caller sees; each error has its own. */
    function Message(): (m: string)
      ensures CustomerAlreadyExists? <==> m == "customer already exists"
      ensures CustomerNotFound? <==> m == "customer not found"
    {
      match this
      case CustomerAlreadyExists => "customer already exists"
      case CustomerNotFound => "customer not found"
    }
  }

  class CustomerService {
    /** The stored records, in insertion order. */
    var customers: seq<Customer>

    /** A store holding the seed records, in the order given. */
    constructor (seed: seq<Customer>)
      ensures customers == seed
    {
      customers := seed;
    }

    /** One view per stored record, in the same order, all six fields copied; the store is not changed. */
    method GetAll() returns (views: seq<CustomerViewModel>)
      ensures |views| == |customers|
      ensures forall k :: 0 <= k < |customers| ==> views[k] == ToView(customers[k])
    {
      views := [];
      for i := 0 to |customers|
        invariant |views| == i
        invariant forall k :: 0 <= k < i ==> views[k] == ToView(customers[k])
      {
        views := views + [ToView(customers[i])];
      }
    }

    /**
     * The view of the first stored record with `id`; nothing exactly when
     * no stored record has that id.
     */
    method GetById(id: Uuid) returns (found: Option<CustomerViewModel>)
      ensures found == Lookup(customers, id)
      ensures found.None? <==> !HasId(customers, id)
      ensures found.Some? ==> found.value.id == id
    {
      for i := 0 to |customers|
        invariant forall k :: 0 <= k < i ==> customers[k].id != id
      {
        if customers[i].id == id {
          FirstMatchUnique(customers, id, IndexOf(customers, id).value, i);
          return Some(ToView(customers[i]));
        }
      }
      return None;
    }

    /**
     * Refuses the input when a stored record has its email or its phone;
     * otherwise appends one record with `newId` and the input's fields and
     * returns its view. `newId` stands for the UUID the source draws at random.
     */
    method Create(newId: Uuid, input: CustomerCreateViewModel)
      returns (result: Result<CustomerViewModel, ServiceError>)
      modifies this
      ensures Conflicts(old(customers), input) ==>
        result == Failure(CustomerAlreadyExists) && customers == old(customers)
      ensures !Conflicts(old(customers), input) ==>
        customers == old(customers) + [FromCreate(newId, input)] &&
        result == Success(ToView(FromCreate(newId, input)))
    {
      var cs := customers;
      for i := 0 to |cs|
        invariant forall k :: 0 <= k < i ==> !Clashes(cs[k], input)
      {
        if cs[i].email == input.email || cs[i].phone == input.phone {
          return Failure(CustomerAlreadyExists);
        }
      }
      var created := Customer(newId, input.name, input.role, input.email, input.phone, input.contacted);
      customers := customers + [created];
      result := Success(CustomerViewModel(created.id, created.name, created.role,
                                          created.email, created.phone, created.contacted));
    }

    /**
     * Replaces the first record with `id` by one that keeps `id` and takes
     * the input's other five fields, and returns its view; reports
     * "customer not found" and changes nothing when no record has `id`.
     */
    method Update(id: Uuid, input: CustomerEditViewModel)
      returns (result: Result<CustomerViewModel, ServiceError>)
      modifies this
      ensures !HasId(old(customers), id) ==>
        result == Failure(CustomerNotFound) && customers == old(customers)
      ensures HasId(old(customers), id) ==>
        customers == old(customers)[IndexOf(old(customers), id).value := FromEdit(id, input)] &&
        result == Success(ToView(FromEdit(id, input)))
    {
      var cs := customers;
      for i := 0 to |cs|
        invariant customers == cs
        invariant forall k :: 0 <= k < i ==> cs[k].id != id
      {
        if cs[i].id == id {
          var updated := Customer(id, input.name, input.role, input.email, input.phone, input.contacted);
          customers := cs[i := updated];
          FirstMatchUnique(cs, id, IndexOf(cs, id).value, i);
          return Success(CustomerViewModel(updated.id, updated.name, updated.role,
                                           updated.email, updated.phone, updated.contacted));
        }
      }
      return Failure(CustomerNotFound);
    }

    /**
     * Removes the first record with `id`, keeping the order of the rest, and
     * answers true; answers false and changes nothing when no record has `id`.
     */
    method Delete(id: Uuid) returns (deleted: bool)
      modifies this
      ensures deleted <==> HasId(old(customers), id)
      ensures deleted ==> customers == RemoveAt(old(customers), IndexOf(old(customers), id).value)
      ensures !deleted ==> customers == old(customers)
    {
      var cs := customers;
      for i := 0 to |cs|
        invariant customers == cs
        invariant forall k :: 0 <= k < i ==> cs[k].id != id
      {
        if cs[i].id == id {
          customers := cs[..i] + cs[i + 1..];
          FirstMatchUnique(cs, id, IndexOf(cs, id).value, i);
          return true;
        }
      }
      return false;
    }
  }

  /**
   * A store seeded with records of distinct ids, where each of the three
   * calls below succeeds: a create with a fresh id and unused contacts grows it by one and the new id is then found; an
   * update of a seeded id keeps the size and shows the new name; a delete
   * of that id shrinks it by one and the id is then absent.
   */
  method CreateUpdateDelete(seed: seq<Customer>, newId: Uuid, input: CustomerCreateViewModel,
                            target: Uuid, edit: CustomerEditViewModel)
    returns (created: Result<CustomerViewModel, ServiceError>, afterCreate: nat,
             createdView: Option<CustomerViewModel>,
             updated: Result<CustomerViewModel, ServiceError>, afterUpdate: nat,
             updatedView: Option<CustomerViewModel>,
             deleted: bool, afterDelete: nat, deletedView: Option<CustomerViewModel>)
    requires UniqueIds(seed) && !HasId(seed, newId) && !Conflicts(seed, input) && HasId(seed, target)
    ensures created.Success? && updated.Success? && deleted
    ensures afterCreate == |seed| + 1 && afterUpdate == |seed| + 1 && afterDelete == |seed|
    ensures createdView == Some(CustomerViewModel(newId, input.name, input.role, input.email,
                                                  input.phone, input.contacted))
    ensures updatedView == Some(CustomerViewModel(target, edit.name, edit.role, edit.email,
                                                  edit.phone, edit.contacted))
    ensures deletedView == None
  {
    var store := new CustomerService(seed);

    created := store.Create(newId, input);
    var all := store.GetAll();
    afterCreate := |all|;
    CreatedIsFound(seed, newId, input);
    createdView := store.GetById(newId);

    CreatePreservesUniqueIds(seed, newId, input);
    assert HasId(store.customers, target) by {
      var t := IndexOf(seed, target).value;
      assert store.customers[t].id == target;
    }
    var beforeUpdate := store.customers;
    updated := store.Update(target, edit);
    all := store.GetAll();
    afterUpdate := |all|;
    UpdatedIsFound(beforeUpdate, target, edit);
    updatedView := store.GetById(target);

    UpdateKeepsIds(beforeUpdate, target, edit);
    var beforeDelete := store.customers;
    assert HasId(beforeDelete, target);
    deleted := store.Delete(target);
    all := store.GetAll();
    afterDelete := |all|;
    DeleteRemovesId(beforeDelete, target);
    deletedView := store.GetById(target);
  }
}

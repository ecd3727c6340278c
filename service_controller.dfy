/** The catalog handlers over the service store: public and admin listings, create/update, and the
    soft-delete, restore and permanent-delete lifecycle. */
module ServiceController {
  import opened Common
  import opened Listing
  import opened ServiceSchema

  type Catalog = map<Id, Service>

  predicate AllValid(c: Catalog)
  {
    forall id :: id in c ==> ValidService(c[id])
  }

  /** `getServices`: the active, non-deleted services, restricted to one category when a
      non-empty category is asked for. No order is promised. */
  function PublicServices(c: Catalog, category: Option<string>): (r: set<Id>)
    ensures r <= c.Keys
    ensures forall id :: id in r <==> (id in c && c[id].isActive && Visible(c[id].isDeleted) &&
      (category.Some? && category.value != "" ==> CategoryName(c[id].category) == category.value))
  {
    set id | id in c && c[id].isActive && Visible(c[id].isDeleted) &&
      (category.Some? && category.value != "" ==> CategoryName(c[id].category) == category.value)
  }

  /** `getAllServicesAdmin`: every non-deleted service, active or not. */
  function AdminServices(c: Catalog): (r: set<Id>)
    ensures forall id :: id in r <==> id in c && Visible(c[id].isDeleted)
  {
    set id | id in c && Visible(c[id].isDeleted)
  }

  /** The public catalog is the active part of the admin catalog. */
  lemma PublicWithinAdmin(c: Catalog)
    ensures PublicServices(c, None) == set id | id in AdminServices(c) && c[id].isActive
  {
  }

  /** `getService`: 404 for a missing or deleted service; an inactive one is still returned. */
  function GetService(c: Catalog, id: Id): (r: Reply<Service>)
    ensures r.code == NotFound <==> id !in c || IsDeleted(c[id].isDeleted)
    ensures r.code == Ok <==> id in c && !IsDeleted(c[id].isDeleted)
    ensures r.code == Ok ==> r.data == Some(c[id])
    ensures r.code != Ok ==> r.data == None
  {
    if id !in c || IsDeleted(c[id].isDeleted) then Reply(NotFound, None) else Reply(Ok, Some(c[id]))
  }

  /** `createService`: 201 with the defaults applied, or a validation failure. */
  function CreateServiceOutcome(c: Catalog, input: ServiceInput, newId: Id, now: Time): (r: Outcome<Service>)
    requires newId !in c
    ensures r.code == Created <==> RequiredPresent(input) && FieldsValid(input)
    ensures r.code == ServerError <==> !(RequiredPresent(input) && FieldsValid(input))
    ensures r.code != Created ==> r.store == c
    ensures r.code == Created ==> r.store.Keys == c.Keys + {newId} && forall id :: id in c ==> r.store[id] == c[id]
    ensures r.code == Created ==> Some(r.store[newId]) == BuildService(input, now)
  {
    if !(RequiredPresent(input) && FieldsValid(input)) then Outcome(ServerError, c)
    else Outcome(Created, c[newId := BuildService(input, now).value])
  }

  /** A created service passes the schema, so the catalog stays valid. */
  lemma CreateKeepsValid(c: Catalog, input: ServiceInput, newId: Id, now: Time)
    requires newId !in c && AllValid(c)
    ensures AllValid(CreateServiceOutcome(c, input, newId, now).store)
  {
    var r := CreateServiceOutcome(c, input, newId, now);
    if r.code == Created {
      assert ValidService(r.store[newId]);
    }
  }

  /** `updateService`: 404 for a missing or deleted service, then the update validators;
      otherwise the present fields are overwritten. */
  function UpdateServiceOutcome(c: Catalog, id: Id, patch: ServiceInput): (r: Outcome<Service>)
    ensures r.code == NotFound <==> id !in c || IsDeleted(c[id].isDeleted)
    ensures r.code == ServerError <==> id in c && !IsDeleted(c[id].isDeleted) && !FieldsValid(patch)
    ensures r.code == Ok <==> id in c && !IsDeleted(c[id].isDeleted) && FieldsValid(patch)
    ensures r.code != Ok ==> r.store == c
    ensures r.code == Ok ==> OnlyAt(c, r.store, id) && r.store[id] == ApplyPatch(c[id], patch)
    ensures AllValid(c) ==> AllValid(r.store)
  {
    if id !in c || IsDeleted(c[id].isDeleted) then Outcome(NotFound, c)
    else if !FieldsValid(patch) then Outcome(ServerError, c)
    else Outcome(Ok, c[id := ApplyPatch(c[id], patch)])
  }

  /** `deleteService`: 404 for a missing or already deleted service; otherwise only the flag and
      the deletion date change. */
  function SoftDeleteOutcome(c: Catalog, id: Id, now: Time): (r: Outcome<Service>)
    ensures r.code == NotFound <==> id !in c || IsDeleted(c[id].isDeleted)
    ensures r.code == Ok <==> id in c && !IsDeleted(c[id].isDeleted)
    ensures r.code != Ok ==> r.store == c
    ensures r.code == Ok ==> OnlyAt(c, r.store, id)
    ensures r.code == Ok ==> r.store[id] == c[id].(isDeleted := Deleted, deletedAt := Some(now))
    ensures AllValid(c) ==> AllValid(r.store)
  {
    if id !in c || IsDeleted(c[id].isDeleted) then Outcome(NotFound, c)
    else Outcome(Ok, c[id := c[id].(isDeleted := Deleted, deletedAt := Some(now))])
  }

  /** `restoreService`: 404 for a missing service, 400 for one that is not deleted. */
  function RestoreOutcome(c: Catalog, id: Id): (r: Outcome<Service>)
    ensures r.code == NotFound <==> id !in c
    ensures r.code == BadRequest <==> id in c && !IsDeleted(c[id].isDeleted)
    ensures r.code == Ok <==> id in c && IsDeleted(c[id].isDeleted)
    ensures r.code != Ok ==> r.store == c
    ensures r.code == Ok ==> OnlyAt(c, r.store, id)
    ensures r.code == Ok ==> r.store[id] == c[id].(isDeleted := NotDeleted, deletedAt := None)
    ensures AllValid(c) ==> AllValid(r.store)
  {
    if id !in c then Outcome(NotFound, c)
    else if !IsDeleted(c[id].isDeleted) then Outcome(BadRequest, c)
    else Outcome(Ok, c[id := c[id].(isDeleted := NotDeleted, deletedAt := None)])
  }

  /** `permanentlyDeleteService`: removed whatever its flag; 404 only when absent. */
  function PurgeOutcome(c: Catalog, id: Id): (r: Outcome<Service>)
    ensures r.code == NotFound <==> id !in c
    ensures r.code == Ok <==> id in c
    ensures r.store.Keys == c.Keys - {id}
    ensures forall k :: k in r.store ==> r.store[k] == c[k]
    ensures AllValid(c) ==> AllValid(r.store)
  {
    if id !in c then Outcome(NotFound, c) else Outcome(Ok, c - {id})
  }

  /** `getDeletedServices`: exactly the deleted services, most recently deleted first. */
  ghost function DeletedServices(c: Catalog): (r: seq<Id>)
    ensures forall i :: 0 <= i < |r| ==> r[i] in c
    ensures forall id :: id in r <==> id in c && IsDeleted(c[id].isDeleted)
    ensures Distinct(r) && SortedDesc(c, r, ServiceDeletedAt)
  {
    NewestFirst(c, (set id | id in c && IsDeleted(c[id].isDeleted)), ServiceDeletedAt)
  }

  /** A deleted service disappears from both catalogs and from `getService`, and restoring it
      brings it back with its active flag: delete-then-restore changes only the deletion fields. */
  lemma {:induction false} DeleteThenRestoreService(c: Catalog, id: Id, now: Time)
    requires SoftDeleteOutcome(c, id, now).code == Ok
    ensures var deleted := SoftDeleteOutcome(c, id, now).store;
      && id !in AdminServices(deleted)
      && id !in PublicServices(deleted, None)
      && GetService(deleted, id).code == NotFound
      && RestoreOutcome(deleted, id).code == Ok
      && RestoreOutcome(deleted, id).store == c[id := c[id].(isDeleted := NotDeleted, deletedAt := None)]
  {
    var deleted := SoftDeleteOutcome(c, id, now).store;
    assert IsDeleted(deleted[id].isDeleted);
  }

  /** The service collection; each method is one handler that writes to it. */
  class ServiceCatalog {
    var services: Catalog

    ghost predicate Valid()
      reads this
    {
      AllValid(services)
    }

    constructor ()
      ensures Valid() && services == map[]
    {
      services := map[];
    }

    method CreateService(input: ServiceInput, newId: Id, now: Time) returns (code: HttpStatus)
      requires Valid() && newId !in services
      modifies this
      ensures Valid()
      ensures var o := CreateServiceOutcome(old(services), input, newId, now);
        code == o.code && services == o.store
    {
      CreateKeepsValid(services, input, newId, now);
      var built := BuildService(input, now);
      if built.None? {
        return ServerError;
      }
      services := services[newId := built.value];
      code := Created;
    }

    method UpdateService(id: Id, patch: ServiceInput) returns (code: HttpStatus)
      requires Valid()
      modifies this
      ensures Valid()
      ensures var o := UpdateServiceOutcome(old(services), id, patch);
        code == o.code && services == o.store
    {
      if id !in services || IsDeleted(services[id].isDeleted) {
        return NotFound;
      }
      if !FieldsValid(patch) {
        return ServerError;
      }
      services := services[id := ApplyPatch(services[id], patch)];
      code := Ok;
    }

    method DeleteService(id: Id, now: Time) returns (code: HttpStatus)
      requires Valid()
      modifies this
      ensures Valid()
      ensures var o := SoftDeleteOutcome(old(services), id, now);
        code == o.code && services == o.store
    {
      if id !in services || IsDeleted(services[id].isDeleted) {
        return NotFound;
      }
      var service := services[id];
      service := service.(isDeleted := Deleted);
      service := service.(deletedAt := Some(now));
      services := services[id := service];
      code := Ok;
    }

    method RestoreService(id: Id) returns (code: HttpStatus)
      requires Valid()
      modifies this
      ensures Valid()
      ensures var o := RestoreOutcome(old(services), id);
        code == o.code && services == o.store
    {
      if id !in services {
        return NotFound;
      }
      var service := services[id];
      if !IsDeleted(service.isDeleted) {
        return BadRequest;
      }
      service := service.(isDeleted := NotDeleted);
      service := service.(deletedAt := None);
      services := services[id := service];
      code := Ok;
    }

    method PermanentlyDeleteService(id: Id) returns (code: HttpStatus)
      requires Valid()
      modifies this
      ensures Valid()
      ensures var o := PurgeOutcome(old(services), id);
        code == o.code && services == o.store
    {
      if id !in services {
        return NotFound;
      }
      services := services - {id};
      code := Ok;
    }
  }
}

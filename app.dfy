/** The service's handlers over its database. The `Store` holds the five tables and the
    column set of `transferts`; each write handler is a method whose `modifies` frame names
    the tables it changes (its own table, and for a delete the table with an ORM relationship
    to it, whose rows lose their reference to the deleted row), and returns the status and
    body the handler sends. */
module App {
  import opened Payload
  import opened Dates
  import opened Models
  import opened Tables
  import opened Listings
  import opened Migration
  import opened Resources
  import opened Transfers

  /** The HTTP status of a response: 200, 201, 400, 404 and 500. */
  datatype Status = Ok | Created | BadRequest | NotFound | ServerError

  datatype Body =
    | Message(text: string)
    | MessageWithId(text: string, id: int)
    | Record(fields: map<string, Value>)
    | Rows(items: seq<map<string, Value>>)
    | Error(kind: string, detail: string)
    | ErrorPage  // the framework's own page for an aborted request (404) or an uncaught exception (500)

  datatype Response = Response(status: Status, body: Body)

  const NotFoundResponse := Response(NotFound, ErrorPage)
  const MissingShelterResponse := Response(BadRequest, Error("bad_request", "refuge_depart_id et refuge_arrivee_id sont requis"))

  function AddedMessage(f: Family): string
  {
    match f
    case Chien => "Chien ajouté"
    case Chien12 => "Chien 12 mois ajouté"
    case Chat12 => "Chat 12 mois ajouté"
  }

  function UpdatedMessage(f: Family): string
  {
    match f
    case Chien => "Chien mis à jour"
    case Chien12 => "Chien 12 mois modifié"
    case Chat12 => "Chat 12 mois modifié"
  }

  function DeletedMessage(f: Family): string
  {
    match f
    case Chien => "Chien supprimé"
    case Chien12 => "Chien 12 mois supprimé"
    case Chat12 => "Chat 12 mois supprimé"
  }

  class Store {
    var refuges: Table<Refuge>
    var animals: map<Family, Table<Animal>>
    var transferts: Table<Transfert>
    /** The columns of `transferts`; None while the table does not exist. */
    var transfertsColumns: Option<set<string>>

    ghost predicate Valid()
      reads this
    {
      && refuges.Valid()
      && transferts.Valid()
      && animals.Keys == {Chien, Chien12, Chat12}
      && forall f :: f in animals ==> animals[f].Valid()
    }

    constructor (schema: Option<set<string>>)
      ensures Valid()
      ensures refuges.rows == map[] && transferts.rows == map[]
      ensures forall f :: f in animals ==> animals[f].rows == map[]
      ensures refuges.nextId == 1 && transferts.nextId == 1
      ensures forall f :: f in animals ==> animals[f].nextId == 1
      ensures transfertsColumns == schema
    {
      refuges := Empty();
      animals := map[Chien := Empty(), Chien12 := Empty(), Chat12 := Empty()];
      transferts := Empty();
      transfertsColumns := schema;
    }

    // ---------- Startup migration ----------

    /** Adds the missing reference columns to `transferts`, one ALTER at a time, and
        returns the statements issued. PostgreSQL gets ADD COLUMN IF NOT EXISTS; other
        databases get a plain ADD COLUMN, issued only after re-reading the columns. */
    method EnsureTransfertsColumns(postgres: bool) returns (issued: seq<Alter>)
      modifies this`transfertsColumns
      ensures transfertsColumns == Migrated(old(transfertsColumns))
      ensures issued == Plan(old(transfertsColumns), postgres)
      ensures forall i :: 0 <= i < |issued| ==> issued[i].column.name !in old(transfertsColumns).value
    {
      issued := [];
      if transfertsColumns.None? {
        return;
      }
      var existing := transfertsColumns.value;
      var missing := Missing(existing);
      if missing == [] {
        assert existing + RequiredNames == existing;
        return;
      }
      var i := 0;
      MissingEnds(existing);
      while i < |missing|
        invariant 0 <= i <= |missing|
        invariant transfertsColumns == Some(existing + Names(missing[..i]))
        invariant issued == AltersFor(missing[..i], postgres)
      {
        var column := missing[i];
        MissingStep(existing, i, postgres);
        if postgres {
          issued := issued + [Alter(column, true)];
          transfertsColumns := Some(transfertsColumns.value + {column.name});
        } else {
          var now := transfertsColumns.value;
          if column.name !in now {
            issued := issued + [Alter(column, false)];
            transfertsColumns := Some(now + {column.name});
          }
        }
        i := i + 1;
      }
      forall j | 0 <= j < |issued| ensures issued[j].column.name !in existing {
        PlanAddsOnlyMissing(Some(existing), postgres, j);
      }
    }

    // ---------- Shelters ----------

    method GetRefuges() returns (resp: Response)
      requires Valid()
      ensures resp == Response(Ok, Rows(Listing(refuges, RefugeToDict)))
    {
      resp := Response(Ok, Rows(Listing(refuges, RefugeToDict)));
    }

    method AddRefuge(data: Data) returns (resp: Response)
      requires Valid()
      modifies this`refuges
      ensures Valid()
      ensures refuges == old(refuges).Insert(NewRefuge(data))
      ensures resp == Response(Created, Record(RefugeToDict(old(refuges).nextId, NewRefuge(data))))
    {
      var r := NewRefuge(data);
      var id := refuges.nextId;
      refuges := refuges.Insert(r);
      resp := Response(Created, Record(RefugeToDict(id, r)));
    }

    method UpdateRefuge(id: int, data: Data) returns (resp: Response)
      requires Valid()
      modifies this`refuges
      ensures Valid()
      ensures id !in old(refuges).rows ==> resp == NotFoundResponse && refuges == old(refuges)
      ensures id in old(refuges).rows ==>
        && refuges == old(refuges).Replace(id, RefugeUpdated(old(refuges).rows[id], data))
        && resp == Response(Ok, Record(RefugeToDict(id, refuges.rows[id])))
    {
      if id !in refuges.rows {
        return NotFoundResponse;
      }
      var r := RefugeUpdated(refuges.rows[id], data);
      refuges := refuges.Replace(id, r);
      resp := Response(Ok, Record(RefugeToDict(id, r)));
    }

    /** DELETE `/api/refuges/<id>`: the shelter goes, and its dogs lose their `refuge_id`. */
    method DeleteRefuge(id: int) returns (resp: Response)
      requires Valid()
      modifies this`refuges, this`animals
      ensures Valid()
      ensures id !in old(refuges).rows ==> resp == NotFoundResponse && refuges == old(refuges) && animals == old(animals)
      ensures id in old(refuges).rows ==>
        && refuges == old(refuges).Remove(id)
        && animals == old(animals)[Chien := OrphanDogs(old(animals)[Chien], id)]
        && resp == Response(Ok, Message("Refuge supprimé"))
    {
      if id !in refuges.rows {
        return NotFoundResponse;
      }
      refuges := refuges.Remove(id);
      animals := animals[Chien := OrphanDogs(animals[Chien], id)];
      resp := Response(Ok, Message("Refuge supprimé"));
    }

    // ---------- Dogs, 12-month dogs, 12-month cats ----------

    method GetAnimals(f: Family) returns (resp: Response)
      requires Valid()
      ensures resp == Response(Ok, Rows(Listing(animals[f], AnimalToDict)))
    {
      resp := Response(Ok, Rows(Listing(animals[f], AnimalToDict)));
    }

    /** POST to `/api/chiens`, `/api/chiens12` or `/api/chats12`. The dog handler reads
        `data["nom"]`, so a body without "nom" raises before anything is stored. */
    method AddAnimal(f: Family, data: Data) returns (resp: Response)
      requires Valid()
      modifies this`animals
      ensures Valid()
      ensures f == Chien && "nom" !in data ==> resp == Response(ServerError, ErrorPage) && animals == old(animals)
      ensures !(f == Chien && "nom" !in data) ==>
        && animals == old(animals)[f := old(animals)[f].Insert(NewAnimal(data))]
        && resp.status == Created
        && resp.body == (if f == Chien then Message(AddedMessage(f)) else MessageWithId(AddedMessage(f), old(animals)[f].nextId))
    {
      if f == Chien && "nom" !in data {
        return Response(ServerError, ErrorPage);
      }
      var a := NewAnimal(data);
      var id := animals[f].nextId;
      animals := animals[f := animals[f].Insert(a)];
      resp := Response(Created, if f == Chien then Message(AddedMessage(f)) else MessageWithId(AddedMessage(f), id));
    }

    method UpdateAnimal(f: Family, id: int, data: Data) returns (resp: Response)
      requires Valid()
      modifies this`animals
      ensures Valid()
      ensures id !in old(animals)[f].rows ==> resp == NotFoundResponse && animals == old(animals)
      ensures id in old(animals)[f].rows ==>
        && animals == old(animals)[f := old(animals)[f].Replace(id, AnimalUpdated(old(animals)[f].rows[id], data))]
        && resp == Response(Ok, Message(UpdatedMessage(f)))
    {
      if id !in animals[f].rows {
        return NotFoundResponse;
      }
      var a := AnimalUpdated(animals[f].rows[id], data);
      animals := animals[f := animals[f].Replace(id, a)];
      resp := Response(Ok, Message(UpdatedMessage(f)));
    }

    /** DELETE on one animal table; deleting a dog also nulls the `chien_id` of its transfers. */
    method DeleteAnimal(f: Family, id: int) returns (resp: Response)
      requires Valid()
      modifies this`animals, this`transferts
      ensures Valid()
      ensures id !in old(animals)[f].rows ==> resp == NotFoundResponse && animals == old(animals) && transferts == old(transferts)
      ensures id in old(animals)[f].rows ==>
        && animals == old(animals)[f := old(animals)[f].Remove(id)]
        && transferts == (if f == Chien then DetachTransferts(old(transferts), id) else old(transferts))
        && resp == Response(Ok, Message(DeletedMessage(f)))
    {
      if id !in animals[f].rows {
        return NotFoundResponse;
      }
      animals := animals[f := animals[f].Remove(id)];
      if f == Chien {
        transferts := DetachTransferts(transferts, id);
      }
      resp := Response(Ok, Message(DeletedMessage(f)));
    }

    method GetAnimaux() returns (resp: Response)
      requires Valid()
      ensures resp == Response(Ok, Rows(Animaux(animals[Chien], animals[Chien12], animals[Chat12])))
    {
      resp := Response(Ok, Rows(Animaux(animals[Chien], animals[Chien12], animals[Chat12])));
    }

    // ---------- Transfers ----------

    method GetTransferts() returns (resp: Response)
      requires Valid()
      ensures resp == Response(Ok, Rows(Listing(transferts, TransfertToDict)))
    {
      resp := Response(Ok, Rows(Listing(transferts, TransfertToDict)));
    }

    /** POST `/api/transferts`; `today` is the server's current date. */
    method AddTransfert(data: Data, today: Date) returns (resp: Response)
      requires Valid()
      modifies this`transferts
      ensures Valid()
      ensures MissingShelter(data) ==> resp == MissingShelterResponse && transferts == old(transferts)
      ensures !MissingShelter(data) ==>
        && transferts == old(transferts).Insert(CreateTransfert(data, today).value)
        && resp == Response(Created, Message("Transfert ajouté"))
    {
      var created := CreateTransfert(data, today);
      if created.None? {
        return MissingShelterResponse;
      }
      transferts := transferts.Insert(created.value);
      resp := Response(Created, Message("Transfert ajouté"));
    }

    method UpdateTransfert(id: int, data: Data) returns (resp: Response)
      requires Valid()
      modifies this`transferts
      ensures Valid()
      ensures id !in old(transferts).rows ==> resp == NotFoundResponse && transferts == old(transferts)
      ensures id in old(transferts).rows ==>
        && transferts == old(transferts).Replace(id, TransfertUpdated(old(transferts).rows[id], data))
        && resp == Response(Ok, Message("Transfert mis à jour"))
    {
      if id !in transferts.rows {
        return NotFoundResponse;
      }
      var t := TransfertUpdated(transferts.rows[id], data);
      transferts := transferts.Replace(id, t);
      resp := Response(Ok, Message("Transfert mis à jour"));
    }

    method DeleteTransfert(id: int) returns (resp: Response)
      requires Valid()
      modifies this`transferts
      ensures Valid()
      ensures id !in old(transferts).rows ==> resp == NotFoundResponse && transferts == old(transferts)
      ensures id in old(transferts).rows ==>
        transferts == old(transferts).Remove(id) && resp == Response(Ok, Message("Transfert supprimé"))
    {
      if id !in transferts.rows {
        return NotFoundResponse;
      }
      transferts := transferts.Remove(id);
      resp := Response(Ok, Message("Transfert supprimé"));
    }
  }
}

/** The pure part of the shelter and animal handlers: the record a POST builds, the
    record a PUT leaves (`field = data.get(key, field)` for every column), and the
    combined animal listing. */
module Resources {
  import opened Payload
  import opened Models
  import opened Tables
  import opened Listings

  const NullRefuge := Refuge(Null, Null, Null, Null)
  const NullAnimal := Animal(Null, Null, Null, Null)

  // ---------- Shelters ----------

  /** `Refuge(nom=data.get("nom"), ...)`: each column takes the body's value, None when absent. */
  function NewRefuge(data: Data): (r: Refuge)
    ensures RefugeColumns(r) == Overlay(RefugeColumns(NullRefuge), data)
  {
    Refuge(Get(data, "nom", Null), Get(data, "responsable", Null),
           Get(data, "telephone", Null), Get(data, "adresse", Null))
  }

  /** The shelter a PUT leaves: a key the body carries overwrites its column, even with null. */
  function RefugeUpdated(r: Refuge, data: Data): (u: Refuge)
    ensures RefugeColumns(u) == Overlay(RefugeColumns(r), data)
  {
    r.(nom := Get(data, "nom", r.nom),
       responsable := Get(data, "responsable", r.responsable),
       telephone := Get(data, "telephone", r.telephone),
       adresse := Get(data, "adresse", r.adresse))
  }

  lemma RefugeUpdateIdempotent(r: Refuge, data: Data)
    ensures RefugeUpdated(RefugeUpdated(r, data), data) == RefugeUpdated(r, data)
  {
  }

  lemma RefugeUpdateEmpty(r: Refuge)
    ensures RefugeUpdated(r, map[]) == r
  {
  }

  /** A created shelter has the NOT NULL `nom` exactly when the body sends a non-null "nom". */
  lemma NewRefugeConformsIff(data: Data)
    ensures RefugeConforms(NewRefuge(data)) <==> "nom" in data && data["nom"] != Null
  {
  }

  /** A PUT keeps a conforming shelter conforming unless it sends `"nom": null`. */
  lemma RefugeUpdateConformsIff(r: Refuge, data: Data)
    requires RefugeConforms(r)
    ensures RefugeConforms(RefugeUpdated(r, data)) <==> !("nom" in data && data["nom"] == Null)
  {
  }

  // ---------- Dogs and the two 12-month rosters ----------

  /** `Chien(nom=..., age=data.get("age"), race=data.get("race"), refuge_id=data.get("refuge_id"))`. */
  function NewAnimal(data: Data): (a: Animal)
    ensures AnimalColumns(a) == Overlay(AnimalColumns(NullAnimal), data)
  {
    Animal(Get(data, "nom", Null), Get(data, "age", Null), Get(data, "race", Null), Get(data, "refuge_id", Null))
  }

  function AnimalUpdated(a: Animal, data: Data): (u: Animal)
    ensures AnimalColumns(u) == Overlay(AnimalColumns(a), data)
  {
    a.(nom := Get(data, "nom", a.nom),
       age := Get(data, "age", a.age),
       race := Get(data, "race", a.race),
       refugeId := Get(data, "refuge_id", a.refugeId))
  }

  lemma AnimalUpdateIdempotent(a: Animal, data: Data)
    ensures AnimalUpdated(AnimalUpdated(a, data), data) == AnimalUpdated(a, data)
  {
  }

  /** An empty change-set leaves every field as it was. */
  lemma AnimalUpdateEmpty(a: Animal)
    ensures AnimalUpdated(a, map[]) == a
  {
  }

  lemma NewAnimalConformsIff(data: Data)
    ensures AnimalConforms(NewAnimal(data)) <==> "nom" in data && data["nom"] != Null
  {
  }

  /** Deleting a shelter through the ORM: the `Refuge.chiens` relationship has no delete
      cascade, so every dog of that shelter has its `refuge_id` set to null and keeps every
      other column; the other dogs are untouched. */
  function OrphanDogs(chiens: Table<Animal>, refugeId: int): (t: Table<Animal>)
    requires chiens.Valid()
    ensures t.Valid() && t.rows.Keys == chiens.rows.Keys && t.nextId == chiens.nextId
    ensures forall k :: k in t.rows && chiens.rows[k].refugeId == Int(refugeId) ==> t.rows[k].refugeId == Null
    ensures forall k :: k in t.rows ==> t.rows[k] == chiens.rows[k].(refugeId := t.rows[k].refugeId)
    ensures forall k :: k in t.rows && chiens.rows[k].refugeId != Int(refugeId) ==> t.rows[k] == chiens.rows[k]
  {
    Table(map k | k in chiens.rows ::
            if chiens.rows[k].refugeId == Int(refugeId) then chiens.rows[k].(refugeId := Null) else chiens.rows[k],
          chiens.nextId)
  }

  // ---------- Combined listing ----------

  /** One entry of `/api/animaux`: `{"id": c.id, "nom": c.nom, "type": tag}`. */
  function AnimalEntry(f: Family, id: int, a: Animal): (e: map<string, Value>)
    ensures e.Keys == {"id", "nom", "type"}
    ensures e["id"] == Int(id) && e["nom"] == a.nom && e["type"] == Str(Tag(f))
  {
    map["id" := Int(id), "nom" := a.nom, "type" := Str(Tag(f))]
  }

  /** Ids overlap between the three tables, but an entry still names one table and one id. */
  lemma AnimalEntryIdentifies(f: Family, id: int, a: Animal, g: Family, jd: int, b: Animal)
    ensures AnimalEntry(f, id, a) == AnimalEntry(g, jd, b) ==> f == g && id == jd && a.nom == b.nom
  {
  }

  /** An entry of the combined listing that comes from table `f`. */
  predicate EntryOf(f: Family, e: map<string, Value>)
  {
    e.Keys == {"id", "nom", "type"} && e["type"] == Str(Tag(f))
  }

  function Entries(f: Family, t: Table<Animal>): (out: seq<map<string, Value>>)
    requires t.Valid()
    ensures |out| == |t.rows|
    ensures forall i :: 0 <= i < |out| ==> EntryOf(f, out[i])
    ensures forall i :: 0 <= i < |out| ==> out[i] == AnimalEntry(f, ListedIds(t)[i], t.rows[ListedIds(t)[i]])
  {
    var ser := (id, a) => AnimalEntry(f, id, a);
    var out := Listing(t, ser);
    forall i | 0 <= i < |out| ensures EntryOf(f, out[i]) {
      var id := ListedIds(t)[i];
      assert out[i] == ser(id, t.rows[id]);
      assert out[i] == AnimalEntry(f, id, t.rows[id]);
    }
    out
  }

  /** Three family listings concatenated keep each entry's family by position. */
  lemma ConcatByFamily(a: seq<map<string, Value>>, b: seq<map<string, Value>>, c: seq<map<string, Value>>)
    requires forall i :: 0 <= i < |a| ==> EntryOf(Chien, a[i])
    requires forall i :: 0 <= i < |b| ==> EntryOf(Chien12, b[i])
    requires forall i :: 0 <= i < |c| ==> EntryOf(Chat12, c[i])
    ensures forall i :: 0 <= i < |a| ==> EntryOf(Chien, (a + b + c)[i])
    ensures forall i :: |a| <= i < |a| + |b| ==> EntryOf(Chien12, (a + b + c)[i])
    ensures forall i :: |a| + |b| <= i < |a| + |b| + |c| ==> EntryOf(Chat12, (a + b + c)[i])
  {
  }

  /** `chiens + chiens12 + chats12`: the three tables in this fixed order, id, nom and tag only. */
  function Animaux(chiens: Table<Animal>, chiens12: Table<Animal>, chats12: Table<Animal>): (out: seq<map<string, Value>>)
    requires chiens.Valid() && chiens12.Valid() && chats12.Valid()
    ensures |out| == |chiens.rows| + |chiens12.rows| + |chats12.rows|
    ensures forall i :: 0 <= i < |chiens.rows| ==> EntryOf(Chien, out[i])
    ensures forall i :: |chiens.rows| <= i < |chiens.rows| + |chiens12.rows| ==> EntryOf(Chien12, out[i])
    ensures forall i :: |chiens.rows| + |chiens12.rows| <= i < |out| ==> EntryOf(Chat12, out[i])
  {
    var a, b, c := Entries(Chien, chiens), Entries(Chien12, chiens12), Entries(Chat12, chats12);
    ConcatByFamily(a, b, c);
    a + b + c
  }

  /** An entry is listed exactly when one of the three tables holds that row. */
  lemma AnimauxMembers(chiens: Table<Animal>, chiens12: Table<Animal>, chats12: Table<Animal>, e: map<string, Value>)
    requires chiens.Valid() && chiens12.Valid() && chats12.Valid()
    ensures e in Animaux(chiens, chiens12, chats12) <==>
      (exists id :: id in chiens.rows && e == AnimalEntry(Chien, id, chiens.rows[id]))
      || (exists id :: id in chiens12.rows && e == AnimalEntry(Chien12, id, chiens12.rows[id]))
      || (exists id :: id in chats12.rows && e == AnimalEntry(Chat12, id, chats12.rows[id]))
  {
    ListingMembers(chiens, (id, a) => AnimalEntry(Chien, id, a), e);
    ListingMembers(chiens12, (id, a) => AnimalEntry(Chien12, id, a), e);
    ListingMembers(chats12, (id, a) => AnimalEntry(Chat12, id, a), e);
  }
}

/** The pure part of the transfer handlers: the legacy `chien_id` compatibility rules of
    create and update, the required shelters, and the record each leaves behind. */
module Transfers {
  import opened Payload
  import opened Dates
  import opened Models
  import opened Tables

  datatype AnimalRef = AnimalRef(animalType: Value, animalId: Value)

  /** The dog tag the legacy field stands for. */
  const ChienTag := Str("chien")

  /** A non-null legacy `chien_id` and a dog reference denote the same dog. */
  predicate LegacyConsistent(t: Transfert)
  {
    t.animalType == ChienTag && t.chienId != Null ==> t.animalId == t.chienId
  }

  // ---------- Create ----------

  /** The animal reference a POST stores: the body's pair, unless `animal_type` is falsy
      (absent, null or "") and `chien_id` is truthy, in which case the dog `chien_id`. */
  function ResolveAnimal(data: Data): AnimalRef
  {
    var animalType := Get(data, "animal_type", Null);
    var animalId := Get(data, "animal_id", Null);
    if !Truthy(animalType) && Truthy(Get(data, "chien_id", Null)) then
      AnimalRef(ChienTag, Get(data, "chien_id", Null))
    else
      AnimalRef(animalType, animalId)
  }

  /** The 400 condition: a shelter id that is absent, null, 0, "" or false. */
  predicate MissingShelter(data: Data)
  {
    !Truthy(Get(data, "refuge_depart_id", Null)) || !Truthy(Get(data, "refuge_arrivee_id", Null))
  }

  /** The `statut` a new row gets: the ORM leaves a None out of the INSERT, so the column
      default "En attente" applies both to an absent key and to an explicit null. */
  function InsertedStatut(v: Value): Value
  {
    if v == Null then Str(EnAttente) else v
  }

  /** The row a POST inserts, or None for the 400 response (nothing is inserted then). */
  function CreateTransfert(data: Data, today: Date): (r: Option<Transfert>)
    ensures r.None? <==> MissingShelter(data)
    ensures r.Some? ==> TransfertConforms(r.value)
    ensures r.Some? ==> Truthy(r.value.refugeDepartId) && Truthy(r.value.refugeArriveeId)
    ensures r.Some? ==> r.value.refugeDepartId == data["refuge_depart_id"] && r.value.refugeArriveeId == data["refuge_arrivee_id"]
    ensures r.Some? ==> r.value.chienId == Get(data, "chien_id", Null)
    ensures r.Some? ==> r.value.dateTransfert == Some(today)
    ensures r.Some? ==> r.value.statut == (if "statut" in data && data["statut"] != Null then data["statut"] else Str(EnAttente))
    ensures r.Some? ==> r.value.statut != Null
  {
    var ref := ResolveAnimal(data);
    if MissingShelter(data) then None
    else
      Some(Transfert(
        animalType := ref.animalType,
        animalId := ref.animalId,
        chienId := Get(data, "chien_id", Null),
        refugeDepartId := data["refuge_depart_id"],
        refugeArriveeId := data["refuge_arrivee_id"],
        dateTransfert := Some(today),
        statut := InsertedStatut(Get(data, "statut", Str(EnAttente)))))
  }

  /** Legacy inference on create: a falsy `animal_type` with a truthy `chien_id` stores
      the dog `chien_id`; in every other case the body's pair is stored unchanged. */
  lemma CreateLegacyInference(data: Data, today: Date)
    requires !MissingShelter(data)
    ensures var t := CreateTransfert(data, today).value;
      if !Truthy(Get(data, "animal_type", Null)) && "chien_id" in data && Truthy(data["chien_id"]) then
        t.animalType == ChienTag && t.animalId == data["chien_id"]
      else
        t.animalType == Get(data, "animal_type", Null) && t.animalId == Get(data, "animal_id", Null)
  {
  }

  /** A created transfer breaks the legacy invariant exactly when the body itself names the
      dog tag, a non-null `chien_id` and a different `animal_id`. */
  lemma CreateLegacyConsistentIff(data: Data, today: Date)
    requires !MissingShelter(data)
    ensures LegacyConsistent(CreateTransfert(data, today).value) <==>
      !(Get(data, "animal_type", Null) == ChienTag && Get(data, "chien_id", Null) != Null
        && Get(data, "animal_id", Null) != Get(data, "chien_id", Null))
  {
  }

  /** A create reads only the six documented keys: the date in particular comes from the
      server clock, never from the body. */
  lemma CreateReadsOnlyKnownKeys(data: Data, other: Data, today: Date)
    requires forall k :: k in {"animal_type", "animal_id", "chien_id", "refuge_depart_id", "refuge_arrivee_id", "statut"} ==>
      (k in data <==> k in other) && (k in data ==> data[k] == other[k])
    ensures CreateTransfert(data, today) == CreateTransfert(other, today)
  {
  }

  // ---------- Update ----------

  /** The update body as the column overlay sees it: a present, non-null `chien_id` replaces
      whatever `animal_type`/`animal_id` the same body carries by the dog `chien_id`. */
  function NormalisedUpdate(data: Data): Data
  {
    if "chien_id" in data && data["chien_id"] != Null then
      data["animal_type" := ChienTag]["animal_id" := data["chien_id"]]
    else data
  }

  /** The transfer a PUT leaves, assignment by assignment as the handler performs them.
      The coupling rule: a present non-null `chien_id` wins over the body's own pair; a
      present null `chien_id` clears it and leaves the pair as the body set it; an absent
      key keeps its field, and the date is never touched. */
  function TransfertUpdated(t: Transfert, data: Data): (u: Transfert)
    ensures "chien_id" in data && data["chien_id"] != Null ==>
      u.animalType == ChienTag && u.animalId == data["chien_id"] && u.chienId == data["chien_id"]
    ensures !("chien_id" in data && data["chien_id"] != Null) ==>
      u.chienId == Get(data, "chien_id", t.chienId)
      && u.animalType == Get(data, "animal_type", t.animalType)
      && u.animalId == Get(data, "animal_id", t.animalId)
    ensures u.refugeDepartId == Get(data, "refuge_depart_id", t.refugeDepartId)
    ensures u.refugeArriveeId == Get(data, "refuge_arrivee_id", t.refugeArriveeId)
    ensures u.statut == Get(data, "statut", t.statut)
    ensures u.dateTransfert == t.dateTransfert
  {
    var t1 := if "animal_type" in data then t.(animalType := data["animal_type"]) else t;
    var t2 := if "animal_id" in data then t1.(animalId := data["animal_id"]) else t1;
    var t3 :=
      if "chien_id" in data then
        var withLegacy := t2.(chienId := data["chien_id"]);
        if data["chien_id"] != Null then withLegacy.(animalType := ChienTag, animalId := data["chien_id"])
        else withLegacy
      else t2;
    t3.(refugeDepartId := Get(data, "refuge_depart_id", t3.refugeDepartId),
        refugeArriveeId := Get(data, "refuge_arrivee_id", t3.refugeArriveeId),
        statut := Get(data, "statut", t3.statut))
  }

  /** The update is the generic partial update applied to the body as normalised by the
      coupling rule. */
  lemma UpdateIsOverlay(t: Transfert, data: Data)
    ensures TransfertColumns(TransfertUpdated(t, data)) == Overlay(TransfertColumns(t), NormalisedUpdate(data))
  {
  }

  lemma UpdateIdempotent(t: Transfert, data: Data)
    ensures TransfertUpdated(TransfertUpdated(t, data), data) == TransfertUpdated(t, data)
  {
  }

  lemma UpdateEmpty(t: Transfert)
    ensures TransfertUpdated(t, map[]) == t
  {
  }

  /** An update that sends a non-null `chien_id` always leaves the reference consistent; one
      that touches none of the three reference keys keeps a consistent transfer consistent. */
  lemma UpdateLegacyConsistent(t: Transfert, data: Data)
    ensures "chien_id" in data && data["chien_id"] != Null ==> LegacyConsistent(TransfertUpdated(t, data))
    ensures LegacyConsistent(t) && "animal_type" !in data && "animal_id" !in data && "chien_id" !in data ==>
      LegacyConsistent(TransfertUpdated(t, data))
  {
  }

  /** Exactly when a PUT leaves the reference consistent: either it sends a non-null
      `chien_id`, or the pair and `chien_id` the transfer ends with (each sent or kept)
      do not name the dog tag with a non-null `chien_id` and a different `animal_id`. */
  lemma UpdateLegacyConsistentIff(t: Transfert, data: Data)
    ensures LegacyConsistent(TransfertUpdated(t, data)) <==>
      ("chien_id" in data && data["chien_id"] != Null)
      || !(Get(data, "animal_type", t.animalType) == ChienTag && Get(data, "chien_id", t.chienId) != Null
           && Get(data, "animal_id", t.animalId) != Get(data, "chien_id", t.chienId))
  {
  }

  /** A PUT keeps both shelters non-null unless it sends one of them as an explicit null. */
  lemma UpdateConformsIff(t: Transfert, data: Data)
    requires TransfertConforms(t)
    ensures TransfertConforms(TransfertUpdated(t, data)) <==>
      !("refuge_depart_id" in data && data["refuge_depart_id"] == Null)
      && !("refuge_arrivee_id" in data && data["refuge_arrivee_id"] == Null)
  {
  }

  // ---------- Deleting a dog ----------

  /** Deleting a dog through the ORM: the `Chien.transferts` relationship has no delete
      cascade, so every transfer of that dog has its `chien_id` set to null and keeps every
      other field, its animal pair included; the other transfers are untouched. This is the
      same nulling of a child's foreign key as `Resources.OrphanDogs`, on the other
      relationship of models.py. */
  function DetachTransferts(ts: Table<Transfert>, chienId: int): (u: Table<Transfert>)
    requires ts.Valid()
    ensures u.Valid() && u.rows.Keys == ts.rows.Keys && u.nextId == ts.nextId
    ensures forall k :: k in u.rows && ts.rows[k].chienId == Int(chienId) ==> u.rows[k].chienId == Null
    ensures forall k :: k in u.rows ==> u.rows[k] == ts.rows[k].(chienId := u.rows[k].chienId)
    ensures forall k :: k in u.rows && ts.rows[k].chienId != Int(chienId) ==> u.rows[k] == ts.rows[k]
  {
    Table(map k | k in ts.rows ::
            if ts.rows[k].chienId == Int(chienId) then ts.rows[k].(chienId := Null) else ts.rows[k],
          ts.nextId)
  }

  /** Detaching keeps the corrected schema, but a transfer that named the deleted dog leaves
      the schema as declared: with `chien_id` NOT NULL the delete cannot be committed. */
  lemma DetachConforms(ts: Table<Transfert>, chienId: int)
    requires ts.Valid()
    ensures forall k :: k in ts.rows && TransfertConforms(ts.rows[k]) ==> TransfertConforms(DetachTransferts(ts, chienId).rows[k])
    ensures forall k :: k in ts.rows && ts.rows[k].chienId == Int(chienId) ==>
      !TransfertConformsAsWritten(DetachTransferts(ts, chienId).rows[k])
  {
  }

  // ---------- The NOT NULL declaration of `chien_id` ----------

  /** Against the schema as declared (`chien_id` NOT NULL), a created transfer can be stored
      exactly when the body carries a non-null `chien_id`: every new-format body is refused. */
  lemma CreateConformsAsWrittenIff(data: Data, today: Date)
    requires !MissingShelter(data)
    ensures TransfertConformsAsWritten(CreateTransfert(data, today).value) <==> "chien_id" in data && data["chien_id"] != Null
  {
  }

  /** A new-format body (a 12-month cat, no `chien_id`) passes the handler's own check, yet
      the row it builds has a null `chien_id`. */
  lemma NewFormatCreateBreaksNotNull(today: Date)
    ensures var data := map["animal_type" := Str("chat12"), "animal_id" := Int(3),
                            "refuge_depart_id" := Int(1), "refuge_arrivee_id" := Int(2)];
      && CreateTransfert(data, today).Some?
      && TransfertConforms(CreateTransfert(data, today).value)
      && !TransfertConformsAsWritten(CreateTransfert(data, today).value)
  {
  }
}

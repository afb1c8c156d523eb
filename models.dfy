/** The persisted record shapes: shelters (`Refuge`), dogs (`Chien`, whose columns the
    two 12-month rosters copy) and transfers (`Transfert`); their nullability, their
    column views and the `to_dict` serialisers. A record does not hold its own id:
    the id is the key it is stored under. */
module Models {
  import opened Payload
  import opened Dates

  /** Default of the `statut` column. */
  const EnAttente := "En attente"

  datatype Refuge = Refuge(nom: Value, responsable: Value, telephone: Value, adresse: Value)

  /** A row of `chiens`, `chiens12` or `chats12`: the three tables share these columns. */
  datatype Animal = Animal(nom: Value, age: Value, race: Value, refugeId: Value)

  datatype Transfert = Transfert(
    animalType: Value,
    animalId: Value,
    chienId: Value,
    refugeDepartId: Value,
    refugeArriveeId: Value,
    dateTransfert: Option<Date>,
    statut: Value)

  /** The three disjoint animal tables, and the tag each carries in listings and in `animal_type`. */
  datatype Family = Chien | Chien12 | Chat12

  function Tag(f: Family): string
  {
    match f
    case Chien => "chien"
    case Chien12 => "chien12"
    case Chat12 => "chat12"
  }

  lemma TagInjective(f: Family, g: Family)
    ensures Tag(f) == Tag(g) ==> f == g
  {
  }

  // ---------- Nullability ----------

  /** `nom` is the only NOT NULL column of `refuges`. */
  predicate RefugeConforms(r: Refuge)
  {
    r.nom != Null
  }

  /** `nom` is the only NOT NULL column of `chiens`. */
  predicate AnimalConforms(a: Animal)
  {
    a.nom != Null
  }

  /** The `transferts` schema as the model file declares it: `chien_id`,
      `refuge_depart_id` and `refuge_arrivee_id` all NOT NULL. */
  predicate TransfertConformsAsWritten(t: Transfert)
  {
    t.chienId != Null && t.refugeDepartId != Null && t.refugeArriveeId != Null
  }

  /** The `transferts` schema the handlers need: both shelters NOT NULL, the legacy
      `chien_id` nullable, as the startup migration adds it. */
  predicate TransfertConforms(t: Transfert)
  {
    t.refugeDepartId != Null && t.refugeArriveeId != Null
  }

  /** Every row the corrected schema admits except those with a null `chien_id` is
      admitted by the schema as written, and nothing more. */
  lemma ConformsAsWrittenIff(t: Transfert)
    ensures TransfertConformsAsWritten(t) <==> TransfertConforms(t) && t.chienId != Null
  {
  }

  // ---------- Column views ----------

  function RefugeColumns(r: Refuge): (c: map<string, Value>)
    ensures c.Keys == {"nom", "responsable", "telephone", "adresse"}
  {
    map["nom" := r.nom, "responsable" := r.responsable, "telephone" := r.telephone, "adresse" := r.adresse]
  }

  function AnimalColumns(a: Animal): (c: map<string, Value>)
    ensures c.Keys == {"nom", "age", "race", "refuge_id"}
  {
    map["nom" := a.nom, "age" := a.age, "race" := a.race, "refuge_id" := a.refugeId]
  }

  /** The columns a transfer update may write (`date_transfert` is not among them). */
  function TransfertColumns(t: Transfert): (c: map<string, Value>)
    ensures c.Keys == {"animal_type", "animal_id", "chien_id", "refuge_depart_id", "refuge_arrivee_id", "statut"}
  {
    map["animal_type" := t.animalType, "animal_id" := t.animalId, "chien_id" := t.chienId,
        "refuge_depart_id" := t.refugeDepartId, "refuge_arrivee_id" := t.refugeArriveeId,
        "statut" := t.statut]
  }

  // ---------- Serialisers (`to_dict`) ----------

  /** `Refuge.to_dict`: exactly id, nom, responsable, telephone, adresse. */
  function RefugeToDict(id: int, r: Refuge): (d: map<string, Value>)
    ensures d.Keys == {"id", "nom", "responsable", "telephone", "adresse"}
    ensures d["id"] == Int(id)
    ensures forall k :: k in RefugeColumns(r) ==> d[k] == RefugeColumns(r)[k]
  {
    RefugeColumns(r)["id" := Int(id)]
  }

  /** `Chien.to_dict`: exactly id, nom, age, race, refuge_id. */
  function AnimalToDict(id: int, a: Animal): (d: map<string, Value>)
    ensures d.Keys == {"id", "nom", "age", "race", "refuge_id"}
    ensures d["id"] == Int(id)
    ensures forall k :: k in AnimalColumns(a) ==> d[k] == AnimalColumns(a)[k]
  {
    AnimalColumns(a)["id" := Int(id)]
  }

  /** `date_transfert.isoformat() if date_transfert else None`. */
  function DateValue(d: Option<Date>): (v: Value)
    ensures d.None? <==> v == Null
  {
    match d
    case None => Null
    case Some(day) => Str(IsoFormat(day))
  }

  /** `Transfert.to_dict`: exactly id, chien_id, the two shelters, the ISO date and statut;
      the animal reference pair is not serialised. */
  function TransfertToDict(id: int, t: Transfert): (d: map<string, Value>)
    ensures d.Keys == {"id", "chien_id", "refuge_depart_id", "refuge_arrivee_id", "date_transfert", "statut"}
    ensures "animal_type" !in d && "animal_id" !in d
    ensures d["id"] == Int(id) && d["chien_id"] == t.chienId && d["statut"] == t.statut
    ensures d["refuge_depart_id"] == t.refugeDepartId && d["refuge_arrivee_id"] == t.refugeArriveeId
    ensures t.dateTransfert.None? ==> d["date_transfert"] == Null
    ensures t.dateTransfert.Some? ==> d["date_transfert"] == Str(IsoFormat(t.dateTransfert.value))
  {
    map["id" := Int(id), "chien_id" := t.chienId,
        "refuge_depart_id" := t.refugeDepartId, "refuge_arrivee_id" := t.refugeArriveeId,
        "date_transfert" := DateValue(t.dateTransfert), "statut" := t.statut]
  }

  // ---------- Reading a serialised record back ----------

  function RefugeFromDict(d: map<string, Value>): Option<(int, Refuge)>
  {
    if d.Keys == {"id", "nom", "responsable", "telephone", "adresse"} && d["id"].Int? then
      Some((d["id"].i, Refuge(d["nom"], d["responsable"], d["telephone"], d["adresse"])))
    else None
  }

  function AnimalFromDict(d: map<string, Value>): Option<(int, Animal)>
  {
    if d.Keys == {"id", "nom", "age", "race", "refuge_id"} && d["id"].Int? then
      Some((d["id"].i, Animal(d["nom"], d["age"], d["race"], d["refuge_id"])))
    else None
  }

  function DateFromValue(v: Value): Option<Option<Date>>
  {
    match v
    case Null => Some(None)
    case Str(s) => (match ParseIso(s) case Some(day) => Some(Some(day)) case None => None)
    case _ => None
  }

  /** Reads a serialised transfer back; the animal pair, which is not serialised, reads as null. */
  function TransfertFromDict(d: map<string, Value>): Option<(int, Transfert)>
  {
    if d.Keys == {"id", "chien_id", "refuge_depart_id", "refuge_arrivee_id", "date_transfert", "statut"}
       && d["id"].Int? && DateFromValue(d["date_transfert"]).Some?
    then
      Some((d["id"].i, Transfert(Null, Null, d["chien_id"], d["refuge_depart_id"], d["refuge_arrivee_id"],
                                 DateFromValue(d["date_transfert"]).value, d["statut"])))
    else None
  }

  /** Nothing stored in a shelter row is lost by its serialisation. */
  lemma RefugeDictRoundTrip(id: int, r: Refuge)
    ensures RefugeFromDict(RefugeToDict(id, r)) == Some((id, r))
  {
  }

  /** Nothing stored in an animal row is lost by its serialisation. */
  lemma AnimalDictRoundTrip(id: int, a: Animal)
    ensures AnimalFromDict(AnimalToDict(id, a)) == Some((id, a))
  {
  }

  /** A transfer's serialisation keeps every field except the animal reference pair. */
  lemma TransfertDictRoundTrip(id: int, t: Transfert)
    ensures TransfertFromDict(TransfertToDict(id, t)) == Some((id, t.(animalType := Null, animalId := Null)))
  {
    var d := TransfertToDict(id, t);
    if t.dateTransfert.Some? {
      IsoRoundTrip(t.dateTransfert.value);
    }
    assert DateFromValue(d["date_transfert"]) == Some(t.dateTransfert);
  }

  /** Two transfers that differ only in their animal reference serialise identically. */
  lemma TransfertDictIgnoresAnimal(id: int, t: Transfert, animalType: Value, animalId: Value)
    ensures TransfertToDict(id, t) == TransfertToDict(id, t.(animalType := animalType, animalId := animalId))
  {
  }
}

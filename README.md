# SPA transfers backend — a Dafny model

The SPA transfers backend is a small Flask/SQLAlchemy service. Its tables are:

- shelters (`refuges`);
- dogs (`chiens`);
- 12-month dogs (`chiens12`);
- 12-month cats (`chats12`);
- transfers of an animal from one shelter to another (`transferts`).

This project models the service's database as in-memory tables. The handlers are
methods of a `Store` class. Each method changes its own table. A delete also changes
the table that has an ORM relationship to the deleted row's table (models.py:14, 35):
the ORM sets the foreign key of the rows that referred to it to null. The pure logic
behind the handlers is written as functions with lemmas. That logic covers:

- the legacy `chien_id` compatibility rules for creating and updating a transfer;
- the required shelters check;
- the partial-update meaning of `data.get(key, old)`;
- the combined animal listing;
- the startup migration that adds `animal_type`, `animal_id` and `chien_id` to
  `transferts`;
- the record shapes and their `to_dict` serialisers.

Modules, one per file:

- `Payload` (payload.dfy) — decoded JSON bodies (`map<string, Value>`), Python
  truthiness, `dict.get`. `Overlay` is the reference meaning of a partial update.
- `Dates` (dates.dfy) — calendar dates, `date.isoformat()` and its inverse.
- `Models` (models.dfy) — the `Refuge`, `Chien` and `Transfert` records, nullability,
  column views, the `to_dict` serialisers and their inverses.
- `Tables`, `Listings` (tables.dfy) — an autoincrement table, and listing its rows in
  ascending id order.
- `Migration` (migration.dfy) — the columns the startup procedure adds, the ALTER
  statements it issues, and what executing them does to the schema.
- `Resources` (resources.dfy) — the records that shelter and animal POST/PUT build, and
  `/api/animaux`.
- `Transfers` (transfers.dfy) — the record that transfer POST/PUT build.
- `App` (app.dfy) — the `Store` class with one method per handler, and the responses.

The two source files are not from the same revision, and the model follows what the
handlers do:

- The handlers write `animal_type`/`animal_id` (app.py:277-278, 295-305), but
  `Transfert.to_dict` (models.py:57-65) does not serialise them. The model keeps the
  serialiser as written, so the transfer listing does not return the animal pair.
- The handlers keep `chien_id` and the animal pair in step only in some cases. When a
  dog transfer's `chien_id` and `animal_id` agree after a create is characterised by
  `CreateLegacyConsistentIff`; after an update, by `UpdateLegacyConsistentIff`.
- models.py does not define `Chien12Mois` or `Chat12Mois`, which the handlers import.
  The model gives both rosters the columns of `Chien`, the only ones the handlers read
  or write.
- models.py's `Transfert` has no `animal_type`/`animal_id` columns, yet the handlers
  write them. The model's `Transfert` has them, as the startup migration adds them.

## Model

| member | source | states |
|---|---|---|
| Payload.Overlay | app.py:103-106 | a column whose key the body carries takes the body's value, null included; every other column keeps its value; no column is added |
| Payload.OverlayIdempotent | app.py:103-106 | sending the same partial update twice equals sending it once |
| Payload.OverlayEmpty | app.py:103-106 | an empty body changes no column |
| Payload.OverlayChanges | app.py:103-106 | a column changes only if the body carries its key with a different value |
| Dates.IsoFormat | models.py:63 | the ISO date is 10 characters: digits, with '-' at positions 4 and 7 |
| Dates.IsoRoundTrip | models.py:63 | parsing the ISO string of a date gives the date back |
| Dates.IsoFormatInjective | models.py:63 | distinct dates serialise to distinct strings |
| Models.TagInjective | app.py:242-244 | the three listing tags "chien", "chien12", "chat12" are distinct |
| Models.ConformsAsWrittenIff | models.py:51-53 | the declared schema (NOT NULL `chien_id`) admits exactly the rows of the corrected schema whose `chien_id` is non-null |
| Models.RefugeToDict | models.py:16-23 | exactly the keys id, nom, responsable, telephone, adresse, each holding the stored value |
| Models.AnimalToDict | models.py:37-44 | exactly the keys id, nom, age, race, refuge_id, each holding the stored value |
| Models.DateValue | models.py:63 | an unset date serialises to null and only an unset date does |
| Models.TransfertToDict | models.py:57-65 | exactly id, chien_id, both shelters, date_transfert (its ISO string, or null when unset) and statut; no animal_type/animal_id |
| Models.RefugeDictRoundTrip | models.py:16-23 | reading a serialised shelter back gives its id and every column |
| Models.AnimalDictRoundTrip | models.py:37-44 | reading a serialised animal back gives its id and every column |
| Models.TransfertDictRoundTrip | models.py:57-65 | reading a serialised transfer back gives every field except the animal pair, which reads as null |
| Models.TransfertDictIgnoresAnimal | models.py:57-65 | transfers that differ only in animal_type/animal_id serialise identically |
| Tables.Table.Insert | app.py:94-95 | the new row gets a fresh id from the counter; every other row is unchanged; the table stays valid |
| Tables.Table.Replace | app.py:107 | only the row with that id changes; the ids and the counter stay the same |
| Tables.Table.Remove | app.py:113-115 | exactly that id is removed; the other rows and the counter are unchanged |
| Tables.RemovedIdNotReused | models.py:8 | an insert after a delete never hands out the deleted id |
| Listings.ListedIds | app.py:84 | `query.all()` lists every stored id exactly once, strictly ascending |
| Listings.Listing | app.py:84-85 | the listing has one entry per row; entry i is the serialisation of the i-th listed row |
| Listings.ListingMembers | app.py:84-85 | an entry is in the listing iff it serialises some stored row |
| Migration.Missing | app.py:47-54 | the columns to add are the required columns the table lacks, each once, with their SQL types; empty iff all three exist |
| Migration.AltersFor | app.py:61-70 | one ALTER per missing column, in order; IF NOT EXISTS exactly on PostgreSQL |
| Migration.Execute | app.py:65-70 | a plain ADD COLUMN of an existing column fails; otherwise the column set gains the column |
| Migration.Migrated | app.py:41-45 | a missing table stays missing |
| Migration.ReplayAbsentColumns | app.py:61-70 | adding distinct absent columns one at a time never fails, on either dialect, and adds exactly those names |
| Migration.PlanReachesMigrated | app.py:47-70 | the issued statements all succeed; afterwards the three columns exist, every earlier column remains, and nothing else is added |
| Migration.AbsentTableUntouched | app.py:41-45 | with no `transferts` table no statement is issued and nothing changes |
| Migration.MigrationIdempotent | app.py:56-57 | a second run issues no statement and leaves the schema as it is |
| Migration.PlanAddsOnlyMissing | app.py:47-70 | every statement names a required column that the table did not have |
| Resources.NewRefuge | app.py:87-93 | each column of a new shelter is the body's value, or null when the key is absent |
| Resources.RefugeUpdated | app.py:103-106 | the shelter after PUT is the overlay of the body on its columns |
| Resources.RefugeUpdateIdempotent | app.py:103-106 | repeating a shelter PUT changes nothing more |
| Resources.RefugeUpdateEmpty | app.py:103-106 | a PUT with `{}` leaves the shelter unchanged |
| Resources.NewRefugeConformsIff | app.py:88-89 | a new shelter satisfies `nom` NOT NULL iff the body sends a non-null "nom" |
| Resources.RefugeUpdateConformsIff | app.py:103 | a PUT keeps `nom` non-null unless it sends `"nom": null` |
| Resources.NewAnimal | app.py:128-132 | each column of a new dog, 12-month dog or 12-month cat is the body's value, or null when absent |
| Resources.AnimalUpdated | app.py:143-146 | the animal after PUT is the overlay of the body on its columns |
| Resources.AnimalUpdateIdempotent | app.py:143-146 | repeating an animal PUT changes nothing more |
| Resources.AnimalUpdateEmpty | app.py:143-146 | a PUT with `{}` leaves the animal unchanged |
| Resources.NewAnimalConformsIff | app.py:168-172 | a new animal has a non-null `nom` iff the body sends a non-null "nom" |
| Resources.OrphanDogs | models.py:14 | deleting a shelter through the ORM nulls the refuge_id of exactly the dogs it held; every other column and every other dog is unchanged |
| Resources.AnimalEntry | app.py:242-244 | an `/api/animaux` entry has exactly id, nom and the table's tag |
| Resources.AnimalEntryIdentifies | app.py:242-244 | equal entries come from the same table and the same id |
| Resources.Entries | app.py:242-244 | one entry per row of the table, in ascending id order; entry i holds the id and `nom` of the i-th listed row, tagged with that table |
| Resources.Animaux | app.py:241-245 | all dogs, then all 12-month dogs, then all 12-month cats, each tagged by its table |
| Resources.AnimauxMembers | app.py:242-245 | an entry is listed iff one of the three tables holds that row |
| Transfers.CreateTransfert | app.py:260-284 | None (the 400) iff a shelter id is falsy, 0 included; otherwise both shelters come from the body; `chien_id` is stored verbatim; the date is today; statut is the body's non-null value, else the column default "En attente" (models.py:55), which the ORM applies to a None as well |
| Transfers.CreateLegacyInference | app.py:264-270 | a falsy animal_type with a truthy chien_id stores ("chien", chien_id); otherwise the body's pair is stored unchanged |
| Transfers.CreateLegacyConsistentIff | app.py:264-279 | a created transfer breaks chien_id/animal_id agreement iff the body itself sends "chien", a non-null chien_id and a different animal_id |
| Transfers.CreateReadsOnlyKnownKeys | app.py:262-284 | a create reads only its six keys; the date never comes from the body |
| Transfers.TransfertUpdated | app.py:295-309 | the coupling rule: a present non-null chien_id forces ("chien", chien_id) over the same body's pair; a present null chien_id clears it and keeps the pair as the body set it; absent keys keep fields; the date is never touched |
| Transfers.UpdateIsOverlay | app.py:295-309 | a transfer PUT is the generic partial update applied to the body normalised by the coupling rule |
| Transfers.UpdateIdempotent | app.py:295-309 | repeating a transfer PUT changes nothing more |
| Transfers.UpdateEmpty | app.py:295-309 | a PUT with `{}` leaves the transfer unchanged |
| Transfers.UpdateLegacyConsistent | app.py:301-305 | two sufficient conditions: a PUT with a non-null chien_id leaves the reference consistent; one without reference keys preserves consistency |
| Transfers.UpdateLegacyConsistentIff | app.py:295-305 | a PUT leaves chien_id/animal_id consistent iff it sends a non-null chien_id, or the resulting pair and chien_id (each sent or kept) do not name "chien" with a non-null chien_id and a different animal_id |
| Transfers.UpdateConformsIff | app.py:307-308 | a PUT keeps both shelters non-null unless it sends one of them as null |
| Transfers.DetachTransferts | models.py:35 | deleting a dog through the ORM nulls the chien_id of exactly the transfers that named it; every other field and every other transfer is unchanged |
| Transfers.DetachConforms | models.py:51 | detaching keeps the corrected schema; a detached transfer breaks the declared NOT NULL `chien_id`, so against models.py as written the dog delete cannot commit |
| Transfers.CreateConformsAsWrittenIff | models.py:51 | against the declared schema, a created transfer is storable iff the body carries a non-null chien_id |
| Transfers.NewFormatCreateBreaksNotNull | app.py:279 | a new-format body for a 12-month cat passes the 400 check yet yields a null chien_id |
| App.Store.constructor | app.py:74-75 | empty tables whose first insert gets id 1, and the given `transferts` schema |
| App.Store.EnsureTransfertsColumns | app.py:33-70 | the loop leaves the migrated schema, issues exactly the planned statements, and never names an existing column |
| App.Store.GetRefuges | app.py:83-85 | 200 with the shelter listing |
| App.Store.AddRefuge | app.py:87-96 | inserts the new shelter under a fresh id; 201 with its serialisation |
| App.Store.UpdateRefuge | app.py:99-108 | 404 with nothing changed for a missing id; otherwise only that row is replaced by its update; 200 with the new record |
| App.Store.DeleteRefuge | app.py:111-116 | 404 with nothing changed for a missing id; otherwise exactly that shelter is removed and its dogs lose their refuge_id (models.py:14) |
| App.Store.GetAnimals | app.py:120-122 | 200 with the listing of one animal table |
| App.Store.AddAnimal | app.py:125-136 | dogs: no "nom" raises with nothing stored, else "Chien ajouté"; 12-month tables (app.py:165-176, 205-216) answer with the new id |
| App.Store.UpdateAnimal | app.py:139-148 | 404 with nothing changed for a missing id; otherwise only that row of that table changes (also app.py:179-188, 219-228) |
| App.Store.DeleteAnimal | app.py:151-156 | 404 with nothing changed for a missing id; otherwise exactly that row of that table is removed, and deleting a dog nulls its transfers' chien_id (models.py:35); 12-month tables as at app.py:191-196, 231-236 |
| App.Store.GetAnimaux | app.py:240-245 | 200 with the combined listing |
| App.Store.GetTransferts | app.py:249-253 | 200 with the transfer listing |
| App.Store.AddTransfert | app.py:260-287 | the 400 body with the table unchanged when a shelter is falsy; otherwise inserts the created transfer; 201 |
| App.Store.UpdateTransfert | app.py:290-312 | 404 with nothing changed for a missing id; otherwise only that row is replaced by its update |
| App.Store.DeleteTransfert | app.py:315-320 | 404 with nothing changed for a missing id; otherwise exactly that row is removed |

## Left out

- HTTP routing, request decoding and `jsonify`: a handler is a method taking the decoded body. Its result is a status and a structured body, not JSON text.
- JSON floats, arrays and nested objects as field values, and non-object request bodies: `Value` holds only null, booleans, integers and strings.
- CORS configuration and reading/rewriting `DATABASE_URL`: deployment configuration.
- SQL text, the schema inspector and dialect detection: the dialect is a boolean, a schema is a set of column names, and an ALTER is a set insertion.
- Sessions, commits and transactions: each handler's change is applied at once. The database's own enforcement is not modelled (NOT NULL at commit, foreign keys). The `Conforms` predicates and lemmas say when a handler would hand it a null.
- Concurrent requests: the model is sequential.
- `date.today()`: the current date is a parameter.
- The traceback/500 path of the transfer listing: it only wraps foreign exceptions.
- The startup print and `app.run`: I/O.
- Listings.Listing: `query.all()` has no defined order in SQL. The model lists rows in ascending id order.
- Tables.Table.Insert: ids come from a counter that never moves back, as a PostgreSQL sequence does. SQLite without AUTOINCREMENT can hand out the largest id again after that row is deleted.
- App.Store.AddAnimal: the dog handler's `KeyError` for a missing "nom" is modelled as a 500 with nothing stored, the framework's response to an uncaught exception.
- App.Store.AddAnimal: the three animal tables share one method each for add, update and delete, parameterised by the table. The method keeps the differences between the handlers: the messages, the dog handler's `data["nom"]` (app.py:129), and the new id that only the 12-month handlers return (app.py:176, 216).
- App.Store.DeleteAnimal: models.py does not define the 12-month classes. The model gives them no relationships, so deleting a 12-month animal changes only its own table.
- App.Store.DeleteRefuge: `Refuge` has no relationship to `Transfert`. A deleted shelter's transfers keep its id; whether the database then refuses the delete (foreign-key enforcement) is not modelled.
- Column types: a value is stored as the body sent it. The database's coercion (for instance of "1" into an INTEGER column) is not modelled. A delete's foreign-key nulling therefore matches only rows that hold the id as an integer.

## Findings

| source | as written | input that shows it | evidently intended | confidence | as-written member | corrected member |
|---|---|---|---|---|---|---|
| models.py:51 | `chien_id` is declared NOT NULL, but the create handler (app.py:279) stores `data.get("chien_id")`, which is None for every new-format body | `{"animal_type": "chat12", "animal_id": 3, "refuge_depart_id": 1, "refuge_arrivee_id": 2}` passes the 400 check, and the row it builds has a null `chien_id` | `chien_id` is a nullable legacy column, as the startup migration adds it (app.py:53-54); the corrected schema `Models.TransfertConforms` requires only the two shelters | not executed | Transfers.NewFormatCreateBreaksNotNull | Transfers.CreateTransfert |

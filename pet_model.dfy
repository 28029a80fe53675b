/**
 * The pet model: `findOne` with its avatar rewrite, `createPet` and
 * `updatePet` with their avatar strip and id coercion, and the two deletes.
 * The datastore is a parameter: a lookup by the id as given, or the outcome of a delete.
 */
module PetModel {
  import opened Wrappers
  import opened JsString
  import opened JsNumber
  import opened JsValues
  import opened Avatar
  import opened Records

  /** `findOne(id)`: the pet with its avatar served, or `{}` when there is none. */
  function FindOne(apiBack: string, id: Value, lookup: Value -> Option<Pet>): (r: Projection<Pet>)
    ensures r.Empty? <==> lookup(id).None?
    ensures r.Record? ==> r.value.(avatarUrl := lookup(id).value.avatarUrl) == lookup(id).value
    ensures r.Record? ==> r.value.avatarUrl == Absolutize(apiBack, lookup(id).value.avatarUrl)
  {
    match lookup(id)
    case None => Empty
    case Some(pet) => Record(ServedPet(apiBack, pet))
  }

  /** The data `createPet` hands to the datastore. */
  datatype PetCreate = PetCreate(ownerId: Value, name: Value, breedId: Value, animalCategoryId: Value, avatarUrl: Value)

  /** `createPet({ ownerId, avatarUrl, name, breedId, animalCategoryId })`. */
  function CreatePet(apiBack: string, body: Object): (r: PetCreate)
    ensures r.ownerId == Get(body, "ownerId") && r.name == Get(body, "name")
    ensures r.breedId == Get(body, "breedId") && r.animalCategoryId == Get(body, "animalCategoryId")
    ensures Get(body, "avatarUrl").Str? ==>
      r.avatarUrl == Str(RemoveFirst(Get(body, "avatarUrl").s, apiBack + "/"))
    ensures !Get(body, "avatarUrl").Str? ==> r.avatarUrl == Get(body, "avatarUrl")
  {
    PetCreate(
      Get(body, "ownerId"),
      Get(body, "name"),
      Get(body, "breedId"),
      Get(body, "animalCategoryId"),
      Relativize(apiBack, Get(body, "avatarUrl")))
  }

  /**
   * A pet created with `apiBack + "/" + path`, the URL served for a stored
   * relative `path`, and stored as `createPet` says, is served that same URL
   * by `findOne`.
   */
  lemma CreateThenFindServesSameAvatar(apiBack: string, body: Object, path: string, id: Value, lookup: Value -> Option<Pet>)
    requires IsRelativePath(path)
    requires Get(body, "avatarUrl") == Str(apiBack + "/" + path)
    requires lookup(id).Some? && lookup(id).value.avatarUrl == Some(CreatePet(apiBack, body).avatarUrl.s)
    ensures FindOne(apiBack, id, lookup).value.avatarUrl == Some(apiBack + "/" + path)
  {
    StripInvertsPrefix(apiBack, path);
  }

  /** The arguments `updatePet` hands to the datastore. */
  datatype PetUpdate = PetUpdate(
    whereId: ParsedNumber,
    name: Value,
    breedId: ParsedNumber,
    animalCategoryId: ParsedNumber,
    avatarUrl: Value)

  /** `updatePet(id, { name, breedId, animalCategoryId, avatarUrl })`. */
  function UpdatePet(apiBack: string, id: Value, body: Object): (r: PetUpdate)
    ensures r.whereId == ParseIntOf(id) && r.name == Get(body, "name")
    ensures r.breedId == ParseIntOf(Get(body, "breedId"))
    ensures r.animalCategoryId == ParseIntOf(Get(body, "animalCategoryId"))
    ensures Get(body, "avatarUrl").Str? ==>
      r.avatarUrl == Str(RemoveFirst(Get(body, "avatarUrl").s, apiBack + "/"))
    ensures !Get(body, "avatarUrl").Str? ==> r.avatarUrl == Get(body, "avatarUrl")
  {
    PetUpdate(
      ParseIntOf(id),
      Get(body, "name"),
      ParseIntOf(Get(body, "breedId")),
      ParseIntOf(Get(body, "animalCategoryId")),
      Relativize(apiBack, Get(body, "avatarUrl")))
  }

  /** Ids given as strings of decimal digits reach the datastore as their decimal values. */
  lemma UpdatePetDecimalIds(apiBack: string, id: string, body: Object, breed: string, category: string)
    requires |id| > 0 && AllDigits(id)
    requires |breed| > 0 && AllDigits(breed) && Get(body, "breedId") == Str(breed)
    requires |category| > 0 && AllDigits(category) && Get(body, "animalCategoryId") == Str(category)
    ensures UpdatePet(apiBack, Str(id), body).whereId == Int(DecimalValue(id))
    ensures UpdatePet(apiBack, Str(id), body).breedId == Int(DecimalValue(breed))
    ensures UpdatePet(apiBack, Str(id), body).animalCategoryId == Int(DecimalValue(category))
  {
    ParseIntOfDigits(id);
    ParseIntOfDigits(breed);
    ParseIntOfDigits(category);
  }

  /** A body without `breedId` or `animalCategoryId` sends `NaN` for the missing one. */
  lemma UpdatePetMissingIdsAreNaN(apiBack: string, id: Value, body: Object)
    ensures "breedId" !in body ==> UpdatePet(apiBack, id, body).breedId == NaN
    ensures "animalCategoryId" !in body ==> UpdatePet(apiBack, id, body).animalCategoryId == NaN
  {
    ParseIntOfNonNumeric(Undefined);
  }

  /** `destroyFavorite(id)`: delete the favorite-food link by `parseInt(id, 10)`, reporting only success. */
  function DestroyFavorite(id: Value, delete: ParsedNumber -> DeleteOutcome): (deleted: bool)
    ensures deleted <==> delete(ParseIntOf(id)) == Deleted
  {
    Collapse(delete(ParseIntOf(id)))
  }

  /** `destroy(id)`: delete the animal by `parseInt(id, 10)`, reporting only success. */
  function Destroy(id: Value, delete: ParsedNumber -> DeleteOutcome): (deleted: bool)
    ensures deleted <==> delete(ParseIntOf(id)) == Deleted
  {
    Collapse(delete(ParseIntOf(id)))
  }

  /** A missing row and any other failure give the same answer, so a caller cannot tell them apart. */
  lemma DestroyCannotTellNotFound(id: Value, delete1: ParsedNumber -> DeleteOutcome, delete2: ParsedNumber -> DeleteOutcome, e: DbError)
    requires delete1(ParseIntOf(id)) == Failed(RecordNotFound)
    requires delete2(ParseIntOf(id)) == Failed(e)
    ensures Destroy(id, delete1) == Destroy(id, delete2) == false
    ensures DestroyFavorite(id, delete1) == DestroyFavorite(id, delete2) == false
  {
  }
}

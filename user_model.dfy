/**
 * The user model: the pet-avatar rewrite of `findOne`, the avatar strip of
 * `update`, the password-free projection `getSafeAttributes`, and `destroy`.
 * The datastore is a parameter: a lookup by parsed id, or the outcome of a delete.
 */
module UserModel {
  import opened Wrappers
  import opened JsString
  import opened JsNumber
  import opened JsValues
  import opened Avatar
  import opened Records

  datatype Argon2Type = Argon2d | Argon2i | Argon2id

  /** The fixed parameters every hash and every verification uses. */
  datatype HashingOptions = HashingOptions(memoryCost: nat, timeCost: nat, kind: Argon2Type)

  const HASHING_OPTIONS := HashingOptions(65536, 5, Argon2id)

  /** The per-pet map of `findOne`: same pets, same order, each with its avatar served. */
  function ServedAnimals(apiBack: string, pets: seq<Pet>): (served: seq<Pet>)
    ensures |served| == |pets|
    ensures forall i :: 0 <= i < |pets| ==> served[i].(avatarUrl := pets[i].avatarUrl) == pets[i]
    ensures forall i :: 0 <= i < |pets| ==> served[i].avatarUrl == Absolutize(apiBack, pets[i].avatarUrl)
  {
    if pets == [] then [] else [ServedPet(apiBack, pets[0])] + ServedAnimals(apiBack, pets[1..])
  }

  /**
   * What `findOne` returns: `{ ...curUser, Animals: updatedAnimals }`, which for
   * a missing user is the object `{ Animals: undefined }`.
   */
  datatype FoundUser = AnimalsUndefined | Found(user: User)

  /** The `Animals` property of what `findOne` returns. */
  function AnimalsOf(found: FoundUser): Option<seq<Pet>> {
    match found
    case AnimalsUndefined => None
    case Found(u) => u.animals
  }

  /** `findOne(id)`: look the user up by `parseInt(id, 10)` and serve each pet's avatar. */
  function FindOne(apiBack: string, id: Value, lookup: ParsedNumber -> Option<User>): (r: FoundUser)
    ensures r.AnimalsUndefined? <==> lookup(ParseIntOf(id)).None?
    ensures r.Found? ==> r.user.(animals := lookup(ParseIntOf(id)).value.animals) == lookup(ParseIntOf(id)).value
    ensures AnimalsOf(r).None? <==> lookup(ParseIntOf(id)).None? || lookup(ParseIntOf(id)).value.animals.None?
    ensures AnimalsOf(r).Some? ==> AnimalsOf(r).value == ServedAnimals(apiBack, lookup(ParseIntOf(id)).value.animals.value)
  {
    match lookup(ParseIntOf(id))
    case None => AnimalsUndefined
    case Some(u) =>
      var animals := match u.animals
        case Some(pets) => Some(ServedAnimals(apiBack, pets))
        case None => None;
      Found(u.(animals := animals))
  }

  /** With an absolute base URL, every pet `findOne` returns has a missing, empty or absolute avatar. */
  lemma FindOneServesAbsoluteAvatars(apiBack: string, id: Value, lookup: ParsedNumber -> Option<User>)
    requires IsAbsolute(apiBack)
    ensures var animals := AnimalsOf(FindOne(apiBack, id, lookup));
      animals.Some? ==> forall i :: 0 <= i < |animals.value| ==>
        animals.value[i].avatarUrl.None? || animals.value[i].avatarUrl.value == ""
        || IsAbsolute(animals.value[i].avatarUrl.value)
  {
    var animals := AnimalsOf(FindOne(apiBack, id, lookup));
    if animals.Some? {
      var stored := lookup(ParseIntOf(id)).value.animals.value;
      forall i | 0 <= i < |animals.value|
        ensures animals.value[i].avatarUrl.None? || animals.value[i].avatarUrl.value == ""
          || IsAbsolute(animals.value[i].avatarUrl.value)
      {
        ServedIsAbsolute(apiBack, stored[i].avatarUrl);
      }
    }
  }

  /** The arguments `update` hands to the datastore. */
  datatype UserUpdate = UserUpdate(whereId: ParsedNumber, data: Object)

  /** `update(id, data)`: every given field, with a string `avatarUrl` stripped of the base. */
  function Update(apiBack: string, id: Value, data: Object): (r: UserUpdate)
    ensures r.whereId == ParseIntOf(id)
    ensures r.data.Keys == data.Keys + {"avatarUrl"}
    ensures forall k :: k in data && k != "avatarUrl" ==> r.data[k] == data[k]
    ensures Get(data, "avatarUrl").Str? ==>
      r.data["avatarUrl"] == Str(RemoveFirst(Get(data, "avatarUrl").s, apiBack + "/"))
    ensures !Get(data, "avatarUrl").Str? ==> r.data["avatarUrl"] == Get(data, "avatarUrl")
  {
    UserUpdate(ParseIntOf(id), data["avatarUrl" := Relativize(apiBack, Get(data, "avatarUrl"))])
  }

  /** An avatar the user was served, sent back through `update`, is stored as the relative path again. */
  lemma UpdateStoresServedAvatarRelative(apiBack: string, id: Value, data: Object, path: string)
    requires IsRelativePath(path)
    requires Get(data, "avatarUrl") == Str(Absolutize(apiBack, Some(path)).value)
    ensures Update(apiBack, id, data).data["avatarUrl"] == Str(path)
  {
    StripInvertsPrefix(apiBack, path);
  }

  /** `getSafeAttributes(user)`: no password hash, avatar served, everything else as given. */
  function GetSafeAttributes(apiBack: string, user: Option<User>): (r: Projection<User>)
    ensures r.Empty? <==> user.None?
    ensures r.Record? ==> r.value.hashedPassword.None?
    ensures r.Record? ==> r.value.avatarUrl == Absolutize(apiBack, user.value.avatarUrl)
    ensures r.Record? ==>
      r.value.(hashedPassword := user.value.hashedPassword, avatarUrl := user.value.avatarUrl) == user.value
  {
    match user
    case None => Empty
    case Some(u) => Record(u.(avatarUrl := Absolutize(apiBack, u.avatarUrl), hashedPassword := None))
  }

  /** `destroy(id)`: delete by `parseInt(id, 10)`, reporting only success. */
  function Destroy(id: Value, delete: ParsedNumber -> DeleteOutcome): (deleted: bool)
    ensures deleted <==> delete(ParseIntOf(id)) == Deleted
  {
    Collapse(delete(ParseIntOf(id)))
  }
}

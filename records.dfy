/**
 * The rows the datastore hands back, as far as the models look at them, the
 * outcome of a delete, and the per-pet avatar rewrite shared by both models.
 */
module Records {
  import opened Wrappers
  import opened Avatar

  /** A row of the breed or the animal-category lookup table. */
  datatype Taxon = Taxon(id: int, name: string)

  /** A food a user has rated, with the included food row. */
  datatype Rating = Rating(id: int, foodId: int, foods: Option<Taxon>)

  /** An animal row, with its included breed and category rows when they were asked for. */
  datatype Pet = Pet(
    id: int,
    ownerId: int,
    name: string,
    breedId: Option<int>,
    animalCategoryId: Option<int>,
    avatarUrl: Option<string>,
    breeds: Option<Taxon>,
    animalCategories: Option<Taxon>)

  /** A user row, with its included pets and ratings when they were asked for. */
  datatype User = User(
    id: int,
    firstname: string,
    lastname: string,
    email: string,
    phone: Option<string>,
    hashedPassword: Option<string>,
    role: string,
    registeredAt: int,
    avatarUrl: Option<string>,
    googleId: Option<string>,
    facebookId: Option<string>,
    confirmedEmailToken: Option<string>,
    animals: Option<seq<Pet>>,
    rating: Option<seq<Rating>>)

  /** A projection that is either the empty object `{}` or a record. */
  datatype Projection<T> = Empty | Record(value: T)

  /** Why the datastore refused an operation. */
  datatype DbError = RecordNotFound | ConstraintViolation | ConnectionFailure | OtherError(message: string)

  /** What a delete against the datastore did. */
  datatype DeleteOutcome = Deleted | Failed(error: DbError)

  /** `.then(() => true).catch(() => false)`: a delete reports only whether it succeeded. */
  function Collapse(outcome: DeleteOutcome): (deleted: bool)
    ensures deleted <==> outcome == Deleted
  {
    match outcome
    case Deleted => true
    case Failed(_) => false
  }

  /** Every failure, a missing row as much as a lost connection, reports the same `false`. */
  lemma CollapseHidesCause(e1: DbError, e2: DbError)
    ensures Collapse(Failed(e1)) == Collapse(Failed(e2)) == false
  {
  }

  /** `{ ...pet, avatarUrl }` with the read-side rewrite: only the avatar changes. */
  function ServedPet(apiBack: string, pet: Pet): (served: Pet)
    ensures served.(avatarUrl := pet.avatarUrl) == pet
    ensures served.avatarUrl == Absolutize(apiBack, pet.avatarUrl)
  {
    pet.(avatarUrl := Absolutize(apiBack, pet.avatarUrl))
  }
}

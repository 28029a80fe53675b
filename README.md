# Avatar-URL convention of the pet-owner API models

This project models the logic in the two data-access modules of a pet-owner
web API, `models/user.js` and `models/pet.js`. Everything else in those
modules is a call into an ORM, a password-hashing library or a
schema-validation library. User `create` makes two of them: it hashes the
password, then stores the hash in place of the password.

The logic that remains is the **avatar-URL convention**. Avatar paths are stored relative to the
backend's base URL `API_BACK` (here the parameter `apiBack`) and handed out as
absolute URLs:

- **Read side** (`Avatar.Absolutize`). A stored avatar that is a non-empty string not
  starting with `http://` or `https://` is served as `apiBack + "/" + path`. Anything else is
  served as stored. Pet `findOne`, user `findOne` (for each of the user's pets) and
  `getSafeAttributes` all apply it.
- **Write side** (`Avatar.Relativize`). A string has the first occurrence of
  `apiBack + "/"` removed, wherever that occurrence is (`String.prototype.replace`
  with a string pattern). Any other value is stored as given. User `update`,
  `createPet` and `updatePet` apply it.

Around it the model covers the record projections and the id coercion:

- `getSafeAttributes` blanks the password hash. A missing user becomes `{}`.
- User `findOne` maps the per-pet rewrite over the user's pets. A missing user
  becomes `{ Animals: undefined }`.
- User `findOne` and `update`, `updatePet` and the `destroy` functions coerce ids with ECMAScript
  `parseInt(x, 10)` (section 19.2.5 of ECMA-262).
- The `destroy` functions collapse a delete into `true` or `false`.

The datastore is a parameter everywhere. A lookup is a function from the
(possibly parsed) id to an optional row. A delete is a function from the parsed
id to a `DeleteOutcome`. Create and update are modelled as the arguments they
hand to the datastore.

Modules, in dependency order:
`Wrappers` (Option), `JsString` (`startsWith`, `indexOf`, `replace`),
`JsNumber` (`parseInt`, integer `toString`), `JsValues` (JavaScript values,
`ToString`, property reads), `Avatar` (the convention), `Records` (rows, delete
outcomes, the per-pet rewrite), `UserModel`, `PetModel`.

Points of the code worth knowing:

- The write side is not an anchored prefix strip. `replace` removes the
  first occurrence of `apiBack + "/"` anywhere in the string.
  `Avatar.StripMatchesPrefixStripIff` says exactly when this agrees with
  stripping a leading `apiBack + "/"`: when the string starts with it or does
  not contain it. For example, an absolute URL on another host that contains
  `apiBack + "/"` in its query has that part cut out.
- With an `apiBack` that starts with `http://` or `https://`, every served
  avatar is missing, empty or absolute (`Avatar.ServedIsAbsolute`).
- User `findOne` rewrites only the pets' avatars. The user's own `avatarUrl`
  and `hashedPassword` come back as stored.
- Pet `findOne` passes the id to the lookup as given, without `parseInt`.

## Model

| member | source | states |
|---|---|---|
| `JsString.IndexOfFrom` | models/user.js:138 | the result is an index at or after `from` where the pattern occurs, with no occurrence between `from` and it; no result means no occurrence at or after `from` |
| `JsString.IndexOf` | models/user.js:138 | a result is the first occurrence of the pattern; no result means the pattern occurs nowhere |
| `JsString.RemoveFirst` | models/user.js:138 | `s.replace(pat, '')`: unchanged when `pat` does not occur; otherwise `pat` is cut out at its first occurrence |
| `JsString.RemoveFirstLeading` | models/pet.js:64 | a pattern at the start of a string is the occurrence removed, leaving the rest |
| `JsString.RemoveFirstShortens` | models/pet.js:82 | when the pattern occurs anywhere, the result is shorter by exactly its length |
| `JsNumber.TrimStart` | models/pet.js:75 | the result is a suffix of the input; everything dropped is ECMAScript white space or a line terminator; the result does not start with one |
| `JsNumber.DigitRun` | models/pet.js:78 | the length of the longest prefix of decimal digits: all of it digits, and the next character, if any, is not one |
| `JsNumber.NatDigits` | models/pet.js:79 | the decimal form of a natural number is a non-empty digit string without leading zeros whose decimal value is that number |
| `JsNumber.TrimStartSkipsWhite` | models/pet.js:75 | leading white space is skipped completely, and nothing after it |
| `JsNumber.DigitRunOf` | models/pet.js:78 | the digit run of digits followed by a non-digit is exactly those digits |
| `JsNumber.ParseDigitsOf` | models/pet.js:78 | the digits before the first non-digit give the value, negated when a minus sign was read |
| `JsNumber.ParseOptionalSign` | models/pet.js:79 | after white space, one `+` or `-` is consumed and `-` makes the result negative |
| `JsNumber.ParseIntReadsLeadingDigits` | models/pet.js:75-79 | `parseInt(ws + sign + digits + rest, 10)` is the signed decimal value of `digits` when `rest` does not start with a digit |
| `JsNumber.ParseIntWithoutDigits` | models/pet.js:78-79 | with no digit after the white space and the optional sign, the result is `NaN` |
| `JsNumber.ParseIntOfSignedDigits` | models/user.js:193 | a digit string, optionally after `-`, parses to its signed decimal value |
| `JsNumber.ParseIntOfDecimal` | models/pet.js:78 | `parseInt` reads back the decimal form of every integer |
| `JsNumber.ParseInt` | models/pet.js:75-79 | `parseInt(s, 10)` on a string: `ParseSigned` after `TrimStart`; characterised by `JsNumber.ParseIntReadsLeadingDigits` and `JsNumber.ParseIntWithoutDigits` |
| `JsNumber.ParseSigned` | models/pet.js:78 | steps 3 to 5 of `parseInt`: one optional sign; its property is `JsNumber.ParseOptionalSign` |
| `JsNumber.ParseDigits` | models/pet.js:79 | steps 11 to 16 of `parseInt` for radix 10; its property is `JsNumber.ParseDigitsOf` |
| `JsNumber.IntToDecimal` | models/user.js:32 | `Number::toString` of a safe integer, printed without an exponent; `JsNumber.ParseIntOfDecimal` proves `parseInt` reads it back, and `JsNumber.NatDigits` that it is the canonical decimal form |
| `JsValues.ToString` | models/user.js:133 | the `ToString` conversion `parseInt` applies first; `JsValues.ParseIntOfDigits`, `JsValues.ParseIntOfNumber` and `JsValues.ParseIntOfNonNumeric` say what it gives for strings, Numbers and the other primitives |
| `JsValues.ParseIntOf` | models/user.js:193 | `parseInt(v, 10)` on any modelled value; its properties are the three `JsValues.ParseIntOf…` lemmas |
| `JsValues.Get` | models/user.js:137 | a property read, `undefined` when the key is missing; `PetModel.UpdatePetMissingIdsAreNaN` uses it for missing ids |
| `JsValues.ParseIntOfDigits` | models/pet.js:75-79 | a string of decimal digits parses to its decimal value |
| `JsValues.ParseIntOfNumber` | models/pet.js:78 | a safe-integer Number passed as an id parses to itself |
| `JsValues.ParseIntOfNonNumeric` | models/pet.js:78-79 | `undefined`, `null` and booleans parse to `NaN` |
| `JsString.StartsWith` | models/user.js:45-46 | `s.startsWith(prefix)`, also at models/user.js:177-178 and models/pet.js:14-15: the string begins with exactly the characters of `prefix` |
| `Avatar.IsAbsolute` | models/user.js:45-46 | the URL starts with `http://` or `https://`, the two `startsWith` tests of the read-side guard |
| `Avatar.IsRelativePath` | models/user.js:43-47 | the read-side guard `avatarUrl && !avatarUrl.startsWith('http://') && !avatarUrl.startsWith('https://')` on a stored string, also at models/user.js:175-179 and models/pet.js:12-16: non-empty and not absolute |
| `Avatar.Absolutize` | models/user.js:42-49 | the read-side rule, also at models/user.js:174-181 and models/pet.js:11-18; its properties are carried by `Avatar.ServesRelativeUnderBase`, `Avatar.ServesOthersUnchanged`, `Avatar.ServedIsAbsolute` and `Avatar.AbsolutizeIdempotent` |
| `Avatar.PrefixStrip` | models/pet.js:62-65 | the reference definition "strip a leading `apiBack + "/"` if present", against which `Avatar.StripMatchesPrefixStripIff` compares the write side |
| `Avatar.Relativize` | models/user.js:136-139 | strings stay strings and have the first `apiBack + "/"` cut out, or stay unchanged when it does not occur; every non-string value passes through unchanged |
| `Avatar.ServesRelativeUnderBase` | models/user.js:174-181 | a non-empty path without an http or https scheme is served as exactly `apiBack + "/" + path` |
| `Avatar.ServesOthersUnchanged` | models/user.js:175-179 | a missing, empty, `http://` or `https://` avatar is served unchanged |
| `Avatar.ServedIsAbsolute` | models/pet.js:11-18 | with an absolute base URL every served avatar is missing, empty or absolute |
| `Avatar.AbsolutizeIdempotent` | models/user.js:42-49 | with an absolute base URL, serving an already served avatar changes nothing |
| `Avatar.StripInvertsPrefix` | models/user.js:136-139 | writing undoes reading: the write side turns `apiBack + "/" + p` back into `p`, for every `p` |
| `Avatar.ServedUrlSurvivesWriteBack` | models/pet.js:62-65 | a served avatar that is written back and read again is served unchanged when the stored value is relative, empty, free of `apiBack + "/"`, or `apiBack + "/"` followed by a relative path; other absolute URLs that contain `apiBack + "/"` are not covered |
| `Avatar.StripMatchesPrefixStripIff` | models/pet.js:80-83 | the write side equals stripping a leading `apiBack + "/"` if and only if the string starts with it or does not contain it |
| `Records.Collapse` | models/user.js:195-196 | a delete reports `true` exactly when it succeeded |
| `Records.CollapseHidesCause` | models/pet.js:111-112 | every failure, whatever its cause, reports the same `false` |
| `Records.ServedPet` | models/pet.js:11-22 | only the avatar of a pet changes, and it becomes the served avatar |
| `UserModel.HASHING_OPTIONS` | models/user.js:24-28 | the fixed argon2 parameters: memory cost 2^16, time cost 5, argon2id |
| `UserModel.ServedAnimals` | models/user.js:40-55 | the pet list keeps its length and order; each pet changes only in its avatar, which is served |
| `UserModel.FindOne` | models/user.js:30-58 | a missing user gives `{ Animals: undefined }`; a found user comes back unchanged except for its pets; `Animals` is undefined exactly when the user or its pets are missing, and is otherwise the served pet list |
| `UserModel.AnimalsOf` | models/user.js:58 | the `Animals` property of what `findOne` returns, undefined for `{ Animals: undefined }`; `UserModel.FindOne` states when it is undefined |
| `UserModel.FindOneServesAbsoluteAvatars` | models/user.js:38-58 | with an absolute base URL every pet `findOne` returns has a missing, empty or absolute avatar |
| `UserModel.Update` | models/user.js:131-141 | the id is `parseInt(id, 10)`; the data has the given keys plus `avatarUrl`; every other field is copied as given; a string `avatarUrl` loses its first `apiBack + "/"`, and any other value is kept |
| `UserModel.UpdateStoresServedAvatarRelative` | models/user.js:136-139 | an avatar URL a user was served, sent back through `update`, is stored as the relative path again |
| `UserModel.GetSafeAttributes` | models/user.js:172-189 | a missing user gives `{}`; otherwise the password hash is undefined, the avatar is served and every other field is as given |
| `UserModel.Destroy` | models/user.js:191-196 | `true` exactly when deleting by `parseInt(id, 10)` succeeds, `false` on any failure |
| `PetModel.FindOne` | models/pet.js:4-25 | a missing pet gives `{}`; a found pet comes back unchanged except that its avatar is served |
| `PetModel.CreatePet` | models/pet.js:49-68 | `ownerId`, `name`, `breedId` and `animalCategoryId` are passed through; a string `avatarUrl` loses its first `apiBack + "/"`, and any other value is kept |
| `PetModel.CreateThenFindServesSameAvatar` | models/pet.js:10-65 | a pet created with `apiBack + "/" + p`, the URL served for a stored relative path `p`, and looked up again is served that same URL |
| `PetModel.UpdatePet` | models/pet.js:70-86 | the id, `breedId` and `animalCategoryId` go through `parseInt(_, 10)`; `name` is kept; `avatarUrl` follows the same strip-or-pass-through rule |
| `PetModel.UpdatePetDecimalIds` | models/pet.js:75-79 | ids given as strings of decimal digits reach the datastore as their decimal values |
| `PetModel.UpdatePetMissingIdsAreNaN` | models/pet.js:78-79 | a body without `breedId` or `animalCategoryId` sends `NaN` for it |
| `PetModel.DestroyFavorite` | models/pet.js:108-113 | `true` exactly when deleting the favorite link by `parseInt(id, 10)` succeeds, `false` on any failure |
| `PetModel.Destroy` | models/pet.js:115-119 | `true` exactly when deleting the animal by `parseInt(id, 10)` succeeds, `false` on any failure |
| `PetModel.DestroyCannotTellNotFound` | models/pet.js:108-119 | a missing row and any other failure give the same `false` from both deletes |

## Left out

- Datastore queries are left out: what `findUnique`, `findFirst`, `findMany`, `create`, `update` and `delete` do inside the ORM, and the `include`/`select` shapes. They are foreign code. Lookups and deletes are parameters, and create and update are modelled by the arguments they pass.
- The breed and category listings (`findBreeds`, `findAnimalCategories`) are left out. Their dedup and ordering is done by the database.
- The plain pass-throughs are left out, because they have no logic of their own: `findByEmail`, `findByGoogleId`, `findByFacebookId`, `emailAlreadyExists`, `phoneAlreadyExist`, `googleCreate`, `facebookCreate`, `changeUserRole`, `findAllSafe`, `findOneForStats`, `findPetFavorites` and `addFavorite`.
- `hashPassword` and `verifyPassword` are calls into argon2 and are left out, and with them user `create` (models/user.js:104-123), whose only logic is hashing the password before storing the row. Only the constant hashing options are kept (`UserModel.HASHING_OPTIONS`).
- `validate` is a call into Joi and is left out, together with its email and phone-number checks and its aggregated errors.
- Errors that reads, creates and updates propagate are not modelled. The model returns what is sent to the datastore, not its answer.
- `UserModel.Update`, `PetModel.CreatePet`, `PetModel.UpdatePet`: the request body is assumed to be an object. With a `null` or `undefined` body the source throws a TypeError and the promise rejects (reading `data.avatarUrl`, or destructuring the argument); the model gives a result instead.
- `async` and `Promise.all` become ordinary sequential, order-preserving calls.
- Loading `API_BACK` from the environment is configuration I/O, so the value is a parameter.
- Row schemas carry only the fields the code touches. Their nullability is assumed, because the schema is not part of this model.
- `JsNumber.ParseInt`: returns the exact integer. ECMAScript gives `-0` for a negative zero such as `"-0"`, and rounds values beyond 2^53 to the nearest double.
- `JsValues.ToString`: Numbers are limited to integers within ±(2^53 − 1). Fractional Numbers and Numbers from 10^21 up, which print in exponent form, are not modelled. An object's conversion is given as the text it produces, so a throwing `toString` or a Symbol is not modelled.
- Strings are sequences of Unicode scalar values rather than UTF-16 code units. For well-formed UTF-16 this does not change what `startsWith` or `replace` removes. Strings with lone surrogates cannot be represented.

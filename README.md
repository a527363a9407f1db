# Recipe app models in Dafny

This project models the data layer of a small recipe-sharing web application, `server/models.py`. It has two records, `User` and `Recipe`:

- **Field validators.** A username and a title must be present and non-empty. Instructions must be present and at least 50 characters long. Each validator either returns its input unchanged or raises a `ValueError` with a specific message.
- **Write-only credential.** Reading `password_hash` always raises. Writing it stores the bcrypt hash of the given password in `_password_hash`. `authenticate` checks a candidate password against that stored hash.
- **Public views.** `to_dict` builds the dict a request handler returns. The user view has exactly `id`, `username`, `image_url` and `bio`. The recipe view has its own columns plus the owner's user view, or `None` under `user` when there is no owner.

## Files

- `wrappers.dfy`, module `Wrappers`: `Option` stands for a nullable column. `Result` stands for a value or the exception a call raises.
- `crypt.dfy`, module `Crypt`: Flask-Bcrypt as a value `Bcrypt(generate, check)` that is passed to the members that hash.
  - The random salt is an explicit `Salt` parameter.
  - Two predicates state what the models assume of the library, for non-empty passwords (the library refuses to hash an empty one, which `SetPasswordHash` models as `EmptyPassword`):
    - `AcceptsOwnHash`: a hash of `p` accepts `p`.
    - `RejectsOtherPasswords`: a hash of `p` rejects every other password.
  - Lemmas that rely on either predicate take it as an explicit `requires`.
- `views.dfy`, module `Views`: the plain values a view holds.
  - A Python dict is a list of `Entry(key, val)` in insertion order.
  - `Keys` lists the keys and `Get` looks one up.
  - `GetMissing` and `GetFirst` say what a lookup finds.
- `models.dfy`, module `Models`: the two classes.
  - Their fields are the columns, and `User.passwordHash` is `_password_hash`.
  - The validators are static functions returning `Result<string, ValidationError>`, with one error per failure. `ValidationError.Message` gives each error's exact text.
  - The `Set…` methods and the `Create` factories are the explicit validator calls that SQLAlchemy's `@validates` makes on assignment. A refused value leaves the object unchanged.
  - `User.ToDict` reads only `id`, `username`, `image_url` and `bio`. Its `reads` clause therefore shows that the stored hash cannot influence the view.

Python's `not value` on a nullable string column is modelled as "it is None or the empty string". Python's `len` is the number of characters in the `seq<char>`. In `Recipe.to_dict`, the test `if self.user` is true for any linked `User` object, so it is modelled as `user != null`.

Two behaviours of the code the model keeps:
- With no hash stored, `authenticate` calls `.encode` on `None` and raises. It does not return false. The model returns `Failure(NoHashSet)`.
- Usernames are checked only when they are assigned. A `User` built without a username keeps `None` until the database refuses it. The model therefore does not claim that every `User` object has a non-empty username. It claims that every username that was accepted is non-empty.

## Model

| member | source | states |
|---|---|---|
| `Models.User.ValidateUsername` | server/models.py:33-38 | accepts exactly the present, non-empty usernames and returns them unchanged; refuses None and "" with `UsernameRequired` |
| `Models.Recipe.ValidateTitle` | server/models.py:60-65 | accepts exactly the present, non-empty titles and returns them unchanged; refuses None and "" with `TitleRequired` |
| `Models.Recipe.ValidateInstructions` | server/models.py:67-74 | accepts exactly the instructions of at least 50 characters and returns them unchanged; `InstructionsRequired` exactly for None or "" (the emptiness check comes first, so "" never gets the length error); `InstructionsTooShort` exactly for lengths 1 to 49 |
| `Models.InstructionsBoundary` | server/models.py:72-74 | 49 characters are refused as too short, and 50 are accepted unchanged |
| `Models.ValidationError.Message` | server/models.py:37-73 | each validation error carries the exact text of the `ValueError` the source raises for it (lines 37, 64, 71, 73), and no two errors share a text |
| `Models.InstructionsMessagesDiffer` | server/models.py:70-73 | the two instruction failures carry different messages |
| `Models.User.constructor` | server/models.py:10-14 | a new user has every column unset |
| `Models.User.SetUsername` | server/models.py:33-38 | assigning runs the validator; an accepted value is stored; a refused one leaves the username as it was and reports the validator's error |
| `Models.User.Create` | server/models.py:33-38 | building a user succeeds exactly when the username is accepted, with the given columns, no id and no hash; otherwise it fails with `UsernameRequired` |
| `Models.User.PasswordHash` | server/models.py:19-22 | reading `password_hash` fails with `HashNotAccessible` in every state, including after a hash was set |
| `Models.User.SetPasswordHash` | server/models.py:24-27 | writing a non-empty password stores the library's hash of it in `_password_hash`; an empty password is refused by the library with `EmptyPassword` and stores nothing; id, username, image_url and bio are unchanged either way |
| `Models.User.Authenticate` | server/models.py:29-31 | depends only on the stored hash; fails with `NoHashSet` exactly when no hash is stored, otherwise answers the library's check of the stored hash against the password |
| `Models.AuthenticateOwnPassword` | server/models.py:29-31 | with the hash of a non-empty `p` stored, `p` authenticates (assuming `AcceptsOwnHash`) |
| `Models.AuthenticateOtherPassword` | server/models.py:29-31 | with the hash of a non-empty `p` stored, every other password is refused with false rather than an error (assuming `RejectsOtherPasswords`) |
| `Models.PasswordScenario` | server/models.py:24-31 | after user "chef1" sets password "hunter2", "hunter2" authenticates; "wrong" and "hunter2x" do not |
| `Models.User.ToDict` | server/models.py:40-47 | the view's keys are exactly id, username, image_url, bio in that order, each holding its column (None when unset); `password_hash` and `_password_hash` are absent; the stored hash is not read |
| `Models.ToDictIgnoresHash` | server/models.py:40-47 | two users that differ only in the stored hash have equal views |
| `Models.RecipeToDictIgnoresOwnerHash` | server/models.py:76-84 | two recipes with equal columns whose owners differ only in the stored hash have equal views, so the owner's hash cannot reach a recipe's view |
| `Models.Recipe.constructor` | server/models.py:52-58 | a new recipe has every column unset and no owner |
| `Models.Recipe.SetTitle` | server/models.py:60-65 | assigning runs the title validator; an accepted value is stored; a refused one leaves the title as it was and reports the error |
| `Models.Recipe.SetInstructions` | server/models.py:67-74 | assigning runs the instructions validator; an accepted value is stored; a refused one leaves the instructions as they were and reports the error |
| `Models.Recipe.Create` | server/models.py:60-74 | building a recipe succeeds exactly when both title and instructions are accepted; a bad title is reported first, then the instructions' own error; on success the columns and owner are as given |
| `Models.Recipe.ToDict` | server/models.py:76-84 | the view's keys are exactly id, title, instructions, minutes_to_complete, user in that order, each holding its column; `user` holds the owner's own view when an owner is linked and None otherwise |
| `Models.RecipeShowsOwner` | server/models.py:83 | a recipe owned by "chef1" shows username "chef1" inside the dict under its `user` key |

## Left out

- Column declarations and database constraints are not modelled: `nullable=False`, `unique=True`, the primary keys, id generation and the `user_id` foreign key are enforced by the database. Ids are plain nullable values here.
- The `recipes` relationship and its `user` backref are not modelled as an ORM relationship, and neither is lazy loading. A recipe's owner is the field `Recipe.user`, which may be null.
- bcrypt's internals are not modelled: salting, the cost factor, constant-time comparison and the 72-byte password limit. The library is the `Bcrypt` parameter, and its behaviour is assumed through `AcceptsOwnHash` and `RejectsOtherPasswords`. `RejectsOtherPasswords` idealises real bcrypt, which ignores everything after the first 72 bytes. One rule of the library is modelled and not assumed: `generate_password_hash` refuses an empty password with a `ValueError`, so `Models.User.SetPasswordHash` returns `EmptyPassword` for it and stores nothing.
- The UTF-8 `.encode`/`.decode` calls around the hash are not modelled: they are library plumbing, and the hash is a `string`.
- `SerializerMixin` and its generic serialisation are left out, since they come from a foreign library. Only the two hand-written `to_dict` methods are modelled.
- `config` (`db`, `bcrypt` setup) is not part of this model.
- `@validates` intercepting assignments is replaced by explicit calls in `Set…` and `Create`.
- Under SQLAlchemy, keyword arguments are validated in the order the caller passes them. `Models.Recipe.Create` fixes the order: title first, then instructions.

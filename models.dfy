/**
 * The two records of the recipe application, `User` and `Recipe`, with their field
 * validators, the write-only password credential and the public views the request
 * handlers return.
 *
 * Validators that the ORM runs on assignment are explicit here: the `Set` methods and the
 * `Create` factories call them and assign only what they accept.
 */
module Models {
  import opened Wrappers
  import opened Crypt
  import opened Views

  const MinInstructionsLength: nat := 50

  /** The `ValueError`s the validators raise, one per failure. */
  datatype ValidationError =
    | UsernameRequired
    | TitleRequired
    | InstructionsRequired
    | InstructionsTooShort
  {
    /** The message each error carries, one distinct text per error. */
    function Message(): (m: string)
      ensures m == "Username is required." <==> this == UsernameRequired
      ensures m == "Title is required." <==> this == TitleRequired
      ensures m == "Instructions are required." <==> this == InstructionsRequired
      ensures m == "Instructions must be at least 50 characters long." <==> this == InstructionsTooShort
    {
      match this
      case UsernameRequired => "Username is required."
      case TitleRequired => "Title is required."
      case InstructionsRequired => "Instructions are required."
      case InstructionsTooShort => "Instructions must be at least 50 characters long."
    }
  }

  /** The errors raised around the credential. */
  datatype CredentialError =
    | HashNotAccessible  // AttributeError: reading `password_hash`
    | NoHashSet          // AttributeError: `authenticate` on a user whose `_password_hash` is still None
    | EmptyPassword      // ValueError from the hashing library: writing an empty password

  /** The keys of a user's public view, in order. */
  const UserViewKeys: seq<string> := ["id", "username", "image_url", "bio"]

  /** The keys of a recipe's public view, in order. */
  const RecipeViewKeys: seq<string> := ["id", "title", "instructions", "minutes_to_complete", "user"]

  class User {
    var id: Option<int>
    var username: Option<string>
    var passwordHash: Option<string>  // the `_password_hash` column
    var imageUrl: Option<string>
    var bio: Option<string>

    /** A new user, every column still None. */
    constructor ()
      ensures id.None? && username.None? && passwordHash.None?
      ensures imageUrl.None? && bio.None?
    {
      id, username, passwordHash, imageUrl, bio := None, None, None, None, None;
    }

    /** The username validator: a missing or empty username is refused, any other kept as is. */
    static function ValidateUsername(username: Option<string>): (r: Result<string, ValidationError>)
      ensures r.Success? <==> username.Some? && |username.value| > 0
      ensures r.Success? ==> username == Some(r.value)
      ensures r.Failure? ==> r.error == UsernameRequired
    {
      if username.None? || username.value == "" then Failure(UsernameRequired)
      else Success(username.value)
    }

    /** Assigning `username`: the validator runs first, and a refused value leaves the user as it was. */
    method SetUsername(value: Option<string>) returns (err: Option<ValidationError>)
      modifies this`username
      ensures ValidateUsername(value).Success? ==> err.None? && username == value
      ensures ValidateUsername(value).Failure? ==>
        err == Some(ValidateUsername(value).error) && username == old(username)
    {
      var checked := ValidateUsername(value);
      if checked.Success? {
        username := Some(checked.value);
        err := None;
      } else {
        err := Some(checked.error);
      }
    }

    /** Building a user from its columns: succeeds exactly when the username is accepted. */
    static method Create(username: Option<string>, imageUrl: Option<string>, bio: Option<string>)
      returns (r: Result<User, ValidationError>)
      ensures r.Success? <==> ValidateUsername(username).Success?
      ensures r.Failure? ==> r.error == UsernameRequired
      ensures r.Success? ==> fresh(r.value)
      ensures r.Success? ==>
        && r.value.username == username && r.value.imageUrl == imageUrl && r.value.bio == bio
        && r.value.id.None? && r.value.passwordHash.None?
    {
      var u := new User();
      var err := u.SetUsername(username);
      if err.Some? {
        r := Failure(err.value);
      } else {
        u.imageUrl, u.bio := imageUrl, bio;
        r := Success(u);
      }
    }

    /** Reading `password_hash` always fails, whatever has been stored. */
    function PasswordHash(): (r: Result<string, CredentialError>)
      ensures r.Failure? && r.error == HashNotAccessible
    {
      Failure(HashNotAccessible)
    }

    /**
     * Writing `password_hash` stores the bcrypt hash of the password and nothing else.
     * The library refuses an empty password, and then nothing is stored.
     */
    method SetPasswordHash(password: string, salt: Salt, crypt: Bcrypt) returns (err: Option<CredentialError>)
      modifies this`passwordHash
      ensures password == "" ==> err == Some(EmptyPassword) && passwordHash == old(passwordHash)
      ensures password != "" ==> err.None? && passwordHash == Some(crypt.generate(password, salt))
      ensures id == old(id) && username == old(username)
      ensures imageUrl == old(imageUrl) && bio == old(bio)
    {
      if password == "" {
        err := Some(EmptyPassword);
      } else {
        passwordHash := Some(crypt.generate(password, salt));
        err := None;
      }
    }

    /** Checking a password against the stored hash; with no hash stored the call fails. */
    function Authenticate(password: string, crypt: Bcrypt): (r: Result<bool, CredentialError>)
      reads this`passwordHash
      ensures r.Failure? <==> passwordHash.None?
      ensures r.Failure? ==> r.error == NoHashSet
      ensures r.Success? ==> r.value == crypt.check(passwordHash.value, password)
    {
      if passwordHash.None? then Failure(NoHashSet)
      else Success(crypt.check(passwordHash.value, password))
    }

    /**
     * The public view: exactly id, username, image_url and bio. It reads no other field,
     * so the stored hash cannot reach it.
     */
    function ToDict(): (v: Value)
      reads this`id, this`username, this`imageUrl, this`bio
      ensures v.Dict? && Keys(v.entries) == UserViewKeys
      ensures Get(v.entries, "id") == Some(FromInt(id))
      ensures Get(v.entries, "username") == Some(FromString(username))
      ensures Get(v.entries, "image_url") == Some(FromString(imageUrl))
      ensures Get(v.entries, "bio") == Some(FromString(bio))
      ensures Get(v.entries, "password_hash").None? && Get(v.entries, "_password_hash").None?
    {
      var entries := [
        Entry("id", FromInt(id)),
        Entry("username", FromString(username)),
        Entry("image_url", FromString(imageUrl)),
        Entry("bio", FromString(bio))];
      GetFirst(entries, 1);
      GetFirst(entries, 2);
      GetFirst(entries, 3);
      GetMissing(entries, "password_hash");
      GetMissing(entries, "_password_hash");
      Dict(entries)
    }
  }

  /** A stored hash of `p` accepts `p`, given a library whose hashes accept their own password. */
  lemma AuthenticateOwnPassword(u: User, p: string, salt: Salt, crypt: Bcrypt)
    requires AcceptsOwnHash(crypt)
    requires p != ""
    requires u.passwordHash == Some(crypt.generate(p, salt))
    ensures u.Authenticate(p, crypt) == Success(true)
  {
  }

  /** A stored hash of `p` rejects every other password, given a library without collisions. */
  lemma AuthenticateOtherPassword(u: User, p: string, q: string, salt: Salt, crypt: Bcrypt)
    requires RejectsOtherPasswords(crypt)
    requires p != ""
    requires u.passwordHash == Some(crypt.generate(p, salt))
    requires p != q
    ensures u.Authenticate(q, crypt) == Success(false)
  {
  }

  /** Two users that differ at most in their stored hash have the same public view. */
  lemma ToDictIgnoresHash(a: User, b: User)
    requires a.id == b.id && a.username == b.username
    requires a.imageUrl == b.imageUrl && a.bio == b.bio
    ensures a.ToDict() == b.ToDict()
  {
  }

  /**
   * Creating user "chef1" and setting its password to "hunter2": "hunter2" then
   * authenticates, "wrong" and "hunter2x" do not.
   */
  method PasswordScenario(crypt: Bcrypt, salt: Salt)
    returns (right: Result<bool, CredentialError>, wrong: Result<bool, CredentialError>,
             extended: Result<bool, CredentialError>)
    requires AcceptsOwnHash(crypt) && RejectsOtherPasswords(crypt)
    ensures right == Success(true) && wrong == Success(false) && extended == Success(false)
  {
    var created := User.Create(Some("chef1"), None, None);
    var u := created.value;
    var refused := u.SetPasswordHash("hunter2", salt, crypt);
    right := u.Authenticate("hunter2", crypt);
    wrong := u.Authenticate("wrong", crypt);
    extended := u.Authenticate("hunter2" + "x", crypt);
    AuthenticateOtherPassword(u, "hunter2", "wrong", salt, crypt);
    AuthenticateOtherPassword(u, "hunter2", "hunter2" + "x", salt, crypt);
  }

  class Recipe {
    var id: Option<int>
    var title: Option<string>
    var instructions: Option<string>
    var minutesToComplete: Option<int>
    var user: User?  // the owner, through User.recipes' backref; null for an orphan recipe

    /** A new recipe, every column still None and no owner. */
    constructor ()
      ensures id.None? && title.None? && instructions.None?
      ensures minutesToComplete.None? && user == null
    {
      id, title, instructions, minutesToComplete, user := None, None, None, None, null;
    }

    /** The title validator: a missing or empty title is refused, any other kept as is. */
    static function ValidateTitle(title: Option<string>): (r: Result<string, ValidationError>)
      ensures r.Success? <==> title.Some? && |title.value| > 0
      ensures r.Success? ==> title == Some(r.value)
      ensures r.Failure? ==> r.error == TitleRequired
    {
      if title.None? || title.value == "" then Failure(TitleRequired)
      else Success(title.value)
    }

    /**
     * The instructions validator: missing or empty instructions are refused as required,
     * before any length check; shorter than 50 characters are refused as too short;
     * anything else is kept as is.
     */
    static function ValidateInstructions(instructions: Option<string>): (r: Result<string, ValidationError>)
      ensures r.Success? <==> instructions.Some? && |instructions.value| >= MinInstructionsLength
      ensures r.Success? ==> instructions == Some(r.value)
      ensures r == Failure(InstructionsRequired) <==> instructions.None? || instructions.value == ""
      ensures r == Failure(InstructionsTooShort) <==>
        instructions.Some? && 0 < |instructions.value| < MinInstructionsLength
    {
      if instructions.None? || instructions.value == "" then Failure(InstructionsRequired)
      else if |instructions.value| < MinInstructionsLength then Failure(InstructionsTooShort)
      else Success(instructions.value)
    }

    /** Assigning `title`: the validator runs first, and a refused value leaves the recipe as it was. */
    method SetTitle(value: Option<string>) returns (err: Option<ValidationError>)
      modifies this`title
      ensures ValidateTitle(value).Success? ==> err.None? && title == value
      ensures ValidateTitle(value).Failure? ==>
        err == Some(ValidateTitle(value).error) && title == old(title)
    {
      var checked := ValidateTitle(value);
      if checked.Success? {
        title := Some(checked.value);
        err := None;
      } else {
        err := Some(checked.error);
      }
    }

    /** Assigning `instructions`: the validator runs first, and a refused value leaves the recipe as it was. */
    method SetInstructions(value: Option<string>) returns (err: Option<ValidationError>)
      modifies this`instructions
      ensures ValidateInstructions(value).Success? ==> err.None? && instructions == value
      ensures ValidateInstructions(value).Failure? ==>
        err == Some(ValidateInstructions(value).error) && instructions == old(instructions)
    {
      var checked := ValidateInstructions(value);
      if checked.Success? {
        instructions := Some(checked.value);
        err := None;
      } else {
        err := Some(checked.error);
      }
    }

    /**
     * Building a recipe from its columns and owner. The title is validated first, then the
     * instructions; the first refusal is the error.
     */
    static method Create(title: Option<string>, instructions: Option<string>,
                         minutesToComplete: Option<int>, owner: User?)
      returns (r: Result<Recipe, ValidationError>)
      ensures r.Success? <==>
        ValidateTitle(title).Success? && ValidateInstructions(instructions).Success?
      ensures ValidateTitle(title).Failure? ==> r == Failure(TitleRequired)
      ensures ValidateTitle(title).Success? && ValidateInstructions(instructions).Failure? ==>
        r == Failure(ValidateInstructions(instructions).error)
      ensures r.Success? ==> fresh(r.value)
      ensures r.Success? ==>
        && r.value.title == title && r.value.instructions == instructions
        && r.value.minutesToComplete == minutesToComplete && r.value.user == owner
        && r.value.id.None?
    {
      var recipe := new Recipe();
      var err := recipe.SetTitle(title);
      if err.Some? {
        r := Failure(err.value);
        return;
      }
      err := recipe.SetInstructions(instructions);
      if err.Some? {
        r := Failure(err.value);
        return;
      }
      recipe.minutesToComplete, recipe.user := minutesToComplete, owner;
      r := Success(recipe);
    }

    /**
     * The public view: id, title, instructions, minutes_to_complete, and under `user` the
     * owner's own public view, or None when there is no owner.
     */
    function ToDict(): (v: Value)
      reads this, user
      ensures v.Dict? && Keys(v.entries) == RecipeViewKeys
      ensures Get(v.entries, "id") == Some(FromInt(id))
      ensures Get(v.entries, "title") == Some(FromString(title))
      ensures Get(v.entries, "instructions") == Some(FromString(instructions))
      ensures Get(v.entries, "minutes_to_complete") == Some(FromInt(minutesToComplete))
      ensures Get(v.entries, "user") == Some(if user != null then user.ToDict() else Null)
    {
      var owner := if user != null then user.ToDict() else Null;
      var entries := [
        Entry("id", FromInt(id)),
        Entry("title", FromString(title)),
        Entry("instructions", FromString(instructions)),
        Entry("minutes_to_complete", FromInt(minutesToComplete)),
        Entry("user", owner)];
      GetFirst(entries, 1);
      GetFirst(entries, 2);
      GetFirst(entries, 3);
      GetFirst(entries, 4);
      Dict(entries)
    }
  }

  /**
   * The owner's stored hash cannot reach a recipe's view: recipes with the same columns
   * whose owners differ at most in their stored hash have the same view.
   */
  lemma RecipeToDictIgnoresOwnerHash(a: Recipe, b: Recipe)
    requires a.id == b.id && a.title == b.title && a.instructions == b.instructions
    requires a.minutesToComplete == b.minutesToComplete
    requires (a.user == null) == (b.user == null)
    requires a.user != null && b.user != null ==>
      && a.user.id == b.user.id && a.user.username == b.user.username
      && a.user.imageUrl == b.user.imageUrl && a.user.bio == b.user.bio
    ensures a.ToDict() == b.ToDict()
  {
  }

  /** Instructions of 49 characters are too short; 50 are accepted unchanged. */
  lemma InstructionsBoundary()
    ensures Recipe.ValidateInstructions(Some(seq(49, _ => 'x'))) == Failure(InstructionsTooShort)
    ensures Recipe.ValidateInstructions(Some(seq(50, _ => 'x'))) == Success(seq(50, _ => 'x'))
  {
  }

  /** The two ways the instructions validator fails carry different messages. */
  lemma InstructionsMessagesDiffer()
    ensures InstructionsRequired.Message() != InstructionsTooShort.Message()
  {
  }

  /** A recipe owned by "chef1" shows `{"username": "chef1", ...}` under its `user` key. */
  lemma RecipeShowsOwner(r: Recipe)
    requires r.user != null && r.user.username == Some("chef1")
    ensures match Get(r.ToDict().entries, "user")
      case Some(Dict(owner)) => Get(owner, "username") == Some(Str("chef1"))
      case _ => false
  {
  }
}

/** The model logic of the authenticated Flask notification service: the
    password-strength rules a user's password must pass before it is
    hashed, the uniqueness checks on notification messages and category
    names, and the hook that normalises the category field of an incoming
    notification. */
module ServiceModels {
  import opened Wrappers
  import Collections

  // ---------------------------------------------------------------------
  // Password strength

  const MinPasswordLength: int := 8
  const MaxPasswordLength: int := 32


  predicate IsAsciiUppercase(c: char) { 'A' <= c <= 'Z' }
  predicate IsAsciiLowercase(c: char) { 'a' <= c <= 'z' }
  predicate IsAsciiDigit(c: char) { '0' <= c <= '9' }
  /** The symbol class of the password check: the space and the ASCII
      punctuation `!` to `/`, `[` to the backquote and `{` to `~`; the
      characters `:;<=>?@` are not in it. */
  predicate IsPasswordSymbol(c: char) { c == ' ' || '!' <= c <= '/' || '[' <= c <= '`' || '{' <= c <= '~' }

  /** `re.search(r'[A-Z]', password) is not None`, and likewise below. */
  predicate HasUppercase(password: string) { exists i :: 0 <= i < |password| && IsAsciiUppercase(password[i]) }
  predicate HasLowercase(password: string) { exists i :: 0 <= i < |password| && IsAsciiLowercase(password[i]) }
  predicate HasDigit(password: string) { exists i :: 0 <= i < |password| && IsAsciiDigit(password[i]) }
  predicate HasSymbol(password: string) { exists i :: 0 <= i < |password| && IsPasswordSymbol(password[i]) }

  /** The six checks of `check_password_strength_and_hash_if_ok`. */
  datatype PasswordRule = MinLength | MaxLength | Uppercase | Lowercase | Digit | Symbol
  {
    predicate Holds(password: string)
    {
      match this
      case MinLength => |password| >= MinPasswordLength
      case MaxLength => |password| <= MaxPasswordLength
      case Uppercase => HasUppercase(password)
      case Lowercase => HasLowercase(password)
      case Digit => HasDigit(password)
      case Symbol => HasSymbol(password)
    }

    /** The message returned when the check fails. */
    function Message(): string
    {
      match this
      case MinLength => "The password is too short. Please, specify a password with at least 8 characters."
      case MaxLength => "The password is too long. Please, specify a password with no more than 32 characters."
      case Uppercase => "The password must include at least one uppercase letter."
      case Lowercase => "The password must include at least one lowercase letter."
      case Digit => "The password must include at least one number."
      case Symbol => "The password must include at least one symbol."
    }
  }

  /** The checks in the order the method runs them. */
  const PasswordRules: seq<PasswordRule> := [MinLength, MaxLength, Uppercase, Lowercase, Digit, Symbol]

  /** The index in `rules` of the first check `password` fails, or
      `|rules|` when it passes them all. */
  function FirstFailedCheck(rules: seq<PasswordRule>, password: string): (k: nat)
    ensures k <= |rules|
    ensures forall j :: 0 <= j < k ==> rules[j].Holds(password)
    ensures k < |rules| ==> !rules[k].Holds(password)
  {
    if rules == [] then 0
    else if !rules[0].Holds(password) then 0
    else 1 + FirstFailedCheck(rules[1..], password)
  }

  /** The first check `password` fails, if any. */
  function FailedCheck(password: string): Option<PasswordRule>
  {
    var k := FirstFailedCheck(PasswordRules, password);
    if k < |PasswordRules| then Some(PasswordRules[k]) else None
  }

  /** The pair `(message, ok)` the method returns: the message of the first
      check the password fails, or `('', True)` when it passes them all. */
  function StrengthVerdict(password: string): (string, bool)
  {
    match FailedCheck(password)
    case Some(rule) => (rule.Message(), false)
    case None => ("", true)
  }

  /** When check `i` fails and every earlier check passes, check `i` is
      the one reported: the checks run in a fixed order. */
  lemma FirstFailingCheckReported(password: string, i: nat)
    requires i < |PasswordRules|
    requires !PasswordRules[i].Holds(password)
    requires forall j :: 0 <= j < i ==> PasswordRules[j].Holds(password)
    ensures FailedCheck(password) == Some(PasswordRules[i])
  {
    var k := FirstFailedCheck(PasswordRules, password);
    if k < i {
      assert false;
    } else if k > i {
      assert false;
    }
  }

  /** A password is accepted exactly when it has 8 to 32 characters and
      contains an ASCII uppercase letter, an ASCII lowercase letter, a
      decimal digit and a symbol; a rejected password always comes with
      the message of the check it failed. */
  lemma PasswordAcceptedIff(password: string)
    ensures StrengthVerdict(password) == ("", true) <==>
      && MinPasswordLength <= |password| <= MaxPasswordLength
      && HasUppercase(password) && HasLowercase(password)
      && HasDigit(password) && HasSymbol(password)
    ensures !StrengthVerdict(password).1 <==> FailedCheck(password).Some?
    ensures FailedCheck(password).Some? ==> StrengthVerdict(password).0 == FailedCheck(password).value.Message()
  {
    var k := FirstFailedCheck(PasswordRules, password);
    if k < |PasswordRules| {
      assert !PasswordRules[k].Holds(password);
    } else {
      assert PasswordRules[0].Holds(password) && PasswordRules[1].Holds(password);
      assert PasswordRules[2].Holds(password) && PasswordRules[3].Holds(password);
      assert PasswordRules[4].Holds(password) && PasswordRules[5].Holds(password);
    }
  }

  /** A password shorter than 8 characters is rejected as too short. */
  lemma ShortPasswordRejected(password: string)
    requires |password| < MinPasswordLength
    ensures FailedCheck(password) == Some(MinLength)
  {
    FirstFailingCheckReported(password, 0);
  }

  /** A password longer than 32 characters is rejected as too long. */
  lemma LongPasswordRejected(password: string)
    requires |password| > MaxPasswordLength
    ensures FailedCheck(password) == Some(MaxLength)
  {
    FirstFailingCheckReported(password, 1);
  }

  /** The password of the service's test user passes every check. */
  lemma TestUserPasswordAccepted()
    ensures FailedCheck("T3s!p4s5w0RDd12#") == None
  {
    var p := "T3s!p4s5w0RDd12#";
    assert HasUppercase(p) by { assert IsAsciiUppercase(p[0]); }
    assert HasDigit(p) by { assert IsAsciiDigit(p[1]); }
    assert HasLowercase(p) by { assert IsAsciiLowercase(p[2]); }
    assert HasSymbol(p) by { assert IsPasswordSymbol(p[3]); }
    PasswordAcceptedIff(p);
  }

  /** `@` is not in the symbol class, so a password whose only punctuation
      is `@` is rejected for want of a symbol. */
  lemma AtSignIsNoSymbol()
    ensures FailedCheck("Passw0rd@") == Some(Symbol)
  {
    var p := "Passw0rd@";
    assert IsAsciiUppercase(p[0]) && IsAsciiLowercase(p[1]) && IsAsciiDigit(p[5]);
    assert forall i :: 0 <= i < |p| ==> !IsPasswordSymbol(p[i]);
    FirstFailingCheckReported(p, 5);
  }

  /** A user row, as far as the password check reads and writes it. The
      hash is `None` until a password has passed the checks. */
  class User {
    const name: string
    var passwordHash: Option<string>

    constructor (name: string)
      ensures this.name == name && passwordHash == None
    {
      this.name := name;
      passwordHash := None;
    }

    /** `check_password_strength_and_hash_if_ok`. The checks run in order
        and the first that fails decides the answer; only a password that
        passes them all is hashed (`hash` stands for the hashing library)
        and stored. */
    method CheckPasswordStrengthAndHashIfOk(password: string, hash: string -> string) returns (message: string, ok: bool)
      modifies this`passwordHash
      ensures (message, ok) == StrengthVerdict(password)
      ensures ok ==> passwordHash == Some(hash(password))
      ensures !ok ==> passwordHash == old(passwordHash)
    {
      if |password| < MinPasswordLength {
        FirstFailingCheckReported(password, 0);
        return MinLength.Message(), false;
      }
      if |password| > MaxPasswordLength {
        FirstFailingCheckReported(password, 1);
        return MaxLength.Message(), false;
      }
      if !HasUppercase(password) {
        FirstFailingCheckReported(password, 2);
        return Uppercase.Message(), false;
      }
      if !HasLowercase(password) {
        FirstFailingCheckReported(password, 3);
        return Lowercase.Message(), false;
      }
      if !HasDigit(password) {
        FirstFailingCheckReported(password, 4);
        return Digit.Message(), false;
      }
      if !HasSymbol(password) {
        FirstFailingCheckReported(password, 5);
        return Symbol.Message(), false;
      }
      PasswordAcceptedIff(password);
      passwordHash := Some(hash(password));
      return "", true;
    }
  }

  // ---------------------------------------------------------------------
  // Uniqueness checks

  /** A row of the `notification` table, as far as the check reads it. */
  datatype NotificationRow = NotificationRow(id: int, message: string)

  /** A row of the `notification_category` table, as far as the check reads it. */
  datatype CategoryRow = CategoryRow(id: int, name: string)

  /** `Notification.is_message_unique(id, message)`: the first notification
      with that message, in table order, is absent or is the one with the
      given id. */
  predicate IsMessageUnique(notifications: seq<NotificationRow>, id: int, message: string)
    ensures IsMessageUnique(notifications, id, message) <==>
      || (forall i :: 0 <= i < |notifications| ==> notifications[i].message != message)
      || (exists i :: 0 <= i < |notifications| && notifications[i].message == message
            && notifications[i].id == id && forall j :: 0 <= j < i ==> notifications[j].message != message)
  {
    var k := Collections.FirstWhere(notifications, (n: NotificationRow) => n.message == message);
    k == |notifications| || notifications[k].id == id
  }

  /** `NotificationCategory.is_name_unique(id, name)`: the first category
      with that name, in table order, is absent or is the one with the
      given id. */
  predicate IsNameUnique(categories: seq<CategoryRow>, id: int, name: string)
    ensures IsNameUnique(categories, id, name) <==>
      || (forall i :: 0 <= i < |categories| ==> categories[i].name != name)
      || (exists i :: 0 <= i < |categories| && categories[i].name == name
            && categories[i].id == id && forall j :: 0 <= j < i ==> categories[j].name != name)
  {
    var k := Collections.FirstWhere(categories, (c: CategoryRow) => c.name == name);
    k == |categories| || categories[k].id == id
  }

  /** The `message` column is declared unique. */
  predicate MessagesDistinct(notifications: seq<NotificationRow>)
  {
    forall i, j :: 0 <= i < j < |notifications| ==> notifications[i].message != notifications[j].message
  }

  /** The `name` column is declared unique. */
  predicate NamesDistinct(categories: seq<CategoryRow>)
  {
    forall i, j :: 0 <= i < j < |categories| ==> categories[i].name != categories[j].name
  }

  /** On a table that keeps its unique constraint, a message is unique for
      `id` exactly when every notification carrying it has that id. */
  lemma MessageUniqueUnderConstraint(notifications: seq<NotificationRow>, id: int, message: string)
    requires MessagesDistinct(notifications)
    ensures IsMessageUnique(notifications, id, message) <==>
      forall i :: 0 <= i < |notifications| && notifications[i].message == message ==> notifications[i].id == id
  {
    if IsMessageUnique(notifications, id, message) {
      forall i | 0 <= i < |notifications| && notifications[i].message == message
        ensures notifications[i].id == id
      {
        var k := Collections.FirstWhere(notifications, (n: NotificationRow) => n.message == message);
        if k < i {
          assert notifications[k].message == notifications[i].message;
        }
      }
    }
  }

  /** On a table that keeps its unique constraint, a name is unique for
      `id` exactly when every category carrying it has that id. */
  lemma NameUniqueUnderConstraint(categories: seq<CategoryRow>, id: int, name: string)
    requires NamesDistinct(categories)
    ensures IsNameUnique(categories, id, name) <==>
      forall i :: 0 <= i < |categories| && categories[i].name == name ==> categories[i].id == id
  {
    if IsNameUnique(categories, id, name) {
      forall i | 0 <= i < |categories| && categories[i].name == name
        ensures categories[i].id == id
      {
        var k := Collections.FirstWhere(categories, (c: CategoryRow) => c.name == name);
        if k < i {
          assert categories[k].name == categories[i].name;
        }
      }
    }
  }

  /** The handlers that create a record ask with id 0, which no stored row
      has: the answer is then "no row carries the name at all", so a
      duplicate name is refused. */
  lemma NewCategoryNameUniqueIff(categories: seq<CategoryRow>, name: string)
    requires forall i :: 0 <= i < |categories| ==> categories[i].id >= 1
    ensures IsNameUnique(categories, 0, name) <==> forall i :: 0 <= i < |categories| ==> categories[i].name != name
  {
    if IsNameUnique(categories, 0, name) {
      var k := Collections.FirstWhere(categories, (c: CategoryRow) => c.name == name);
      assert k == |categories|;
    }
  }

  /** The message check as the PATCH handler of a notification makes it:
      with id 0 instead of the id of the notification being changed. */
  predicate PatchMessageAllowedAsWritten(notifications: seq<NotificationRow>, id: int, message: string)
  {
    IsMessageUnique(notifications, 0, message)
  }

  /** The message check the PATCH handler evidently intends: the new
      message may be kept by the notification being changed itself. */
  predicate PatchMessageAllowed(notifications: seq<NotificationRow>, id: int, message: string)
  {
    IsMessageUnique(notifications, id, message)
  }

  /** Sending a notification's own current message in a PATCH is refused
      as written, and allowed by the intended check. */
  lemma PatchWithOwnMessageRefused()
    ensures !PatchMessageAllowedAsWritten([NotificationRow(5, "Hello")], 5, "Hello")
    ensures PatchMessageAllowed([NotificationRow(5, "Hello")], 5, "Hello")
  {
    var rows := [NotificationRow(5, "Hello")];
    assert rows[0].message == "Hello";
  }

  /** With the intended check, a notification whose message is unique in
      a table that keeps its constraint may always be patched with its own
      message. */
  lemma PatchWithOwnMessageAllowed(notifications: seq<NotificationRow>, i: nat)
    requires MessagesDistinct(notifications)
    requires i < |notifications|
    ensures PatchMessageAllowed(notifications, notifications[i].id, notifications[i].message)
  {
    MessageUniqueUnderConstraint(notifications, notifications[i].id, notifications[i].message);
  }

  // ---------------------------------------------------------------------
  // Normalising the category field before loading

  /** A JSON value as the request parser delivers it. */
  datatype Json =
    | JNull
    | JBool(b: bool)
    | JInt(i: int)
    | JString(s: string)
    | JArray(items: seq<Json>)
    | JObject(members: map<string, Json>)

  /** Python truthiness: `None`, `False`, `0` and empty strings, lists and
      dictionaries are false. */
  predicate Truthy(v: Json)
  {
    match v
    case JNull => false
    case JBool(b) => b
    case JInt(i) => i != 0
    case JString(s) => s != ""
    case JArray(items) => items != []
    case JObject(members) => |members| != 0
  }

  /** `d.get(key)`: the value under `key`, or `None`. */
  function Get(members: map<string, Json>, key: string): Json
  {
    if key in members then members[key] else JNull
  }

  const CategoryKey: string := "notification_category"
  const NameKey: string := "name"

  /** The category value that the hook stores in place of `v`. */
  function NormalizedCategory(v: Json): Json
  {
    if !Truthy(v) then JObject(map[])
    else if v.JObject? then JObject(map[NameKey := Get(v.members, NameKey)])
    else JObject(map[NameKey := v])
  }

  /** Whatever comes in, the stored category is a dictionary whose only
      possible key is `name`, and it is empty exactly when the field was
      missing or false. */
  lemma NormalizedCategoryShape(v: Json)
    ensures NormalizedCategory(v).JObject?
    ensures NormalizedCategory(v).members.Keys <= {NameKey}
    ensures Truthy(NormalizedCategory(v)) <==> Truthy(v)
  {
  }

  /** Normalising a normalised category changes nothing, so running the
      hook on its own output leaves the data as it is. */
  lemma NormalizedCategoryIdempotent(v: Json)
    ensures NormalizedCategory(NormalizedCategory(v)) == NormalizedCategory(v)
  {
    if Truthy(v) {
      var once := NormalizedCategory(v);
      assert Truthy(once) && once.JObject?;
      assert Get(once.members, NameKey) == once.members[NameKey];
      assert map[NameKey := once.members[NameKey]] == once.members;
    }
  }

  /** The request's `data` dictionary, which the hook changes in place. */
  class JsonObject {
    var members: map<string, Json>

    constructor (members: map<string, Json>)
      ensures this.members == members
    {
      this.members := members;
    }
  }

  /** `NotificationSchema.process_notification_category`: overwrite the
      `notification_category` entry of `data` with `{name: d.get('name')}`
      for a dictionary `d`, with `{name: v}` for any other true value `v`,
      and with `{}` when the entry is missing or false; every other entry
      stays as it was. The same dictionary is returned. */
  method ProcessNotificationCategory(data: JsonObject) returns (result: JsonObject)
    modifies data
    ensures result == data
    ensures data.members.Keys == old(data.members.Keys) + {CategoryKey}
    ensures forall key :: key in old(data.members) && key != CategoryKey ==> data.members[key] == old(data.members[key])
    ensures data.members[CategoryKey] == NormalizedCategory(Get(old(data.members), CategoryKey))
    ensures var v := Get(old(data.members), CategoryKey);
      && (Truthy(v) && v.JObject? ==> data.members[CategoryKey] == JObject(map[NameKey := Get(v.members, NameKey)]))
      && (Truthy(v) && !v.JObject? ==> data.members[CategoryKey] == JObject(map[NameKey := v]))
      && (!Truthy(v) ==> data.members[CategoryKey] == JObject(map[]))
  {
    var category := Get(data.members, CategoryKey);
    var categoryDict: Json;
    if Truthy(category) {
      var categoryName: Json;
      if category.JObject? {
        categoryName := Get(category.members, NameKey);
      } else {
        categoryName := category;
      }
      categoryDict := JObject(map[NameKey := categoryName]);
    } else {
      categoryDict := JObject(map[]);
    }
    data.members := data.members[CategoryKey := categoryDict];
    result := data;
  }
}

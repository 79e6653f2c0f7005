/**
 * The Cognito side of the profile: turning the attribute dictionary the service returns into a
 * `User`, building the dictionary an update sends, and the checks `signIn` makes around the
 * service calls. Every service call is an oracle argument.
 */
module Cognito {
  import opened Common
  import opened JsNumbers
  import opened Types
  import opened Dictionaries
  import AuthContext

  const PasswordNotStringMessage := "Password must be a valid string for signIn."
  const NotSignedInMessage := "User not fully signed in, more steps required."

  /** `attributes[key] || fallback` */
  function AttrOr(attributes: map<string, string>, key: string, fallback: string): string
  {
    if Get(attributes, key) != "" then Get(attributes, key) else fallback
  }

  /** The completeness flag as Cognito computes it: the four attributes are non-empty text. */
  predicate AttributesComplete(attributes: map<string, string>)
  {
    && Get(attributes, "given_name") != ""
    && Get(attributes, "family_name") != ""
    && Get(attributes, "preferred_username") != ""
    && Get(attributes, "custom:age") != ""
  }

  /** An attribute that is missing or empty. */
  predicate Absent(attributes: map<string, string>, key: string)
  {
    key !in attributes || attributes[key] == ""
  }

  /** An attribute that holds a non-empty run of decimal digits. */
  predicate DigitsAt(attributes: map<string, string>, key: string)
  {
    key in attributes && attributes[key] != [] && AllDigits(attributes[key])
  }

  /**
   * `mapCognitoUserToAppUser(userId, attributes)`; `now` is the timestamp the function reads from
   * the clock for `lastLoginAt` and for a missing `created_at`.
   */
  function MapCognitoUserToAppUser(userId: string, attributes: map<string, string>, now: string): (u: User)
    ensures u.id == userId && u.lastLoginAt == now && u.avatar.None?
    ensures u.isProfileComplete == Some(AttributesComplete(attributes))
    ensures Absent(attributes, "custom:age") <==> u.age.None?
    ensures !Absent(attributes, "custom:age") ==> u.age == Some(ParseInt(attributes["custom:age"]))
  {
    User(
      userId,
      AttrOr(attributes, "email", ""),
      AttrOr(attributes, "given_name", ""),
      AttrOr(attributes, "family_name", ""),
      None,
      ParseInt(AttrOr(attributes, "custom:level", "1")),
      AttrOr(attributes, "custom:rank", "Beginner"),
      ParseInt(AttrOr(attributes, "custom:totalPoints", "0")),
      ParseInt(AttrOr(attributes, "custom:streak", "0")),
      ParseInt(AttrOr(attributes, "custom:hoursLearned", "0")),
      ParseInt(AttrOr(attributes, "custom:problemsSolved", "0")),
      AttrOr(attributes, "created_at", now),
      now,
      Some(AttrOr(attributes, "middle_name", "")),
      Some(AttrOr(attributes, "preferred_username", "")),
      if Get(attributes, "custom:age") != "" then Some(ParseInt(attributes["custom:age"])) else None,
      Some(AttrOr(attributes, "custom:country", "")),
      Some(AttrOr(attributes, "custom:language", "")),
      Some(AttrOr(attributes, "custom:school", "")),
      Some(AttrOr(attributes, "custom:grade", "")),
      Some(AttributesComplete(attributes)))
  }

  /** Email and names: a missing or empty attribute reads as "", a present one as stored. */
  lemma MapNames(userId: string, attributes: map<string, string>, now: string)
    ensures var u := MapCognitoUserToAppUser(userId, attributes, now);
      && (Absent(attributes, "email") ==> u.email == "")
      && (!Absent(attributes, "email") ==> u.email == attributes["email"])
      && (Absent(attributes, "given_name") ==> u.firstName == "")
      && (!Absent(attributes, "given_name") ==> u.firstName == attributes["given_name"])
      && (Absent(attributes, "family_name") ==> u.lastName == "")
      && (!Absent(attributes, "family_name") ==> u.lastName == attributes["family_name"])
      && (Absent(attributes, "middle_name") ==> u.middleName == Some(""))
      && (!Absent(attributes, "middle_name") ==> u.middleName == Some(attributes["middle_name"]))
      && (Absent(attributes, "preferred_username") ==> u.preferredUsername == Some(""))
      && (!Absent(attributes, "preferred_username") ==>
            u.preferredUsername == Some(attributes["preferred_username"]))
  {
  }

  /** Country, language, school and grade: missing or empty reads as "", present as stored. */
  lemma MapPlaces(userId: string, attributes: map<string, string>, now: string)
    ensures var u := MapCognitoUserToAppUser(userId, attributes, now);
      && (Absent(attributes, "custom:country") ==> u.country == Some(""))
      && (!Absent(attributes, "custom:country") ==> u.country == Some(attributes["custom:country"]))
      && (Absent(attributes, "custom:language") ==> u.language == Some(""))
      && (!Absent(attributes, "custom:language") ==> u.language == Some(attributes["custom:language"]))
      && (Absent(attributes, "custom:school") ==> u.school == Some(""))
      && (!Absent(attributes, "custom:school") ==> u.school == Some(attributes["custom:school"]))
      && (Absent(attributes, "custom:grade") ==> u.grade == Some(""))
      && (!Absent(attributes, "custom:grade") ==> u.grade == Some(attributes["custom:grade"]))
  {
  }

  /** Rank and creation time: `Beginner` and the clock value by default, otherwise as stored. */
  lemma MapRankAndCreation(userId: string, attributes: map<string, string>, now: string)
    ensures var u := MapCognitoUserToAppUser(userId, attributes, now);
      && (Absent(attributes, "custom:rank") ==> u.rank == "Beginner")
      && (!Absent(attributes, "custom:rank") ==> u.rank == attributes["custom:rank"])
      && (Absent(attributes, "created_at") ==> u.createdAt == now)
      && (!Absent(attributes, "created_at") ==> u.createdAt == attributes["created_at"])
  {
  }

  /**
   * Counters: a missing counter reads as level 1 and 0 for the others, and a counter stored as
   * decimal digits reads as its base-10 value.
   */
  lemma CounterDefaults(userId: string, attributes: map<string, string>, now: string)
    ensures var u := MapCognitoUserToAppUser(userId, attributes, now);
      && (Absent(attributes, "custom:level") ==> u.level == Int(1))
      && (Absent(attributes, "custom:totalPoints") ==> u.totalPoints == Int(0))
      && (Absent(attributes, "custom:streak") ==> u.streak == Int(0))
      && (Absent(attributes, "custom:hoursLearned") ==> u.hoursLearned == Int(0))
      && (Absent(attributes, "custom:problemsSolved") ==> u.problemsSolved == Int(0))
  {
    ParseDigits("1");
    ParseDigits("0");
    assert ParseInt("1") == Int(1) && ParseInt("0") == Int(0);
  }

  lemma CounterDigits(userId: string, attributes: map<string, string>, now: string)
    ensures var u := MapCognitoUserToAppUser(userId, attributes, now);
      && (DigitsAt(attributes, "custom:level") ==>
            u.level == Int(DecimalValue(attributes["custom:level"])))
      && (DigitsAt(attributes, "custom:totalPoints") ==>
            u.totalPoints == Int(DecimalValue(attributes["custom:totalPoints"])))
      && (DigitsAt(attributes, "custom:streak") ==>
            u.streak == Int(DecimalValue(attributes["custom:streak"])))
      && (DigitsAt(attributes, "custom:hoursLearned") ==>
            u.hoursLearned == Int(DecimalValue(attributes["custom:hoursLearned"])))
      && (DigitsAt(attributes, "custom:problemsSolved") ==>
            u.problemsSolved == Int(DecimalValue(attributes["custom:problemsSolved"])))
      && (DigitsAt(attributes, "custom:age") ==>
            u.age == Some(Int(DecimalValue(attributes["custom:age"]))))
  {
    forall key | DigitsAt(attributes, key)
      ensures ParseInt(attributes[key]) == Int(DecimalValue(attributes[key]))
    {
      ParseDigits(attributes[key]);
    }
  }

  /**
   * `getCurrentUser()`: `lookup` is how reading the signed-in user's id and attributes ended.
   * Any failure yields no user; it never throws.
   */
  function GetCurrentUser(lookup: Result<(string, map<string, string>)>, now: string): (r: Option<User>)
    ensures r.None? <==> lookup.Failure?
    ensures lookup.Success? ==> r == Some(MapCognitoUserToAppUser(lookup.value.0, lookup.value.1, now))
  {
    match lookup
    case Success((userId, attributes)) => Some(MapCognitoUserToAppUser(userId, attributes, now))
    case Failure(_) => None
  }

  /**
   * The Cognito completeness flag never claims less than the profile rule: every profile the
   * rule calls complete is flagged complete. The converse fails: an age stored as "0" is
   * non-empty text, so Cognito flags the profile complete, but parses to the falsy 0.
   */
  lemma CompletenessRuleImpliesFlag(userId: string, attributes: map<string, string>, now: string)
    ensures AuthContext.CheckProfileCompletion(Some(MapCognitoUserToAppUser(userId, attributes, now)))
            ==> AttributesComplete(attributes)
  {
  }

  lemma FlagDoesNotImplyRule()
    ensures var attributes := map["given_name" := "Ada", "family_name" := "Lovelace",
                                  "preferred_username" := "ada", "custom:age" := "0"];
            var u := MapCognitoUserToAppUser("id", attributes, "now");
            u.isProfileComplete == Some(true) && !AuthContext.CheckProfileCompletion(Some(u))
  {
    var attributes := map["given_name" := "Ada", "family_name" := "Lovelace",
                          "preferred_username" := "ada", "custom:age" := "0"];
    assert AttributesComplete(attributes);
    ParseDigits("0");
    assert MapCognitoUserToAppUser("id", attributes, "now").age == Some(Int(0));
  }

  /** The attributes an update may write, in the order the source writes them. */
  const WritableKeys: seq<string> :=
    ["given_name", "family_name", "middle_name", "preferred_username", "custom:age",
     "custom:country", "custom:language", "custom:school", "custom:grade"]

  /** The name each profile field is written under, paired with the text written for it. */
  function Entries(p: UserPatch): seq<(string, string)>
  {
    [("given_name", TextOf(p.firstName)), ("family_name", TextOf(p.lastName)),
     ("middle_name", TextOf(p.middleName)), ("preferred_username", TextOf(p.preferredUsername)),
     ("custom:age", AgeText(p.age)), ("custom:country", TextOf(p.country)),
     ("custom:language", TextOf(p.language)), ("custom:school", TextOf(p.school)),
     ("custom:grade", TextOf(p.grade))]
  }


  /** The dictionary an update sends. */
  function AttributesFor(p: UserPatch): map<string, string>
  {
    Written(Entries(p))
  }

  lemma EntriesDistinct(p: UserPatch)
    ensures DistinctNames(Entries(p)) && Names(Entries(p)) == WritableKeys
  {
  }

  /**
   * The update writes a key exactly when its field is truthy, under the fixed name mapping, and
   * no other key; each value is the field's text, the age as its decimal text.
   */
  lemma AttributesForSpec(p: UserPatch)
    ensures forall k :: k in AttributesFor(p) ==> k in WritableKeys
    ensures forall i :: 0 <= i < |Entries(p)| ==>
      (Entries(p)[i].0 in AttributesFor(p) <==> Entries(p)[i].1 != "")
      && (Entries(p)[i].1 != "" ==> AttributesFor(p)[Entries(p)[i].0] == Entries(p)[i].1)
  {
    EntriesDistinct(p);
    forall k | k in AttributesFor(p) ensures k in WritableKeys {
      WrittenSpec(Entries(p), k);
      var i :| 0 <= i < |Entries(p)| && Entries(p)[i].0 == k && Entries(p)[i].1 != "";
      assert Names(Entries(p))[i] == k;
    }
    forall i | 0 <= i < |Entries(p)|
      ensures (Entries(p)[i].0 in AttributesFor(p) <==> Entries(p)[i].1 != "")
              && (Entries(p)[i].1 != "" ==> AttributesFor(p)[Entries(p)[i].0] == Entries(p)[i].1)
    {
      WrittenSpec(Entries(p), Entries(p)[i].0);
    }
  }

  /**
   * `updateCognitoUserAttributes(attributes)`: builds the dictionary entry by entry and sends it;
   * `update` is how `updateUserAttributes` ended, and a failure is rethrown.
   */
  method UpdateCognitoUserAttributes(attributes: UserPatch, update: Outcome)
    returns (sent: map<string, string>, outcome: Outcome)
    ensures sent == AttributesFor(attributes)
    ensures outcome == update
  {
    var cognitoAttributes: map<string, string> := map[];
    ghost var entries := Entries(attributes);
    assert entries[..0] == [];
    cognitoAttributes := Put(cognitoAttributes, "given_name", TextOf(attributes.firstName));
    WrittenSnoc(entries, 0);
    cognitoAttributes := Put(cognitoAttributes, "family_name", TextOf(attributes.lastName));
    WrittenSnoc(entries, 1);
    cognitoAttributes := Put(cognitoAttributes, "middle_name", TextOf(attributes.middleName));
    WrittenSnoc(entries, 2);
    cognitoAttributes := Put(cognitoAttributes, "preferred_username", TextOf(attributes.preferredUsername));
    WrittenSnoc(entries, 3);
    cognitoAttributes := Put(cognitoAttributes, "custom:age", AgeText(attributes.age));
    WrittenSnoc(entries, 4);
    cognitoAttributes := Put(cognitoAttributes, "custom:country", TextOf(attributes.country));
    WrittenSnoc(entries, 5);
    cognitoAttributes := Put(cognitoAttributes, "custom:language", TextOf(attributes.language));
    WrittenSnoc(entries, 6);
    cognitoAttributes := Put(cognitoAttributes, "custom:school", TextOf(attributes.school));
    WrittenSnoc(entries, 7);
    cognitoAttributes := Put(cognitoAttributes, "custom:grade", TextOf(attributes.grade));
    WrittenSnoc(entries, 8);
    assert entries[..9] == entries;
    sent := cognitoAttributes;
    outcome := update;
  }

  /** Reading an attribute back after the update's dictionary is merged into the stored ones. */
  lemma ReadWritten(stored: map<string, string>, p: UserPatch, i: int)
    requires 0 <= i < |Entries(p)|
    ensures var merged, (key, text) := stored + AttributesFor(p), Entries(p)[i];
      && (text != "" ==> key in merged && merged[key] == text)
      && (text == "" ==> Get(merged, key) == Get(stored, key))
  {
    AttributesForSpec(p);
  }

  /** An attribute the update never writes reads back as stored. */
  lemma ReadUnwritten(stored: map<string, string>, p: UserPatch, key: string)
    requires key !in WritableKeys
    ensures Get(stored + AttributesFor(p), key) == Get(stored, key)
  {
    AttributesForSpec(p);
  }

  /**
   * Write then read: after the update's dictionary is merged into the stored attributes, reading
   * the user back returns each name the update wrote.
   */
  lemma WriteThenReadNames(userId: string, stored: map<string, string>, p: UserPatch, now: string)
    ensures var u := MapCognitoUserToAppUser(userId, stored + AttributesFor(p), now);
      && (TruthyText(p.firstName) ==> u.firstName == p.firstName.value)
      && (TruthyText(p.lastName) ==> u.lastName == p.lastName.value)
      && (TruthyText(p.middleName) ==> u.middleName == p.middleName)
      && (TruthyText(p.preferredUsername) ==> u.preferredUsername == p.preferredUsername)
  {
    ReadWritten(stored, p, 0);
    ReadWritten(stored, p, 1);
    ReadWritten(stored, p, 2);
    ReadWritten(stored, p, 3);
  }

  /** Write then read for the age: a truthy age reads back as the same number. */
  lemma WriteThenReadAge(userId: string, stored: map<string, string>, p: UserPatch, now: string)
    ensures var u := MapCognitoUserToAppUser(userId, stored + AttributesFor(p), now);
      TruthyNum(p.age) ==> u.age == p.age
  {
    ReadWritten(stored, p, 4);
    if TruthyNum(p.age) {
      ParseIntToString(p.age.value.value);
    }
  }

  /** Write then read for the country, language, school and grade. */
  lemma WriteThenReadPlaces(userId: string, stored: map<string, string>, p: UserPatch, now: string)
    ensures var u := MapCognitoUserToAppUser(userId, stored + AttributesFor(p), now);
      && (TruthyText(p.country) ==> u.country == p.country)
      && (TruthyText(p.language) ==> u.language == p.language)
      && (TruthyText(p.school) ==> u.school == p.school)
      && (TruthyText(p.grade) ==> u.grade == p.grade)
  {
    ReadWritten(stored, p, 5);
    ReadWritten(stored, p, 6);
    ReadWritten(stored, p, 7);
    ReadWritten(stored, p, 8);
  }

  /** Names the update leaves out read back as they were stored. */
  lemma WriteThenReadUntouchedNames(userId: string, stored: map<string, string>, p: UserPatch, now: string)
    ensures var u := MapCognitoUserToAppUser(userId, stored + AttributesFor(p), now);
            var before := MapCognitoUserToAppUser(userId, stored, now);
      && (!TruthyText(p.firstName) ==> u.firstName == before.firstName)
      && (!TruthyText(p.lastName) ==> u.lastName == before.lastName)
      && (!TruthyText(p.middleName) ==> u.middleName == before.middleName)
      && (!TruthyText(p.preferredUsername) ==> u.preferredUsername == before.preferredUsername)
  {
    ReadWritten(stored, p, 0);
    ReadWritten(stored, p, 1);
    ReadWritten(stored, p, 2);
    ReadWritten(stored, p, 3);
  }

  /** An age the update leaves out reads back as it was stored. */
  lemma WriteThenReadUntouchedAge(userId: string, stored: map<string, string>, p: UserPatch, now: string)
    ensures var u := MapCognitoUserToAppUser(userId, stored + AttributesFor(p), now);
            var before := MapCognitoUserToAppUser(userId, stored, now);
      !TruthyNum(p.age) ==> u.age == before.age
  {
    ReadWritten(stored, p, 4);
  }

  /** Country, language, school and grade the update leaves out read back as they were stored. */
  lemma WriteThenReadUntouchedPlaces(userId: string, stored: map<string, string>, p: UserPatch, now: string)
    ensures var u := MapCognitoUserToAppUser(userId, stored + AttributesFor(p), now);
            var before := MapCognitoUserToAppUser(userId, stored, now);
      && (!TruthyText(p.country) ==> u.country == before.country)
      && (!TruthyText(p.language) ==> u.language == before.language)
      && (!TruthyText(p.school) ==> u.school == before.school)
      && (!TruthyText(p.grade) ==> u.grade == before.grade)
  {
    ReadWritten(stored, p, 5);
    ReadWritten(stored, p, 6);
    ReadWritten(stored, p, 7);
    ReadWritten(stored, p, 8);
  }

  /** Attributes the update never writes read back as they were stored. */
  lemma WriteThenReadUnwritten(userId: string, stored: map<string, string>, p: UserPatch, now: string)
    ensures var u := MapCognitoUserToAppUser(userId, stored + AttributesFor(p), now);
            var before := MapCognitoUserToAppUser(userId, stored, now);
      && u.email == before.email && u.rank == before.rank && u.createdAt == before.createdAt
      && u.level == before.level && u.totalPoints == before.totalPoints && u.streak == before.streak
      && u.hoursLearned == before.hoursLearned && u.problemsSolved == before.problemsSolved
  {
    ReadUnwritten(stored, p, "email");
    ReadUnwritten(stored, p, "custom:rank");
    ReadUnwritten(stored, p, "created_at");
    ReadUnwritten(stored, p, "custom:level");
    ReadUnwritten(stored, p, "custom:totalPoints");
    ReadUnwritten(stored, p, "custom:streak");
    ReadUnwritten(stored, p, "custom:hoursLearned");
    ReadUnwritten(stored, p, "custom:problemsSolved");
  }

  /**
   * `signIn(email, password)` as written. `password` is None when the argument is not a string;
   * `amplifySignIn` is how the service call ended and what it reported as `isSignedIn`; `current`
   * is what `getCurrentUser()` returned afterwards, which may be null.
   */
  function SignIn(password: Option<string>, amplifySignIn: Result<bool>, current: Option<User>): (r: Result<Option<User>>)
    ensures password.None? ==> r == Failure(ErrorObject(PasswordNotStringMessage))
    ensures password.Some? && amplifySignIn.Failure? ==> r == Failure(amplifySignIn.thrown)
    ensures password.Some? && amplifySignIn == Success(false) ==> r == Failure(ErrorObject(NotSignedInMessage))
    ensures r.Success? <==> password.Some? && amplifySignIn == Success(true)
    ensures r.Success? ==> r.value == current
  {
    if password.None? then Failure(ErrorObject(PasswordNotStringMessage))
    else match amplifySignIn
      case Failure(e) => Failure(e)
      case Success(isSignedIn) =>
        if !isSignedIn then Failure(ErrorObject(NotSignedInMessage)) else Success(current)
  }

  /** As written, sign-in can resolve with no user at all when the follow-up lookup fails. */
  lemma SignInResolvesWithoutUser(pw: string)
    ensures SignIn(Some(pw), Success(true), None) == Success(None)
  {
  }

  /**
   * `signIn` as evidently intended: the promise of a `User` is kept, and a sign-in whose
   * follow-up lookup finds nobody rejects like an unfinished one.
   */
  function SignInChecked(password: Option<string>, amplifySignIn: Result<bool>, current: Option<User>): (r: Result<User>)
    ensures r.Success? <==> SignIn(password, amplifySignIn, current).Success? && current.Some?
    ensures r.Success? ==> r.value == current.value
    ensures SignIn(password, amplifySignIn, current).Failure? ==> r.Failure? && r.thrown == SignIn(password, amplifySignIn, current).thrown
    ensures SignIn(password, amplifySignIn, current) == Success(None) ==> r == Failure(ErrorObject(NotSignedInMessage))
  {
    match SignIn(password, amplifySignIn, current)
    case Failure(e) => Failure(e)
    case Success(found) =>
      if found.Some? then Success(found.value) else Failure(ErrorObject(NotSignedInMessage))
  }
}

/**
 * The records the application passes around. `User` declares, beside the fields of the
 * `User` interface, the optional profile fields that the auth context and the Cognito mapping
 * read and write (middle name, preferred username, age, country, language, school, grade and
 * the completeness flag).
 */
module Types {
  import opened Common
  import opened JsNumbers

  datatype User = User(
    id: string,
    email: string,
    firstName: string,
    lastName: string,
    avatar: Option<string>,
    level: Num,
    rank: string,
    totalPoints: Num,
    streak: Num,
    hoursLearned: Num,
    problemsSolved: Num,
    createdAt: string,
    lastLoginAt: string,
    middleName: Option<string>,
    preferredUsername: Option<string>,
    age: Option<Num>,
    country: Option<string>,
    language: Option<string>,
    school: Option<string>,
    grade: Option<string>,
    isProfileComplete: Option<bool>)

  /** `Partial<User>`: every field may be left out (None). */
  datatype UserPatch = UserPatch(
    id: Option<string>,
    email: Option<string>,
    firstName: Option<string>,
    lastName: Option<string>,
    avatar: Option<string>,
    level: Option<Num>,
    rank: Option<string>,
    totalPoints: Option<Num>,
    streak: Option<Num>,
    hoursLearned: Option<Num>,
    problemsSolved: Option<Num>,
    createdAt: Option<string>,
    lastLoginAt: Option<string>,
    middleName: Option<string>,
    preferredUsername: Option<string>,
    age: Option<Num>,
    country: Option<string>,
    language: Option<string>,
    school: Option<string>,
    grade: Option<string>,
    isProfileComplete: Option<bool>)

  /** The empty patch `{}`. */
  const NoChanges: UserPatch :=
    UserPatch(None, None, None, None, None, None, None, None, None, None, None, None, None,
              None, None, None, None, None, None, None, None)

  datatype Difficulty = Easy | Medium | Hard

  datatype ProblemStatus = Pending | Solved | Failed

  datatype ProblemEntry = ProblemEntry(
    id: string,
    userId: string,
    title: string,
    description: string,
    subject: string,
    difficulty: Difficulty,
    tags: seq<string>,
    submittedAt: string,
    solvedAt: Option<string>,
    solution: Option<string>,
    imageUrl: Option<string>,
    status: ProblemStatus)
}

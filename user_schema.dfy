/** The User document: the role and skill enums, the name and password bounds, the lower-cased
    e-mail address and its pattern, and the availability defaults. */
module UserSchema {
  import opened Common
  import opened ServiceSchema

  // ---------------------------------------------------------------- e-mail pattern

  /** The regular-expression class `\w`. */
  predicate WordChar(c: char)
  {
    ('a' <= c <= 'z') || ('A' <= c <= 'Z') || ('0' <= c <= '9') || c == '_'
  }

  /** The class `[.-]`. */
  predicate Sep(c: char)
  {
    c == '.' || c == '-'
  }

  /** `(\w | [.-]\w)*`, which is what `([.-]?\w+)*` matches once a `\w` has been read. */
  predicate RunsTail(t: string)
    decreases |t|
  {
    || t == []
    || (WordChar(t[0]) && RunsTail(t[1..]))
    || (|t| >= 2 && Sep(t[0]) && WordChar(t[1]) && RunsTail(t[2..]))
  }

  /** `\w+([.-]?\w+)*`: the local part, and the domain before its final labels. */
  predicate Runs(s: string)
  {
    |s| >= 1 && WordChar(s[0]) && RunsTail(s[1..])
  }

  /** `(\.\w{2,3})+`: one or more labels of two or three word characters, each after a dot. */
  predicate Labels(t: string)
    decreases |t|
  {
    || (|t| >= 3 && t[0] == '.' && WordChar(t[1]) && WordChar(t[2]) && (t[3..] == [] || Labels(t[3..])))
    || (|t| >= 4 && t[0] == '.' && WordChar(t[1]) && WordChar(t[2]) && WordChar(t[3]) &&
        (t[4..] == [] || Labels(t[4..])))
  }

  /** The `match` validator of `email`: `^\w+([.-]?\w+)*@\w+([.-]?\w+)*(\.\w{2,3})+$`, read as
      a split of the whole string into a local part, an `@`, a domain and its final labels. */
  predicate EmailPattern(s: string)
  {
    exists i, j :: 0 <= i < j <= |s| && s[i] == '@' && Runs(s[..i]) && Runs(s[i + 1..j]) && Labels(s[j..])
  }

  /** A string matched by `([.-]?\w+)*` is made of word characters and separators, never holds two
      separators in a row, and does not end with a separator. */
  lemma {:induction false} RunsTailShape(t: string)
    requires RunsTail(t)
    ensures forall k :: 0 <= k < |t| ==> WordChar(t[k]) || Sep(t[k])
    ensures forall k :: 0 <= k < |t| - 1 && Sep(t[k]) ==> WordChar(t[k + 1])
    ensures t != [] ==> WordChar(t[|t| - 1])
    decreases |t|
  {
    if t == [] {
    } else if WordChar(t[0]) && RunsTail(t[1..]) {
      RunsTailShape(t[1..]);
      assert forall k :: 1 <= k < |t| ==> t[k] == t[1..][k - 1];
    } else {
      RunsTailShape(t[2..]);
      assert forall k :: 2 <= k < |t| ==> t[k] == t[2..][k - 2];
    }
  }

  /** `\w+([.-]?\w+)*` matches exactly the non-empty strings over `\w` and `[.-]` that start and
      end with a word character and never hold two separators in a row. */
  lemma RunsShape(s: string)
    requires Runs(s)
    ensures WordChar(s[0]) && WordChar(s[|s| - 1])
    ensures forall k :: 0 <= k < |s| ==> WordChar(s[k]) || Sep(s[k])
    ensures forall k :: 0 <= k < |s| - 1 && Sep(s[k]) ==> WordChar(s[k + 1])
  {
    RunsTailShape(s[1..]);
    assert forall k :: 1 <= k < |s| ==> s[k] == s[1..][k - 1];
  }

  /** The final labels are made of word characters and dots and start with a dot. */
  lemma {:induction false} LabelsShape(t: string)
    requires Labels(t)
    ensures |t| >= 3 && t[0] == '.'
    ensures forall k :: 0 <= k < |t| ==> WordChar(t[k]) || t[k] == '.'
    decreases |t|
  {
    if |t| >= 3 && t[0] == '.' && WordChar(t[1]) && WordChar(t[2]) && (t[3..] == [] || Labels(t[3..])) {
      if t[3..] != [] {
        LabelsShape(t[3..]);
        assert forall k :: 3 <= k < |t| ==> t[k] == t[3..][k - 3];
      }
    } else {
      if t[4..] != [] {
        LabelsShape(t[4..]);
        assert forall k :: 4 <= k < |t| ==> t[k] == t[4..][k - 4];
      }
    }
  }

  /** A matching address holds exactly one `@`, so its local part and domain are determined. */
  lemma EmailSingleAt(s: string, i: int, j: int)
    requires 0 <= i < j <= |s| && s[i] == '@' && Runs(s[..i]) && Runs(s[i + 1..j]) && Labels(s[j..])
    ensures forall k :: 0 <= k < |s| && s[k] == '@' ==> k == i
  {
    RunsShape(s[..i]);
    RunsShape(s[i + 1..j]);
    LabelsShape(s[j..]);
  }

  /** An address whose domain has no dot, such as `user@localhost`, is refused. */
  lemma NoDotRefused(s: string, i: int)
    requires 0 <= i < |s| && s[i] == '@'
    requires forall k :: i < k < |s| ==> s[k] != '.'
    ensures !EmailPattern(s)
  {
    if EmailPattern(s) {
      var i', j :| 0 <= i' < j <= |s| && s[i'] == '@' && Runs(s[..i']) && Runs(s[i' + 1..j]) && Labels(s[j..]);
      EmailSingleAt(s, i', j);
      LabelsShape(s[j..]);
      assert false;
    }
  }

  /** The seeded administrator address matches. */
  lemma SeedAddressMatches()
    ensures EmailPattern("admin@cleanpro.com")
  {
    var s := "admin@cleanpro.com";
    SeedParts();
    assert s[..5] == "admin";
    assert s[6..14] == "cleanpro";
    assert s[14..] == ".com";
    assert s[5] == '@';
  }

  /** The local part, the domain and the final label of the seeded address, one by one. */
  lemma SeedParts()
    ensures Runs("admin") && Runs("cleanpro") && Labels(".com")
  {
    WordRunsOf("admin");
    WordRunsOf("cleanpro");
    var t := ".com";
    assert t[0] == '.' && t[1] == 'c' && t[2] == 'o' && t[3] == 'm' && t[4..] == [];
  }

  /** A non-empty run of word characters matches `\w+([.-]?\w+)*`. */
  lemma WordRunsOf(s: string)
    requires s != [] && forall k :: 0 <= k < |s| ==> WordChar(s[k])
    ensures Runs(s)
  {
    WordTail(s[1..]);
  }

  lemma {:induction false} WordTail(t: string)
    requires forall k :: 0 <= k < |t| ==> WordChar(t[k])
    ensures RunsTail(t)
    decreases |t|
  {
    if t != [] {
      WordTail(t[1..]);
    }
  }

  /** Two separators in a row are refused in the local part. */
  lemma DoubleSeparatorRefused()
    ensures !Runs("a..b")
  {
    var s := "a..b";
    assert Sep(s[1]) && !WordChar(s[2]);
    if Runs(s) {
      RunsShape(s);
      assert false;
    }
  }

  // ---------------------------------------------------------------- lowercase

  /** The `lowercase` setter over ASCII letters. */
  function LowerChar(c: char): (d: char)
    ensures 'A' <= c <= 'Z' ==> 'a' <= d <= 'z'
    ensures !('A' <= c <= 'Z') ==> d == c
    ensures WordChar(c) <==> WordChar(d)
  {
    if 'A' <= c <= 'Z' then (c as int - 'A' as int + 'a' as int) as char else c
  }

  function Lower(s: string): (r: string)
    ensures |r| == |s|
    ensures forall k :: 0 <= k < |s| ==> r[k] == LowerChar(s[k])
  {
    seq(|s|, k requires 0 <= k < |s| => LowerChar(s[k]))
  }

  /** Lower-casing twice is lower-casing once, so a stored address is its own lower-case form. */
  lemma LowerIdempotent(s: string)
    ensures Lower(Lower(s)) == Lower(s)
  {
  }

  // ---------------------------------------------------------------- enums and defaults

  datatype Proficiency = Debutant | Intermediaire | Expert

  function ProficiencyName(p: Proficiency): string
  {
    match p
    case Debutant => "débutant"
    case Intermediaire => "intermédiaire"
    case Expert => "expert"
  }

  /** The `proficiency` enum check. */
  function ParseProficiency(x: string): (r: Option<Proficiency>)
    ensures r.Some? ==> ProficiencyName(r.value) == x
    ensures r.None? ==> forall p: Proficiency :: ProficiencyName(p) != x
  {
    if x == "débutant" then Some(Debutant)
    else if x == "intermédiaire" then Some(Intermediaire)
    else if x == "expert" then Some(Expert)
    else None
  }

  /** One entry of `skills`; the category is optional. */
  datatype Skill = Skill(category: Option<Category>, proficiency: Proficiency)

  /** A skill as submitted; absent fields are `None`. */
  datatype SkillInput = SkillInput(category: Option<string>, proficiency: Option<string>)

  /** The skill subdocument built from its input: the enums checked, `intermédiaire` by default. */
  function BuildSkill(input: SkillInput): (r: Option<Skill>)
    ensures r.Some? <==> ((input.category.Some? ==> ParseCategory(input.category.value).Some?) &&
                          (input.proficiency.Some? ==> ParseProficiency(input.proficiency.value).Some?))
    ensures r.Some? && input.proficiency.None? ==> r.value.proficiency == Intermediaire
    ensures r.Some? && input.category.None? ==> r.value.category == None
    ensures r.Some? && input.category.Some? ==> r.value.category.Some? && CategoryName(r.value.category.value) == input.category.value
    ensures r.Some? && input.proficiency.Some? ==> ProficiencyName(r.value.proficiency) == input.proficiency.value
  {
    var category := if input.category.Some? then ParseCategory(input.category.value) else Some(Maison);
    var proficiency := if input.proficiency.Some? then ParseProficiency(input.proficiency.value) else Some(Intermediaire);
    if category.None? || proficiency.None? then None
    else Some(Skill(if input.category.Some? then Some(category.value) else None, proficiency.value))
  }

  /** Every skill of a list is accepted, and the list built keeps its order. */
  function BuildSkills(inputs: seq<SkillInput>): (r: Option<seq<Skill>>)
    ensures r.Some? <==> forall k :: 0 <= k < |inputs| ==> BuildSkill(inputs[k]).Some?
    ensures r.Some? ==> |r.value| == |inputs| && forall k :: 0 <= k < |inputs| ==> Some(r.value[k]) == BuildSkill(inputs[k])
  {
    if inputs == [] then Some([])
    else
      match (BuildSkill(inputs[0]), BuildSkills(inputs[1..]))
      case (Some(first), Some(rest)) => Some([first] + rest)
      case _ => None
  }

  /** The `availability` subdocument. */
  datatype Availability = Availability(
    isAvailable: bool,
    availableDays: seq<string>,
    startTime: string,
    endTime: string,
    lastUpdated: Time)

  const DefaultDays: seq<string> := ["lundi", "mardi", "mercredi", "jeudi", "vendredi"]

  /** The availability of a new account: available Monday to Friday, 08:00 to 18:00. */
  function DefaultAvailability(now: Time): (r: Availability)
    ensures r.isAvailable && |r.availableDays| == 5 && r.availableDays[0] == "lundi" && r.availableDays[4] == "vendredi"
    ensures r.startTime == "08:00" && r.endTime == "18:00" && r.lastUpdated == now
  {
    Availability(true, DefaultDays, "08:00", "18:00", now)
  }

  // ---------------------------------------------------------------- the document

  const NameMaxLength := 50
  const PasswordMinLength := 6

  /** A user document. `password` is `None` in a document read without selecting it. */
  datatype User = User(
    name: string,
    email: string,
    phone: string,
    password: Option<string>,
    role: Role,
    address: Option<string>,
    skills: seq<Skill>,
    availability: Availability,
    createdAt: Time,
    isDeleted: DeletedFlag,
    deletedAt: Option<Time>)

  /** The e-mail validators applied after the `lowercase` setter. */
  predicate EmailValid(email: string)
  {
    email != "" && Lower(email) == email && EmailPattern(email)
  }

  /** The schema's constraints on a stored user. */
  predicate ValidUser(u: User)
  {
    && u.name != "" && |u.name| <= NameMaxLength && Trimmed(u.name)
    && EmailValid(u.email)
    && u.phone != ""
    && u.password.Some? && |u.password.value| >= PasswordMinLength
  }

  /** A document as a default read returns it: `select: false` leaves the password out. */
  function Selected(u: User): (r: User)
    ensures r.password == None
    ensures r == u.(password := None)
  {
    u.(password := None)
  }

  /** The body of `User.create` or `findByIdAndUpdate`; absent fields are `None`. */
  datatype UserInput = UserInput(
    name: Option<string>,
    email: Option<string>,
    phone: Option<string>,
    password: Option<string>,
    role: Option<string>,
    address: Option<string>,
    skills: Option<seq<SkillInput>>,
    availability: Option<Availability>)

  /** The validators that apply to a field when it is present, after the `trim` and `lowercase`
      setters: a non-empty name of at most 50 characters, a matching address, a non-empty phone,
      a password of at least 6 characters, a role and skills from their enums. */
  predicate InputValid(input: UserInput)
  {
    && (input.name.Some? ==> Trim(input.name.value) != "" && |Trim(input.name.value)| <= NameMaxLength)
    && (input.email.Some? ==> EmailValid(Lower(input.email.value)))
    && (input.phone.Some? ==> input.phone.value != "")
    && (input.password.Some? ==> |input.password.value| >= PasswordMinLength)
    && (input.role.Some? ==> ParseRole(input.role.value).Some?)
    && (input.skills.Some? ==> BuildSkills(input.skills.value).Some?)
  }

  /** The required fields of a new account are all present. */
  predicate UserRequiredPresent(input: UserInput)
  {
    input.name.Some? && input.email.Some? && input.phone.Some? && input.password.Some?
  }

  /** `User.create(body)`: the document with the schema defaults (role client, no skills, the
      default availability), or None when validation refuses the body. */
  function BuildUser(input: UserInput, now: Time): (r: Option<User>)
    ensures r.Some? <==> UserRequiredPresent(input) && InputValid(input)
    ensures r.Some? ==> ValidUser(r.value)
    ensures r.Some? ==> r.value.email == Lower(input.email.value) && r.value.name == Trim(input.name.value)
    ensures r.Some? && input.role.None? ==> r.value.role == Client
    ensures r.Some? && input.skills.None? ==> r.value.skills == []
    ensures r.Some? && input.availability.None? ==> r.value.availability == DefaultAvailability(now)
    ensures r.Some? ==> r.value.phone == input.phone.value && r.value.password == input.password
    ensures r.Some? ==> r.value.address == input.address
    ensures r.Some? && input.role.Some? ==> RoleName(r.value.role) == input.role.value
    ensures r.Some? && input.skills.Some? ==> Some(r.value.skills) == BuildSkills(input.skills.value)
    ensures r.Some? && input.availability.Some? ==> r.value.availability == input.availability.value
    ensures r.Some? ==> r.value.isDeleted == NotDeleted && r.value.deletedAt == None && r.value.createdAt == now
  {
    if UserRequiredPresent(input) && InputValid(input) then
      Some(User(
        Trim(input.name.value),
        Lower(input.email.value),
        input.phone.value,
        input.password,
        RoleWritten(input.role, Client),
        input.address,
        SkillsWritten(input.skills, []),
        Written(input.availability, DefaultAvailability(now)),
        now, NotDeleted, None))
    else None
  }

  /** The email an update leaves: the lower-cased body value when there is one. */
  function EmailWritten(field: Option<string>, stored: string): (e: string)
    ensures field.Some? ==> e == Lower(field.value)
    ensures field.None? ==> e == stored
  {
    if field.Some? then Lower(field.value) else stored
  }

  /** The role an update leaves: the one the body names, when it names one. */
  function RoleWritten(field: Option<string>, stored: Role): (role: Role)
    requires field.Some? ==> ParseRole(field.value).Some?
    ensures field.Some? ==> RoleName(role) == field.value
    ensures field.None? ==> role == stored
  {
    if field.Some? then ParseRole(field.value).value else stored
  }

  /** The skills an update leaves: the list built from the body, when it carries one. */
  function SkillsWritten(field: Option<seq<SkillInput>>, stored: seq<Skill>): (skills: seq<Skill>)
    requires field.Some? ==> BuildSkills(field.value).Some?
    ensures field.Some? ==> Some(skills) == BuildSkills(field.value)
    ensures field.None? ==> skills == stored
  {
    if field.Some? then BuildSkills(field.value).value else stored
  }

  /** `findByIdAndUpdate(id, body)` with the setters applied: the present fields overwrite the
      stored ones; the password is stored as given (the hashing hook runs only on `save`). */
  function ApplyUserPatch(u: User, patch: UserInput): (r: User)
    requires InputValid(patch)
    ensures r.isDeleted == u.isDeleted && r.deletedAt == u.deletedAt && r.createdAt == u.createdAt
    ensures patch == UserInput(None, None, None, None, None, None, None, None) ==> r == u
    ensures patch.name.Some? ==> r.name == Trim(patch.name.value)
    ensures patch.name.None? ==> r.name == u.name
    ensures patch.email.Some? ==> r.email == Lower(patch.email.value)
    ensures patch.email.None? ==> r.email == u.email
    ensures patch.phone.Some? ==> r.phone == patch.phone.value
    ensures patch.phone.None? ==> r.phone == u.phone
    ensures patch.password.Some? ==> r.password == patch.password
    ensures patch.password.None? ==> r.password == u.password
    ensures patch.role.Some? ==> RoleName(r.role) == patch.role.value
    ensures patch.role.None? ==> r.role == u.role
    ensures patch.address.Some? ==> r.address == patch.address
    ensures patch.address.None? ==> r.address == u.address
    ensures patch.skills.Some? ==> Some(r.skills) == BuildSkills(patch.skills.value)
    ensures patch.skills.None? ==> r.skills == u.skills
    ensures patch.availability.Some? ==> r.availability == patch.availability.value
    ensures patch.availability.None? ==> r.availability == u.availability
  {
    User(NameWritten(patch.name, u.name), EmailWritten(patch.email, u.email),
         Written(patch.phone, u.phone), WrittenOpt(patch.password, u.password),
         RoleWritten(patch.role, u.role), WrittenOpt(patch.address, u.address),
         SkillsWritten(patch.skills, u.skills), Written(patch.availability, u.availability),
         u.createdAt, u.isDeleted, u.deletedAt)
  }

  /** An update that passes the validators keeps a valid account valid. */
  lemma PatchKeepsValid(u: User, patch: UserInput)
    requires InputValid(patch) && ValidUser(u)
    ensures ValidUser(ApplyUserPatch(u, patch))
  {
    var r := ApplyUserPatch(u, patch);
    if patch.name.Some? {
      assert r.name == Trim(patch.name.value);
    }
  }

  /** An update carrying every field replaces the account's content exactly as creating it from
      that body would; only the creation time and the deletion state are kept. */
  lemma FullUserPatchRebuilds(u: User, patch: UserInput)
    requires InputValid(patch) && UserRequiredPresent(patch)
    requires patch.role.Some? && patch.address.Some? && patch.skills.Some? && patch.availability.Some?
    ensures BuildUser(patch, u.createdAt).Some?
    ensures ApplyUserPatch(u, patch) ==
      BuildUser(patch, u.createdAt).value.(isDeleted := u.isDeleted, deletedAt := u.deletedAt)
  {
  }

  /** `createdAt` as a sort key. */
  function UserCreatedAt(u: User): int
  {
    u.createdAt
  }

  /** `deletedAt` as a sort key; a null date sorts below every date. */
  function UserDeletedAt(u: User): int
  {
    match u.deletedAt
    case Some(t) => t
    case None => -1
  }
}

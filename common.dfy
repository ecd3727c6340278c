/** Vocabulary shared by the three document stores and their controllers. */
module Common {

  datatype Option<+T> = None | Some(value: T)

  /** Document identifiers (MongoDB ObjectIds) and timestamps (milliseconds since the epoch). */
  type Id = nat
  type Time = nat

  /** The three account roles of the `role` enum. */
  datatype Role = Client | Admin | Personnel

  function RoleName(r: Role): string
  {
    match r
    case Client => "client"
    case Admin => "admin"
    case Personnel => "personnel"
  }

  function ParseRole(x: string): (r: Option<Role>)
    ensures r.Some? ==> RoleName(r.value) == x
    ensures r.None? ==> forall role: Role :: RoleName(role) != x
  {
    if x == "client" then Some(Client)
    else if x == "admin" then Some(Admin)
    else if x == "personnel" then Some(Personnel)
    else None
  }

  /** The authenticated caller (`req.user`): its id and its role. */
  datatype Caller = Caller(id: Id, role: Role)

  /** The HTTP status codes the handlers answer with. `ServerError` is the catch block,
      reached here only through a schema validation or unique-index failure. */
  datatype HttpStatus = Ok | Created | BadRequest | Forbidden | NotFound | ServerError

  function Code(s: HttpStatus): nat
  {
    match s
    case Ok => 200
    case Created => 201
    case BadRequest => 400
    case Forbidden => 403
    case NotFound => 404
    case ServerError => 500
  }

  /** The stored `isDeleted` field: `false`, `true`, or missing from an older document. */
  datatype DeletedFlag = NotDeleted | Deleted | Unset

  /** The listing filter `$or: [{ isDeleted: false }, { isDeleted: { $exists: false } }]`. */
  predicate Visible(f: DeletedFlag)
  {
    f == NotDeleted || f == Unset
  }

  /** The JavaScript truthiness of `doc.isDeleted` (a missing field reads as `undefined`),
      which is also the `{ isDeleted: true }` query. */
  predicate IsDeleted(f: DeletedFlag)
  {
    f == Deleted
  }

  /** Each document is in exactly one of the default listings and the deleted listing. */
  lemma VisibleIffNotDeleted(f: DeletedFlag)
    ensures Visible(f) <==> !IsDeleted(f)
  {
  }

  /** The owner-or-admin test the booking handlers apply before acting on a booking. */
  predicate OwnerOrAdmin(caller: Caller, owner: Id)
  {
    owner == caller.id || caller.role == Admin
  }

  /** A handler's answer: a status and, on success, the record returned. */
  datatype Reply<T> = Reply(code: HttpStatus, data: Option<T>)

  /** The result of a state-changing handler: its status and the store afterwards. */
  datatype Outcome<T> = Outcome(code: HttpStatus, store: map<Id, T>)

  /** What an update leaves in one field: the body's value when it carries one, the stored one
      otherwise. */
  function Written<T>(field: Option<T>, stored: T): (r: T)
    ensures field.Some? ==> r == field.value
    ensures field.None? ==> r == stored
  {
    match field
    case Some(v) => v
    case None => stored
  }

  /** The same for a field that may itself be absent: a body that carries it replaces it. */
  function WrittenOpt<T>(field: Option<T>, stored: Option<T>): (r: Option<T>)
    ensures field.Some? ==> r == field
    ensures field.None? ==> r == stored
  {
    if field.Some? then field else stored
  }

  /** The name an update leaves: the trimmed body value when there is one. */
  function NameWritten(field: Option<string>, stored: string): (n: string)
    ensures field.Some? ==> n == Trim(field.value)
    ensures field.None? ==> n == stored
  {
    if field.Some? then Trim(field.value) else stored
  }

  /** `store` and `store'` agree everywhere except possibly at `id`, and have the same keys. */
  predicate OnlyAt<T(==)>(store: map<Id, T>, store': map<Id, T>, id: Id)
  {
    store'.Keys == store.Keys && forall k :: k in store && k != id ==> store'[k] == store[k]
  }

  /** The ASCII white space JavaScript's `trim` removes (the schema's `trim` option): space, tab,
      line feed, vertical tab, form feed and carriage return. */
  predicate Space(c: char)
  {
    c == ' ' || c == '\t' || c == '\n' || c == '\r' || c == '\U{000B}' || c == '\U{000C}'
  }

  /** No white space at either end: what the schema's `trim` option leaves. */
  predicate Trimmed(s: string)
  {
    s == [] || (!Space(s[0]) && !Space(s[|s| - 1]))
  }

  function TrimEnd(s: string): (r: string)
    ensures |r| <= |s| && r == s[..|r|]
    ensures r == [] || !Space(r[|r| - 1])
  {
    if s != [] && Space(s[|s| - 1]) then TrimEnd(s[..|s| - 1]) else s
  }

  /** What TrimEnd drops is white space only. */
  lemma {:induction false} TrimEndDropsSpaces(s: string)
    ensures forall i :: |TrimEnd(s)| <= i < |s| ==> Space(s[i])
  {
    if s != [] && Space(s[|s| - 1]) {
      TrimEndDropsSpaces(s[..|s| - 1]);
    }
  }

  /** `String.prototype.trim` over ASCII white space: leading white space is skipped, then
      TrimEnd drops the trailing white space. */
  function Trim(s: string): (r: string)
    ensures |r| <= |s|
    ensures Trimmed(r)
  {
    if s != [] && Space(s[0]) then Trim(s[1..]) else TrimEnd(s)
  }

  /** Trim keeps one contiguous piece of its input, starting at `i`, and drops only white space
      around it. */
  lemma {:induction false} TrimKeepsMiddle(s: string) returns (i: nat)
    ensures i + |Trim(s)| <= |s| && Trim(s) == s[i..i + |Trim(s)|]
    ensures forall k :: 0 <= k < i ==> Space(s[k])
    ensures forall k :: i + |Trim(s)| <= k < |s| ==> Space(s[k])
  {
    if s != [] && Space(s[0]) {
      var j := TrimKeepsMiddle(s[1..]);
      i := j + 1;
      assert Trim(s) == s[1..][j..j + |Trim(s)|];
      forall k | 0 < k < i
        ensures Space(s[k])
      {
        assert s[k] == s[1..][k - 1];
      }
      forall k | i + |Trim(s)| <= k < |s|
        ensures Space(s[k])
      {
        assert s[k] == s[1..][k - 1];
      }
    } else {
      TrimEndDropsSpaces(s);
      i := 0;
    }
  }

  /** A string with no white space at either end is left as it is. */
  lemma {:induction false} TrimmedFixed(s: string)
    requires Trimmed(s)
    ensures Trim(s) == s
  {
    assert TrimEnd(s) == s;
  }

  /** Trimming twice is trimming once, so the stored (trimmed) names are fixed points. */
  lemma TrimIdempotent(s: string)
    ensures Trim(Trim(s)) == Trim(s)
  {
    TrimmedFixed(Trim(s));
  }
}

/**
 * Shared vocabulary of the request handlers: optional request fields, the
 * error outcomes a handler answers with, the caller attached by the
 * authentication layer, and the JavaScript truthiness and case rules the
 * handlers rely on.
 */
module Common {

  /** A request field that may be absent (`undefined`) or a nullable column. */
  datatype Option<+T> = None | Some(value: T)

  /** Record identifiers (auto-incremented BIGINT columns). */
  type Id = nat

  /** Why a handler answered 400. */
  datatype Reason =
    | MissingFields        // a required request field is falsy
    | PeriodInactive       // the cash period is no longer active
    | AlreadySubmitted     // a PENDING or COMPLETE payment exists for (user, period)
    | ProofMissing         // a TRANSFER submission without an uploaded proof file
    | InvalidDecision      // a verification decision other than COMPLETE or REJECTED
    | NotPending           // verification of a transaction that is not PENDING
    | HasTransactions      // deleting a period that transactions reference
    | HasMembers           // deleting a division that users belong to
    | EmailExists          // an email already used by a stored user
    | CsvInvalid           // the CSV rows failed validation
    | DuplicateEmails      // the CSV repeats an email
    | FileMissing          // an upload handler was called without a file
    | ValidationError      // Sequelize validation (a validator or a not-null column) rejected the record

  /** The outcome of a handler that failed. */
  datatype Error =
    | BadRequest(reason: Reason)  // 400
    | Unauthorized                // 401
    | Forbidden                   // 403
    | NotFound                    // 404
    | DatabaseError               // 500: the database refused the statement (a value outside an ENUM column, a dangling foreign key)

  datatype Result<+T> = Ok(value: T) | Err(error: Error)

  /** The role of a user as loaded with its permissions. */
  datatype Role = Role(name: string, permissions: seq<string>)

  /** The authenticated user attached to a request (`req.user`). */
  datatype Caller = Caller(id: Id, roles: seq<Role>, position: string, divisionId: Option<Id>)

  /** `user.roles.some(r => r.name === 'ADMIN')`. */
  predicate IsAdmin(c: Caller)
  {
    exists i :: 0 <= i < |c.roles| && c.roles[i].name == "ADMIN"
  }

  /** JavaScript truthiness of an optional string field: absent and "" are falsy. */
  predicate TruthyStr(o: Option<string>)
  {
    o.Some? && o.value != ""
  }

  /** JavaScript truthiness of an optional number field: absent and 0 are falsy. */
  predicate TruthyInt(o: Option<int>)
  {
    o.Some? && o.value != 0
  }

  /** `x || 0` for an optional number. */
  function OrZero(o: Option<int>): int
  {
    if o.Some? then o.value else 0
  }

  /** `x || null` for an optional id: 0 and absent both give null. */
  function IdOrNull(o: Option<int>): (r: Option<int>)
    ensures r.Some? <==> TruthyInt(o)
    ensures r.Some? ==> r.value == o.value
  {
    if TruthyInt(o) then o else None
  }

  /** The characters JavaScript's `\s` and `String.prototype.trim` treat as white space. */
  predicate IsJsWhitespace(c: char)
  {
    c == ' ' || c == '\t' || c == '\n' || c == '\r' || c == '\U{000B}' || c == '\U{000C}'
    || c == '\U{00A0}' || c == '\U{1680}' || ('\U{2000}' <= c <= '\U{200A}')
    || c == '\U{2028}' || c == '\U{2029}' || c == '\U{202F}' || c == '\U{205F}'
    || c == '\U{3000}' || c == '\U{FEFF}'
  }

  /** `s.trim() === ''`: the string is empty or all white space. */
  predicate Blank(s: string)
  {
    forall i :: 0 <= i < |s| ==> IsJsWhitespace(s[i])
  }

  function UpperChar(c: char): char
  {
    if 'a' <= c <= 'z' then (c as int - 32) as char else c
  }

  function LowerChar(c: char): char
  {
    if 'A' <= c <= 'Z' then (c as int + 32) as char else c
  }

  /** `s.toUpperCase()` on the ASCII letters. */
  function ToUpper(s: string): (r: string)
    ensures |r| == |s|
    ensures forall i :: 0 <= i < |s| ==> r[i] == UpperChar(s[i])
  {
    seq(|s|, i requires 0 <= i < |s| => UpperChar(s[i]))
  }

  /** `s.toLowerCase()` on the ASCII letters. */
  function ToLower(s: string): (r: string)
    ensures |r| == |s|
    ensures forall i :: 0 <= i < |s| ==> r[i] == LowerChar(s[i])
  {
    seq(|s|, i requires 0 <= i < |s| => LowerChar(s[i]))
  }

  /** Lower-casing is idempotent, so a lower-cased email compares equal to itself lower-cased. */
  lemma ToLowerIdempotent(s: string)
    ensures ToLower(ToLower(s)) == ToLower(s)
  {
    assert forall i :: 0 <= i < |s| ==> LowerChar(LowerChar(s[i])) == LowerChar(s[i]);
  }
}

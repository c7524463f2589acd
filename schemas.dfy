/**
 * The request-body and query schemas (server/utils/schemas.ts), as
 * acceptance predicates and parsers. Email and UUID well-formedness are the
 * schema library's own; they are supplied as `Formats`.
 */
module Schemas {
  import opened Wrappers
  import opened Text

  /** The library's email and UUID checks. */
  datatype Formats = Formats(isEmail: string -> bool, isUuid: string -> bool)

  /** The JavaScript line terminators, which a regular-expression `.` does not match. */
  predicate IsLineTerminator(c: char)
  {
    c == '\n' || c == '\r' || c == '\U{2028}' || c == '\U{2029}'
  }

  /** No line terminator occurs in `s` before position `i`. */
  predicate OnFirstLine(s: string, i: nat)
    requires i <= |s|
  {
    forall j :: 0 <= j < i ==> !IsLineTerminator(s[j])
  }

  /** The lookahead `(?=.*[class])` at the start of `s`. */
  predicate LookaheadFinds(s: string, inClass: char -> bool)
  {
    exists i :: 0 <= i < |s| && inClass(s[i]) && OnFirstLine(s, i)
  }

  /**
   * The strong-password rule: at least eight characters, and a lowercase
   * letter, an uppercase letter and a digit before the first line break.
   */
  predicate StrongPassword(p: string)
  {
    && |p| >= 8
    && LookaheadFinds(p, IsLower)
    && LookaheadFinds(p, IsUpper)
    && LookaheadFinds(p, IsDigit)
  }

  /** The rule on three inputs: it needs each class, and a digit after a line break does not count. */
  lemma StrongPasswordExamples()
    ensures StrongPassword("Password1")
    ensures !StrongPassword("password1") && !StrongPassword("Pass1")
    ensures !StrongPassword("Pass\nword1")
  {
    assert IsLower("Password1"[1]) && OnFirstLine("Password1", 1);
    assert IsUpper("Password1"[0]) && OnFirstLine("Password1", 0);
    assert IsDigit("Password1"[8]) && OnFirstLine("Password1", 8);
    assert !LookaheadFinds("password1", IsUpper) by {
      forall i | 0 <= i < |"password1"| ensures !IsUpper("password1"[i]) {}
    }
    assert !LookaheadFinds("Pass\nword1", IsDigit) by {
      forall i | 0 <= i < |"Pass\nword1"| && IsDigit("Pass\nword1"[i])
        ensures !OnFirstLine("Pass\nword1", i)
      {
        assert i == 9;
        assert IsLineTerminator("Pass\nword1"[4]);
      }
    }
  }

  datatype RegisterBody = RegisterBody(email: string, password: string, name: Option<string>)
  datatype LoginBody = LoginBody(email: string, password: string)
  datatype CreateUserBody = CreateUserBody(
    email: string, password: string, name: Option<string>, roleIds: Option<seq<string>>)
  datatype UpdateUserBody = UpdateUserBody(
    email: Option<string>, name: Option<string>, isActive: Option<bool>, roleIds: Option<seq<string>>)
  datatype CreateRoleBody = CreateRoleBody(
    name: string, description: Option<string>, permissionIds: Option<seq<string>>)
  datatype UpdateRoleBody = UpdateRoleBody(
    name: Option<string>, description: Option<string>, permissionIds: Option<seq<string>>)

  /** An optional list of UUIDs: absent, or every element a UUID. */
  predicate OptionalUuids(fmt: Formats, ids: Option<seq<string>>)
  {
    ids.None? || forall i :: 0 <= i < |ids.value| ==> fmt.isUuid(ids.value[i])
  }

  /** `registerSchema`: the name is optional but non-empty when given. */
  predicate RegisterAccepts(fmt: Formats, b: RegisterBody)
  {
    fmt.isEmail(b.email) && StrongPassword(b.password) && (b.name.None? || |b.name.value| >= 1)
  }

  /** `loginSchema`: any non-empty password, no strength rule. */
  predicate LoginAccepts(fmt: Formats, b: LoginBody)
  {
    fmt.isEmail(b.email) && |b.password| >= 1
  }

  /** `createUserSchema`: the name may be any string. */
  predicate CreateUserAccepts(fmt: Formats, b: CreateUserBody)
  {
    fmt.isEmail(b.email) && StrongPassword(b.password) && OptionalUuids(fmt, b.roleIds)
  }

  /** `updateUserSchema`: every field optional. */
  predicate UpdateUserAccepts(fmt: Formats, b: UpdateUserBody)
  {
    (b.email.None? || fmt.isEmail(b.email.value)) && OptionalUuids(fmt, b.roleIds)
  }

  /** `createRoleSchema`. */
  predicate CreateRoleAccepts(fmt: Formats, b: CreateRoleBody)
  {
    |b.name| >= 1 && OptionalUuids(fmt, b.permissionIds)
  }

  /** `updateRoleSchema`: every field optional, a given name non-empty. */
  predicate UpdateRoleAccepts(fmt: Formats, b: UpdateRoleBody)
  {
    (b.name.None? || |b.name.value| >= 1) && OptionalUuids(fmt, b.permissionIds)
  }

  /**
   * What separates the schemas: a body `registerSchema` accepts passes
   * `loginSchema` with the same credentials, a weak password passes login
   * only, an empty register name is refused where the create-user name is not,
   * and the update schemas accept the empty body.
   */
  lemma SchemaRelations(fmt: Formats, email: string, password: string, name: Option<string>)
    ensures RegisterAccepts(fmt, RegisterBody(email, password, name)) ==>
              LoginAccepts(fmt, LoginBody(email, password))
    ensures fmt.isEmail(email) && password != "" && !StrongPassword(password) ==>
              LoginAccepts(fmt, LoginBody(email, password))
              && !RegisterAccepts(fmt, RegisterBody(email, password, name))
    ensures !RegisterAccepts(fmt, RegisterBody(email, password, Some("")))
    ensures fmt.isEmail(email) && StrongPassword(password) ==>
              CreateUserAccepts(fmt, CreateUserBody(email, password, Some(""), None))
    ensures UpdateUserAccepts(fmt, UpdateUserBody(None, None, None, None))
    ensures UpdateRoleAccepts(fmt, UpdateRoleBody(None, None, None))
    ensures !CreateRoleAccepts(fmt, CreateRoleBody("", None, None))
  {
  }

  /** A query parameter after `z.coerce.number()`: absent, not a number, or a number. */
  datatype RawNumber = Missing | NotANumber | Number(value: real)

  datatype PageQuery = PageQuery(page: RawNumber, limit: RawNumber, search: Option<string>)

  /** A validated page request. */
  datatype Pagination = Pagination(page: nat, limit: nat, search: Option<string>)

  predicate IsInteger(x: real) { x.Floor as real == x }

  /** `z.coerce.number().int().positive().max(max).default(default)` on one parameter. */
  function PositiveInt(raw: RawNumber, default: nat, max: Option<nat>): (r: Option<nat>)
    ensures r.Some? ==> r.value >= 1 || (raw.Missing? && r.value == default)
    ensures r.Some? && max.Some? && raw.Number? ==> r.value <= max.value
    ensures raw.Missing? ==> r == Some(default)
    ensures raw.NotANumber? ==> r.None?
    ensures raw.Number? ==>
              (r.Some? <==> IsInteger(raw.value) && raw.value > 0.0
                            && (max.None? || raw.value <= max.value as real))
    ensures raw.Number? && r.Some? ==> r.value as real == raw.value
  {
    match raw
    case Missing => Some(default)
    case NotANumber => None
    case Number(x) =>
      if IsInteger(x) && x > 0.0 && (max.None? || x <= max.value as real) then Some(x.Floor as nat)
      else None
  }

  /** `paginationSchema`: page a positive integer (default 1), limit one of 1..100 (default 10). */
  function ParsePagination(q: PageQuery): (r: Option<Pagination>)
    ensures r.Some? ==> r.value.page >= 1 && 1 <= r.value.limit <= 100 && r.value.search == q.search
    ensures q.page.Missing? && q.limit.Missing? ==> r == Some(Pagination(1, 10, q.search))
    ensures r.Some? <==> PositiveInt(q.page, 1, None).Some? && PositiveInt(q.limit, 10, Some(100)).Some?
  {
    match (PositiveInt(q.page, 1, None), PositiveInt(q.limit, 10, Some(100)))
    case (Some(page), Some(limit)) => Some(Pagination(page, limit, q.search))
    case _ => None
  }

  /** A fractional, a zero and an over-large limit are refused; 100 is accepted. */
  lemma PaginationBounds(search: Option<string>)
    ensures ParsePagination(PageQuery(Number(1.5), Missing, search)).None?
    ensures ParsePagination(PageQuery(Number(0.0), Missing, search)).None?
    ensures ParsePagination(PageQuery(Missing, Number(101.0), search)).None?
    ensures ParsePagination(PageQuery(Missing, Number(100.0), search)) == Some(Pagination(1, 100, search))
    ensures ParsePagination(PageQuery(NotANumber, Missing, search)).None?
  {
    assert !IsInteger(1.5) by { assert (1.5).Floor == 1; }
    assert IsInteger(100.0) by { assert (100.0).Floor == 100; }
  }

  /** The schema's `safeParse` for a body whose accepted value is the body itself. */
  function Accepting<B(!new)>(accepts: B -> bool): (parse: B -> Option<B>)
    ensures forall b :: parse(b) == if accepts(b) then Some(b) else None
  {
    (b: B) => if accepts(b) then Some(b) else None
  }
}

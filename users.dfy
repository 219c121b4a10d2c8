/** The `users` table shared by the sign-in callback, the user-management
  * modal, the administrator shell and the teen's home page. The table has no
  * key the client relies on: rows are found by email or by auth id. */
module Users {
  import opened Wrappers
  import opened Seqs

  datatype UserRow = UserRow(
    auth_id: Option<string>,
    username: Option<string>,
    email: Option<string>,
    userfirstName: Option<string>,
    userlastName: Option<string>,
    role: Option<string>,
    active: Option<bool>,
    privacy_agreement: Option<bool>,
    privacy_agreed_at: Option<string>,
    password: Option<string>)

  /** A text column is truthy when present and non-empty. */
  predicate Filled(v: Option<string>)
  {
    v.Some? && v.value != ""
  }

  function HasEmail(email: string): UserRow -> bool
  {
    (r: UserRow) => r.email == Some(email)
  }

  function HasAuthId(id: string): UserRow -> bool
  {
    (r: UserRow) => r.auth_id == Some(id)
  }

  /** The answer of `.maybeSingle()`: a store error or more than one match is
    * an error; no match is no row. */
  datatype Lookup = Found(row: UserRow) | NotFound | LookupError

  function MaybeSingle(matches: seq<UserRow>, fails: bool): (r: Lookup)
    ensures r.Found? <==> !fails && |matches| == 1
    ensures r.Found? ==> r.row == matches[0]
    ensures r == NotFound <==> !fails && |matches| == 0
  {
    if fails || |matches| > 1 then LookupError
    else if |matches| == 0 then NotFound
    else Found(matches[0])
  }

  /** `.update(f).eq(column, value)`: every row satisfying `p` is rewritten. */
  function UpdateWhere(rows: seq<UserRow>, p: UserRow -> bool, f: UserRow -> UserRow): (r: seq<UserRow>)
    ensures |r| == |rows|
    ensures forall i :: 0 <= i < |rows| ==> r[i] == if p(rows[i]) then f(rows[i]) else rows[i]
  {
    seq(|rows|, i requires 0 <= i < |rows| => if p(rows[i]) then f(rows[i]) else rows[i])
  }

  /** The `users` table, changed in place. Each request takes whether it
    * fails. */
  class UserTable {
    var rows: seq<UserRow>

    constructor (rows: seq<UserRow>)
      ensures this.rows == rows
    {
      this.rows := rows;
    }

    /** `.select(..).eq('email', email).maybeSingle()`. */
    method FindByEmail(email: string, fails: bool) returns (r: Lookup)
      ensures r == MaybeSingle(Filter(rows, HasEmail(email)), fails)
    {
      r := MaybeSingle(Filter(rows, HasEmail(email)), fails);
    }

    /** `.select(..).eq('auth_id', id).single()`: a row only when exactly one
      * matches. */
    method FindByAuthId(id: string, fails: bool) returns (r: Option<UserRow>)
      ensures r.Some? <==> !fails && |Filter(rows, HasAuthId(id))| == 1
      ensures r.Some? ==> r.value == Filter(rows, HasAuthId(id))[0]
    {
      var found := MaybeSingle(Filter(rows, HasAuthId(id)), fails);
      r := if found.Found? then Some(found.row) else None;
    }

    /** `.update(..).eq(..).select()`: returns the number of rows written. */
    method Update(p: UserRow -> bool, f: UserRow -> UserRow, fails: bool) returns (ok: bool, written: nat)
      modifies this
      ensures ok == !fails
      ensures rows == (if ok then UpdateWhere(old(rows), p, f) else old(rows))
      ensures written == (if ok then |Filter(old(rows), p)| else 0)
    {
      ok := !fails;
      written := 0;
      if ok {
        written := |Filter(rows, p)|;
        rows := UpdateWhere(rows, p, f);
      }
    }

    /** `.insert([row])`. */
    method Insert(row: UserRow, fails: bool) returns (ok: bool)
      modifies this
      ensures ok == !fails
      ensures rows == (if ok then old(rows) + [row] else old(rows))
    {
      ok := !fails;
      if ok {
        rows := rows + [row];
      }
    }
  }
}

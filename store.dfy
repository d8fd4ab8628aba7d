/** The hosted database as two abstract tables, `users` and `feedback`, and
    the handful of PostgREST operations the handlers issue against them:
    equality-filtered select with `.single()`, insert, update and delete.
    A backend failure is an input (`fault`) rather than something the model
    decides. */
module Store {
  import opened Common

  datatype Plan = Free | Pro | Lifetime

  /** The text stored in the `plan` column. */
  function PlanName(p: Plan): string {
    match p
    case Free => "free"
    case Pro => "pro"
    case Lifetime => "lifetime"
  }

  datatype UserRow = UserRow(id: string, email: string, plan: Plan)

  datatype FeedbackRow = FeedbackRow(
    id: string,
    name: string,
    email: string,
    message: string,
    siteUrl: Option<string>,
    userId: string,
    createdAt: int)

  /** An error object as the database client reports it. */
  datatype DbError = DbError(code: string, message: string)

  /** PostgREST's code for "the result is not exactly one row", what `.single()`
      reports when nothing (or more than one row) matches. */
  const NotFoundCode: string := "PGRST116"
  /** Postgres' code for a duplicate primary key. */
  const UniqueViolationCode: string := "23505"

  /** The equality filter of `.eq('id', …)` or `.eq('email', …)` on `users`. */
  datatype UserKey = ById(id: string) | ByEmail(email: string)

  predicate Selects(key: UserKey, u: UserRow) {
    match key
    case ById(i) => u.id == i
    case ByEmail(e) => u.email == e
  }

  /** The rows the filter `key` selects, in table order. */
  function Matching(rows: seq<UserRow>, key: UserKey): seq<UserRow> {
    Filter(rows, (u: UserRow) => Selects(key, u))
  }

  /** `.update({ plan }).eq(…)`: every selected row gets the new plan, every
      other row is left exactly as it was, and no row is added or removed. */
  function SetPlan(rows: seq<UserRow>, key: UserKey, plan: Plan): (r: seq<UserRow>)
    ensures |r| == |rows|
    ensures forall i :: 0 <= i < |rows| ==>
      r[i] == if Selects(key, rows[i]) then rows[i].(plan := plan) else rows[i]
  {
    if rows == [] then []
    else [if Selects(key, rows[0]) then rows[0].(plan := plan) else rows[0]] + SetPlan(rows[1..], key, plan)
  }

  /** An update whose filter selects nothing leaves the table as it was. */
  lemma {:induction false} SetPlanNoMatch(rows: seq<UserRow>, key: UserKey, plan: Plan)
    requires Matching(rows, key) == []
    ensures SetPlan(rows, key, plan) == rows
  {
    var r := SetPlan(rows, key, plan);
    forall i | 0 <= i < |rows| ensures r[i] == rows[i] {
      assert rows[i] in rows;
      assert !Selects(key, rows[i]);
    }
  }

  /** Ids and e-mail addresses never change under a plan update, so the
      uniqueness invariants survive it. */
  lemma SetPlanKeepsKeys(rows: seq<UserRow>, key: UserKey, plan: Plan)
    ensures var r := SetPlan(rows, key, plan);
      forall i :: 0 <= i < |rows| ==> r[i].id == rows[i].id && r[i].email == rows[i].email
  {
  }

  /** `.single()`: exactly one row is a result; none or several is the
      not-found error. */
  function Single<T>(rows: seq<T>): (r: Result<T, DbError>)
    ensures r.Success? <==> |rows| == 1
    ensures r.Success? ==> r.value == rows[0]
    ensures r.Failure? ==> r.error.code == NotFoundCode
  {
    if |rows| == 1 then Success(rows[0])
    else Failure(DbError(NotFoundCode, "JSON object requested, multiple (or no) rows returned"))
  }

  /** The result of an insert of `row` into `table`: the backend's own
      failure, a primary-key clash, or the stored row. */
  function Inserted<T>(row: T, idTaken: bool, fault: Option<DbError>, table: string): (r: Result<T, DbError>)
    ensures r.Success? <==> fault.None? && !idTaken
    ensures r.Success? ==> r.value == row
    ensures fault.Some? ==> r == Failure(fault.value)
  {
    if fault.Some? then Failure(fault.value)
    else if idTaken then
      Failure(DbError(UniqueViolationCode, "duplicate key value violates unique constraint \"" + table + "_pkey\""))
    else Success(row)
  }

  predicate IdTaken(rows: seq<UserRow>, id: string) {
    exists i :: 0 <= i < |rows| && rows[i].id == id
  }

  predicate FeedbackIdTaken(rows: seq<FeedbackRow>, id: string) {
    exists i :: 0 <= i < |rows| && rows[i].id == id
  }

  /** `id` is the primary key of `users`. */
  predicate UniqueIds(rows: seq<UserRow>) {
    forall i, j :: 0 <= i < j < |rows| ==> rows[i].id != rows[j].id
  }

  /** At most one user per e-mail address. */
  predicate UniqueEmails(rows: seq<UserRow>) {
    forall i, j :: 0 <= i < j < |rows| ==> rows[i].email != rows[j].email
  }

  lemma {:induction false} UniqueEmailsMatchAtMostOne(rows: seq<UserRow>, email: string)
    requires UniqueEmails(rows)
    ensures |Matching(rows, ByEmail(email))| <= 1
  {
    if rows != [] {
      var rest := rows[1..];
      assert UniqueEmails(rest) by {
        forall i, j | 0 <= i < j < |rest| ensures rest[i].email != rest[j].email {
          assert rest[i] == rows[i + 1] && rest[j] == rows[j + 1];
        }
      }
      UniqueEmailsMatchAtMostOne(rest, email);
      assert rows == [rows[0]] + rest;
      if rows[0].email == email {
        forall i | 0 <= i < |rest| ensures !Selects(ByEmail(email), rest[i]) {
          assert rest[i] == rows[i + 1];
        }
        FilterKeepsNone(rest, (u: UserRow) => Selects(ByEmail(email), u));
      }
    }
  }

  /** When exactly the row at `i` satisfies the filter, `.single()` finds it. */
  lemma {:induction false} MatchingSingleton(rows: seq<UserRow>, key: UserKey, i: nat)
    requires i < |rows| && Selects(key, rows[i])
    requires forall j :: 0 <= j < |rows| && j != i ==> !Selects(key, rows[j])
    ensures Matching(rows, key) == [rows[i]]
  {
    var rest := rows[1..];
    assert Matching(rows, key) == (if Selects(key, rows[0]) then [rows[0]] else []) + Matching(rest, key);
    if i == 0 {
      forall j | 0 <= j < |rest| ensures !Selects(key, rest[j]) {
        assert rest[j] == rows[j + 1];
      }
      FilterKeepsNone(rest, (u: UserRow) => Selects(key, u));
    } else {
      forall j | 0 <= j < |rest| && j != i - 1 ensures !Selects(key, rest[j]) {
        assert rest[j] == rows[j + 1];
      }
      MatchingSingleton(rest, key, i - 1);
    }
  }

  /** With unique ids, the lookup by a present id finds exactly that row. */
  lemma MatchingById(rows: seq<UserRow>, i: nat)
    requires UniqueIds(rows) && i < |rows|
    ensures Matching(rows, ById(rows[i].id)) == [rows[i]]
  {
    forall j | 0 <= j < |rows| && j != i ensures !Selects(ById(rows[i].id), rows[j]) {
      if j < i { assert rows[j].id != rows[i].id; } else { assert rows[i].id != rows[j].id; }
    }
    MatchingSingleton(rows, ById(rows[i].id), i);
  }

  /** With unique e-mails, the lookup by a present e-mail finds exactly that row. */
  lemma MatchingByEmail(rows: seq<UserRow>, i: nat)
    requires UniqueEmails(rows) && i < |rows|
    ensures Matching(rows, ByEmail(rows[i].email)) == [rows[i]]
  {
    forall j | 0 <= j < |rows| && j != i ensures !Selects(ByEmail(rows[i].email), rows[j]) {
      if j < i { assert rows[j].email != rows[i].email; } else { assert rows[i].email != rows[j].email; }
    }
    MatchingSingleton(rows, ByEmail(rows[i].email), i);
  }

  // ---------------------------------------------------------------------
  // Filters on the feedback table

  /** `.eq('user_id', owner)`: the rows of one owner, in table order. */
  function OwnedBy(rows: seq<FeedbackRow>, owner: string): (r: seq<FeedbackRow>)
    ensures forall f :: f in r <==> f in rows && f.userId == owner
  {
    Filter(rows, (f: FeedbackRow) => f.userId == owner)
  }

  /** Removing the rows with one id: exactly those rows go, and no other. */
  function WithoutId(rows: seq<FeedbackRow>, id: string): (r: seq<FeedbackRow>)
    ensures forall f :: f in r <==> f in rows && f.id != id
  {
    Filter(rows, (f: FeedbackRow) => f.id != id)
  }

  /** Deleting an id no row has leaves the list exactly as it was. */
  lemma WithoutAbsentId(rows: seq<FeedbackRow>, id: string)
    requires forall j :: 0 <= j < |rows| ==> rows[j].id != id
    ensures WithoutId(rows, id) == rows
  {
    FilterKeepsAll(rows, (f: FeedbackRow) => f.id != id);
  }

  /** The rows that remain keep their relative order. */
  lemma WithoutIdAppend(a: seq<FeedbackRow>, b: seq<FeedbackRow>, id: string)
    ensures WithoutId(a + b, id) == WithoutId(a, id) + WithoutId(b, id)
  {
    FilterAppend(a, b, (f: FeedbackRow) => f.id != id);
  }

  lemma OwnedByAppend(a: seq<FeedbackRow>, b: seq<FeedbackRow>, owner: string)
    ensures OwnedBy(a + b, owner) == OwnedBy(a, owner) + OwnedBy(b, owner)
  {
    FilterAppend(a, b, (f: FeedbackRow) => f.userId == owner);
  }

  /** Deleting by id and selecting by owner commute. */
  lemma {:induction false} WithoutIdOwnedBy(rows: seq<FeedbackRow>, id: string, owner: string)
    ensures WithoutId(OwnedBy(rows, owner), id) == OwnedBy(WithoutId(rows, id), owner)
  {
    if rows != [] {
      var x, rest := [rows[0]], rows[1..];
      assert rows == x + rest;
      WithoutIdOwnedBy(rest, id, owner);
      var keep := if rows[0].id != id && rows[0].userId == owner then x else [];
      assert WithoutId(OwnedBy(x, owner), id) == keep;
      assert OwnedBy(WithoutId(x, id), owner) == keep;
      calc {
        WithoutId(OwnedBy(rows, owner), id);
        { OwnedByAppend(x, rest, owner); }
        WithoutId(OwnedBy(x, owner) + OwnedBy(rest, owner), id);
        { WithoutIdAppend(OwnedBy(x, owner), OwnedBy(rest, owner), id); }
        keep + WithoutId(OwnedBy(rest, owner), id);
        keep + OwnedBy(WithoutId(rest, id), owner);
        { OwnedByAppend(WithoutId(x, id), WithoutId(rest, id), owner); }
        OwnedBy(WithoutId(x, id) + WithoutId(rest, id), owner);
        { WithoutIdAppend(x, rest, id); }
        OwnedBy(WithoutId(rows, id), owner);
      }
    }
  }

  // ---------------------------------------------------------------------
  // `.order('created_at', { ascending: false })`

  predicate NewestFirst(rows: seq<FeedbackRow>) {
    forall i, j :: 0 <= i < j < |rows| ==> rows[i].createdAt >= rows[j].createdAt
  }

  function InsertByDate(x: FeedbackRow, rows: seq<FeedbackRow>): (r: seq<FeedbackRow>)
    requires NewestFirst(rows)
    ensures NewestFirst(r)
    ensures multiset(r) == multiset(rows) + multiset{x}
    ensures |r| == |rows| + 1
    ensures r[0] == x || (rows != [] && r[0] == rows[0])
  {
    if rows == [] || rows[0].createdAt <= x.createdAt then [x] + rows
    else
      var rest := InsertByDate(x, rows[1..]);
      assert rows == [rows[0]] + rows[1..];
      assert rest[0].createdAt <= rows[0].createdAt;
      [rows[0]] + rest
  }

  /** The rows of `rows`, newest first. Rows with equal timestamps keep their
      table order; the database does not promise any particular order for
      them. */
  function SortNewestFirst(rows: seq<FeedbackRow>): (r: seq<FeedbackRow>)
    ensures NewestFirst(r)
    ensures multiset(r) == multiset(rows)
  {
    if rows == [] then []
    else
      assert rows == [rows[0]] + rows[1..];
      InsertByDate(rows[0], SortNewestFirst(rows[1..]))
  }

  /** Sorting keeps exactly the rows it was given. */
  lemma SortKeepsMembers(rows: seq<FeedbackRow>)
    ensures forall r :: r in SortNewestFirst(rows) <==> r in rows
  {
    var sorted := SortNewestFirst(rows);
    forall r ensures r in sorted <==> r in rows {
      assert r in sorted <==> r in multiset(sorted);
      assert r in rows <==> r in multiset(rows);
    }
  }

  // ---------------------------------------------------------------------

  /** The database's state: both tables, which the handlers read and write. */
  class Database {
    var users: seq<UserRow>
    var feedback: seq<FeedbackRow>

    constructor (users0: seq<UserRow>, feedback0: seq<FeedbackRow>)
      ensures users == users0 && feedback == feedback0
    {
      users := users0;
      feedback := feedback0;
    }

    /** `.from('users').select(…).eq(…).single()`. Reads only. */
    method SelectUser(key: UserKey, fault: Option<DbError>) returns (r: Result<UserRow, DbError>)
      ensures fault.Some? ==> r == Failure(fault.value)
      ensures fault.None? ==> r == Single(Matching(users, key))
    {
      if fault.Some? {
        r := Failure(fault.value);
      } else {
        r := Single(Matching(users, key));
      }
    }

    /** `.from('users').update({ plan }).eq(…)`. A failed update changes nothing. */
    method UpdatePlan(key: UserKey, plan: Plan, fault: Option<DbError>) returns (error: Option<DbError>)
      modifies this
      ensures error == fault
      ensures users == if fault.None? then SetPlan(old(users), key, plan) else old(users)
      ensures feedback == old(feedback)
    {
      error := fault;
      if fault.None? {
        users := SetPlan(users, key, plan);
      }
    }

    /** `.from('users').insert([{ email, plan }]).select().single()`; the
        database generates the id, `newId`. A clash on the primary key is an
        error like any other backend failure. */
    method InsertUser(newId: string, email: string, plan: Plan, fault: Option<DbError>)
      returns (r: Result<UserRow, DbError>)
      modifies this
      ensures r == Inserted(UserRow(newId, email, plan), IdTaken(old(users), newId), fault, "users")
      ensures users == if r.Success? then old(users) + [r.value] else old(users)
      ensures feedback == old(feedback)
    {
      r := Inserted(UserRow(newId, email, plan), IdTaken(users, newId), fault, "users");
      if r.Success? {
        users := users + [r.value];
      }
    }

    /** `.from('feedback').insert([row]).select().single()`; `row` carries the
        id and timestamp the database generates. */
    method InsertFeedback(row: FeedbackRow, fault: Option<DbError>) returns (r: Result<FeedbackRow, DbError>)
      modifies this
      ensures r == Inserted(row, FeedbackIdTaken(old(feedback), row.id), fault, "feedback")
      ensures feedback == if r.Success? then old(feedback) + [row] else old(feedback)
      ensures users == old(users)
    {
      r := Inserted(row, FeedbackIdTaken(feedback, row.id), fault, "feedback");
      if r.Success? {
        feedback := feedback + [row];
      }
    }

    /** `.from('feedback').delete().eq('id', id)`. Deleting an id that is not
        there is not an error. */
    method DeleteFeedback(id: string, fault: Option<DbError>) returns (error: Option<DbError>)
      modifies this
      ensures error == fault
      ensures feedback == if fault.None? then WithoutId(old(feedback), id) else old(feedback)
      ensures users == old(users)
    {
      error := fault;
      if fault.None? {
        feedback := WithoutId(feedback, id);
      }
    }
  }
}

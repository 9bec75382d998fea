/** The PostgreSQL session store (`internal/adminstore/postgres.go`) as an object whose transactions change the
    table step by step and roll back on refusal. Every method is one step of the session machine. */
module SessionStore {
  import opened Prelude
  import opened Sessions
  import opened SessionTheorems

  class Store {
    var rows: map<ID, Record>
    ghost var clock: int
    ghost var used: seq<ID>

    ghost function View(): (t: Table)
      reads this
    {
      Table(rows, clock, used)
    }

    ghost predicate Valid()
      reads this
    {
      Inv(View())
    }

    constructor ()
      ensures Valid() && View() == EMPTY
    {
      rows, clock, used := map[], 0, [];
    }

    /** One INSERT: refused by the primary key, the unique token digest or the parent reference. */
    method InsertRow(r: Record) returns (ok: bool)
      modifies this`rows
      ensures ok == Insertable(old(rows), r)
      ensures rows == if ok then old(rows)[r.id := r] else old(rows)
    {
      ok := r.id !in rows && (forall x | x in rows :: rows[x].token != r.token)
        && (r.parent.None? || r.parent.value in rows);
      if ok {
        rows := rows[r.id := r];
      }
    }

    /** Lock the row, read the clock, compare it in full: the guard of touch, revoke and rotate. */
    method LockExact(expected: Record, now: int) returns (v: Verdict)
      requires Valid()
      ensures v == Done <==> Exact(rows, expected, now)
      ensures v == Unavailable <==>
        ValidRecord(expected) && expected.revoked.None? && expected.id in rows && !ValidTimestamp(now)
    {
      hide ValidRecord, ValidTimestamp, Linked;
      if !ValidRecord(expected) || expected.revoked.Some? || expected.id !in rows {
        return Conflict;
      }
      var current := rows[expected.id];
      if !ValidRecord(current) || !ValidTimestamp(now) {
        return Unavailable;
      }
      if current != expected || !ActiveAt(current, now) {
        return Conflict;
      }
      return Done;
    }

    /** `InsertLogin`: checked against the clock before and after the row is written. */
    method InsertLogin(record: Record, now: int, later: int) returns (v: Verdict)
      requires Valid() && Enabled(View(), Op.InsertLogin(record, now, later))
      modifies this
      ensures Valid() && View() == Step(old(View()), Op.InsertLogin(record, now, later))
      ensures v == Done <==> LoginTaken(old(View()), Op.InsertLogin(record, now, later))
      ensures v == Done <==>
        ValidTimestamp(now) && ValidTimestamp(later) && ValidLogin(record, now) && ValidLogin(record, later)
        && Insertable(old(rows), record)
      ensures v == Unavailable <==>
        !ValidTimestamp(now) || (ValidLogin(record, now) && Insertable(old(rows), record) && !ValidTimestamp(later))
      ensures rows == if v == Done then old(rows)[record.id := record] else old(rows)
    {
      hide Inv, ValidLogin, ValidTimestamp, Insertable;
      InvKept(View(), Op.InsertLogin(record, now, later));
      var before := rows;
      clock := later;
      if !ValidTimestamp(now) {
        return Unavailable;
      }
      if !ValidLogin(record, now) {
        return Conflict;
      }
      var inserted := InsertRow(record);
      if !inserted {
        return Conflict;
      }
      if !ValidTimestamp(later) || !ValidLogin(record, later) {
        rows := before;
        return if ValidTimestamp(later) then Conflict else Unavailable;
      }
      used := used + [record.id];
      return Done;
    }

    /** `mutateOne` with the touch statement. */
    method Touch(expected: Record, now: int) returns (v: Verdict)
      requires Valid() && clock <= now
      modifies this
      ensures Valid() && View() == Step(old(View()), Op.Touch(expected, now))
      ensures v == Done <==> Current(old(rows), expected, now)
      ensures rows == if v == Done then old(rows)[expected.id := expected.(lastSeen := now)] else old(rows)
    {
      hide Inv, Exact, Current;
      CurrentIsExact(rows, expected, now);
      InvKept(View(), Op.Touch(expected, now));
      v := LockExact(expected, now);
      clock := now;
      if v == Done {
        rows := rows[expected.id := expected.(lastSeen := now)];
      }
    }

    /** `mutateOne` with the revoke statement. */
    method Revoke(expected: Record, now: int) returns (v: Verdict)
      requires Valid() && clock <= now
      modifies this
      ensures Valid() && View() == Step(old(View()), Op.Revoke(expected, now))
      ensures v == Done <==> Current(old(rows), expected, now)
      ensures rows == if v == Done then old(rows)[expected.id := expected.(revoked := Some(now))] else old(rows)
    {
      hide Inv, Exact, Current;
      CurrentIsExact(rows, expected, now);
      InvKept(View(), Op.Revoke(expected, now));
      v := LockExact(expected, now);
      clock := now;
      if v == Done {
        rows := rows[expected.id := expected.(revoked := Some(now))];
      }
    }

    /** `Rotate`: the old row is revoked and the new one inserted, or neither. */
    method Rotate(expected: Record, replacement: Record, now: int, later: int) returns (v: Verdict)
      requires Valid() && Enabled(View(), Op.Rotate(expected, replacement, now, later))
      modifies this
      ensures Valid() && View() == Step(old(View()), Op.Rotate(expected, replacement, now, later))
      ensures v == Done <==> RotationTaken(old(View()), Op.Rotate(expected, replacement, now, later))
      ensures v == Done <==>
        Current(old(rows), expected, now) && ValidReplacement(expected, replacement, now)
        && Insertable(old(rows), replacement) && ValidTimestamp(later) && ActiveAt(replacement, later)
      ensures rows == if v != Done then old(rows)
        else old(rows)[expected.id := expected.(revoked := Some(now))][replacement.id := replacement]
    {
      hide Inv, ValidReplacement, ValidTimestamp, ActiveAt, ValidRecord;
      CurrentIsExact(rows, expected, now);
      hide Current;
      InvKept(View(), Op.Rotate(expected, replacement, now, later));
      var before := rows;
      v := LockExact(expected, now);
      clock := later;
      if v != Done {
        return;
      }
      if !ValidReplacement(expected, replacement, now) {
        return Conflict;
      }
      assert replacement.parent == Some(expected.id) && replacement.id != expected.id by {
        Child(expected, replacement, now);
      }
      rows := rows[expected.id := expected.(revoked := Some(now))];
      SameInsertable(before, expected.(revoked := Some(now)), replacement);
      var inserted := InsertRow(replacement);
      if !inserted || !ValidTimestamp(later) || !ActiveAt(replacement, later) {
        rows := before;
        return if inserted && !ValidTimestamp(later) then Unavailable else Conflict;
      }
      used := used + [replacement.id];
      return Done;
    }

    /** `DeleteExpired`: at most `limit` expired sessions that nothing refers to and nobody holds locked. */
    method DeleteExpired(limit: nat, challenged: set<ID>, locked: set<ID>, now: int)
      returns (v: Verdict, victims: set<ID>)
      requires Valid() && clock <= now
      modifies this
      ensures v == Done <==> 1 <= limit <= 100
      ensures Valid() && Enabled(old(View()), Op.DeleteExpired(victims, challenged, now))
      ensures View() == Step(old(View()), Op.DeleteExpired(victims, challenged, now))
      ensures rows == old(rows) - victims && |victims| <= limit
      ensures victims !! challenged && victims !! locked
      ensures forall x | x in victims :: x in old(rows) && old(rows)[x].expires <= now && Childless(old(rows), x)
      ensures v == Done && |victims| < limit ==>
        forall x | Expirable(old(rows), challenged, now, x) :: x in victims || x in locked
    {
      hide Inv, HasChild;
      var free := set x | x in rows && Expirable(rows, challenged, now, x) && x !in locked;
      if 1 <= limit <= 100 {
        v := Done;
        victims := TakeSome(free, limit);
      } else {
        v := Conflict;
        victims := {};
      }
      forall x ensures Childless(rows, x) <==> !HasChild(rows, x) { NoChildMeans(rows, x); }
      hide Childless;
      InvKept(View(), Op.DeleteExpired(victims, challenged, now));
      rows := rows - victims;
      clock := now;
    }
  }

  ghost predicate Childless(rows: map<ID, Record>, x: ID) { forall y | y in rows :: rows[y].parent != Some(x) }

  lemma NoChildMeans(rows: map<ID, Record>, x: ID)
    ensures Childless(rows, x) <==> !HasChild(rows, x)
  {
  }

  /** The record is stored exactly as given and active at a proper instant. */
  ghost predicate Current(rows: map<ID, Record>, expected: Record, now: int) {
    expected.id in rows && rows[expected.id] == expected && ActiveAt(expected, now) && ValidTimestamp(now)
  }

  lemma CurrentIsExact(rows: map<ID, Record>, expected: Record, now: int)
    ensures Current(rows, expected, now) <==> Exact(rows, expected, now)
  {
    hide ValidRecord, ValidTimestamp;
  }

  predicate Expirable(rows: map<ID, Record>, challenged: set<ID>, now: int, x: ID) {
    x in rows && rows[x].expires <= now && !HasChild(rows, x) && x !in challenged
  }

  /** All of a set, or `limit` elements of it. */
  method TakeSome(all: set<ID>, limit: nat) returns (taken: set<ID>)
    ensures taken <= all && |taken| <= limit
    ensures |taken| < limit ==> taken == all
  {
    taken := {};
    var left := all;
    while left != {} && |taken| < limit
      invariant taken !! left && taken + left == all && |taken| <= limit
      decreases |left|
    {
      var x :| x in left;
      taken := taken + {x};
      left := left - {x};
    }
  }

  lemma Child(r: Record, n: Record, now: int)
    requires ValidReplacement(r, n, now)
    ensures n.parent == Some(r.id) && n.id != r.id
  {
    hide ValidRecord, ActiveAt;
  }

  /** Revoking the old row changes nothing about what may be inserted. */
  lemma SameInsertable(rows: map<ID, Record>, r: Record, n: Record)
    requires r.id in rows && rows[r.id].token == r.token
    ensures Insertable(rows[r.id := r], n) == Insertable(rows, n)
  {
    var after := rows[r.id := r];
    assert forall x | x in rows :: after[x].token == rows[x].token;
  }
}

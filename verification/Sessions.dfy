/** Administrator sessions: the record checks of `internal/adminstore/record.go` and
    `internal/adminauth/session.go`, and the session table of `internal/adminstore/postgres.go` changed by
    guarded transactions under the database clock. Instants are nanoseconds after Go's zero instant. */
module Sessions {
  import opened Prelude

  const ABSOLUTE_LIFETIME := 480 * MINUTE
  const IDLE_LIFETIME := 30 * MINUTE
  const STEP_UP_AFTER := 15 * MINUTE
  const REPLAY_LIFETIME := 5 * MINUTE
  const YEAR_10000 := 315_537_897_600 * 1_000_000_000

  /** The sixteen bytes of a session identifier. */
  type ID = seq<int>

  /** A 256-bit digest as a number. */
  type Digest = int

  datatype Record = Record(
    id: ID, actor: string, token: Digest, csrf: Digest,
    authenticated: int, created: int, lastSeen: int, expires: int,
    revoked: Option<int>, parent: Option<ID>)

  // ---- record checks ----

  predicate ValidUUIDv4(id: ID) {
    |id| == 16 && (exists k | 0 <= k < 16 :: id[k] != 0) && id[6] / 16 == 4 && id[8] / 64 == 2
  }

  predicate ValidActor(a: string) {
    1 <= |a| <= 128
    && forall k | 0 <= k < |a| :: 'a' <= a[k] <= 'z' || '0' <= a[k] <= '9' || (k > 0 && a[k] in "._-")
  }

  predicate PublicIdentity(a: string) {
    1 <= |a| <= 128
    && forall k | 0 <= k < |a| :: 'a' <= a[k] <= 'z' || 'A' <= a[k] <= 'Z' || '0' <= a[k] <= '9' || a[k] in "-_.@"
  }

  predicate ValidTimestamp(t: int) { 0 < t < YEAR_10000 && t % MICROSECOND == 0 }

  predicate ValidRecord(r: Record) {
    && ValidUUIDv4(r.id) && ValidActor(r.actor) && r.token != 0 && r.csrf != 0 && r.token != r.csrf
    && ValidTimestamp(r.authenticated) && ValidTimestamp(r.created) && ValidTimestamp(r.lastSeen)
    && ValidTimestamp(r.expires)
    && r.authenticated <= r.created <= r.lastSeen < r.expires && r.expires <= r.created + ABSOLUTE_LIFETIME
    && (r.revoked.Some? ==> ValidTimestamp(r.revoked.value) && r.created <= r.revoked.value)
    && (r.parent.Some? ==> ValidUUIDv4(r.parent.value) && r.parent.value != r.id)
  }

  predicate ActiveAt(r: Record, now: int) {
    ValidRecord(r) && r.revoked.None? && r.authenticated <= now && r.created <= now && r.lastSeen <= now
    && now < r.expires && now < r.lastSeen + IDLE_LIFETIME
  }

  predicate ValidLogin(r: Record, now: int) {
    ValidRecord(r) && r.revoked.None? && r.parent.None? && r.authenticated == r.created == r.lastSeen
    && r.expires == r.created + ABSOLUTE_LIFETIME && ActiveAt(r, now)
  }

  predicate ValidReplacement(last: Record, r: Record, now: int) {
    && ValidRecord(r) && r.revoked.None? && r.parent == Some(last.id) && r.actor == last.actor
    && r.id != last.id && r.token != last.token && r.csrf != last.csrf && r.created == r.lastSeen
    && r.expires == r.created + ABSOLUTE_LIFETIME && last.lastSeen <= r.created && ActiveAt(r, now)
    && (r.authenticated == last.authenticated || r.authenticated == r.created)
  }

  predicate ReplayRotation(parent: Record, child: Record, now: int) {
    && parent.revoked.Some? && child.revoked.None? && child.parent == Some(parent.id) && child.id != parent.id
    && child.actor == parent.actor && child.authenticated == parent.authenticated
    && child.token != parent.token && child.csrf != parent.csrf
    && child.expires == child.created + ABSOLUTE_LIFETIME
    && parent.lastSeen <= child.created < parent.expires
    && parent.lastSeen <= parent.revoked.value < parent.expires
    && child.created <= parent.revoked.value < child.created + REPLAY_LIFETIME
    && parent.revoked.value <= now < parent.revoked.value + REPLAY_LIFETIME
    && now < parent.expires && ActiveAt(child, now)
  }

  /** `validateRecordTimes` of the session manager. */
  predicate TimesValid(r: Record, now: int) {
    && (exists k | 0 <= k < |r.id| :: r.id[k] != 0) && PublicIdentity(r.actor) && r.revoked.None?
    && r.created != 0 && r.authenticated != 0 && r.lastSeen != 0 && r.expires != 0
    && r.authenticated <= r.created <= r.lastSeen
    && r.expires <= r.created + ABSOLUTE_LIFETIME && r.created < r.expires
    && r.created <= now && r.authenticated <= now && r.lastSeen <= now
    && now < r.expires && now < r.lastSeen + IDLE_LIFETIME
  }

  predicate RequiresStepUp(r: Record, now: int) { now - r.authenticated > STEP_UP_AFTER }

  lemma ActorIsPublic(a: string)
    requires ValidActor(a)
    ensures PublicIdentity(a)
  {
  }

  /** On every valid record the store and the session manager agree on who is active. */
  lemma StoreAgreesWithManager(r: Record, now: int)
    requires ValidRecord(r)
    ensures ActiveAt(r, now) <==> TimesValid(r, now)
  {
    hide ValidActor, PublicIdentity;
    ActorIsPublic(r.actor);
  }

  // ---- what the manager issues ----

  function Truncate(t: int): (r: int) { t - t % MICROSECOND }

  /** `issue`: identifier, token and digests come from the entropy source. */
  function Issue(id: ID, token: Digest, csrf: Digest, actor: string, authenticated: int, created: int,
      parent: Option<ID>): (r: Record) {
    Record(id, actor, token, csrf, Truncate(authenticated), Truncate(created), Truncate(created),
           Truncate(created) + ABSOLUTE_LIFETIME, None, parent)
  }

  function PrivilegeReplacement(r: Record, id: ID, token: Digest, csrf: Digest, now: int): (s: Record) {
    Issue(id, token, csrf, r.actor, r.authenticated, Truncate(now), Some(r.id))
  }

  function StepUpReplacement(r: Record, id: ID, token: Digest, csrf: Digest, now: int): (s: Record) {
    Issue(id, token, csrf, r.actor, now, now, Some(r.id))
  }

  function LoginRecord(actor: string, id: ID, token: Digest, csrf: Digest, now: int): (s: Record) {
    Issue(id, token, csrf, actor, now, now, None)
  }

  /** A login issued at instant `app` is one the store takes at every database instant until it would already be
      idle, and only then. */
  lemma LoginAccepted(actor: string, id: ID, token: Digest, csrf: Digest, app: int, now: int)
    requires 0 < Truncate(app) && Truncate(app) + ABSOLUTE_LIFETIME < YEAR_10000
    ensures ValidLogin(LoginRecord(actor, id, token, csrf, app), now) <==>
      ValidActor(actor) && ValidUUIDv4(id) && token != 0 && csrf != 0 && token != csrf
      && Truncate(app) <= now < Truncate(app) + 30 * MINUTE
    ensures LoginRecord(actor, id, token, csrf, app).expires == Truncate(app) + 480 * MINUTE
  {
    hide ValidUUIDv4, ValidActor;
  }

  /** A replacement issued for an active record at instant `app` is one the store takes at every database
      instant until it would already be idle. A privilege rotation keeps the authentication instant to the
      nanosecond, a step-up moves it to the new session's creation. */
  lemma ReplacementsAccepted(r: Record, id: ID, token: Digest, csrf: Digest, app: int, now: int)
    requires ValidRecord(r) && TimesValid(r, app) && Truncate(app) + ABSOLUTE_LIFETIME < YEAR_10000
    requires ValidUUIDv4(id) && id != r.id && token != 0 && token != r.token && csrf != 0 && csrf != r.csrf
      && token != csrf
    requires Truncate(app) <= now < Truncate(app) + IDLE_LIFETIME
    ensures ValidReplacement(r, PrivilegeReplacement(r, id, token, csrf, app), now)
    ensures ValidReplacement(r, StepUpReplacement(r, id, token, csrf, app), now)
    ensures PrivilegeReplacement(r, id, token, csrf, app).authenticated == r.authenticated
    ensures var stepped := StepUpReplacement(r, id, token, csrf, app); stepped.authenticated == stepped.created
  {
    hide ValidUUIDv4, ValidActor, PublicIdentity;
    assert Truncate(Truncate(app)) == Truncate(app);
    assert r.lastSeen <= Truncate(app);
  }

  // ---- the table and its transactions ----

  /** `used` lists every identifier ever stored, oldest first. */
  datatype Table = Table(rows: map<ID, Record>, clock: int, used: seq<ID>)

  datatype Op =
    | InsertLogin(record: Record, now: int, later: int)
    | Touch(expected: Record, now: int)
    | Revoke(expected: Record, now: int)
    | Rotate(expected: Record, replacement: Record, now: int, later: int)
    | DeleteExpired(victims: set<ID>, challenged: set<ID>, now: int)
    | Wait(now: int)

  datatype Verdict = Done | Conflict | Unavailable

  predicate HasChild(rows: map<ID, Record>, id: ID) { exists c :: c in rows && rows[c].parent == Some(id) }

  /** The primary key, the unique token digest and the parent reference. */
  ghost predicate Insertable(rows: map<ID, Record>, r: Record) {
    r.id !in rows && (forall x | x in rows :: rows[x].token != r.token) && (r.parent.Some? ==> r.parent.value in rows)
  }

  /** The compare-and-set guard shared by touch, revoke and rotate. */
  ghost predicate Exact(rows: map<ID, Record>, expected: Record, now: int) {
    ValidRecord(expected) && expected.revoked.None? && expected.id in rows && rows[expected.id] == expected
    && ValidTimestamp(now) && ActiveAt(expected, now)
  }

  ghost predicate Victims(rows: map<ID, Record>, victims: set<ID>, challenged: set<ID>, now: int) {
    forall v | v in victims :: v in rows && rows[v].expires <= now && !HasChild(rows, v) && v !in challenged
  }

  /** The clock only advances, and no identifier of a deleted session is drawn again; submitting a stored one
      is refused by the primary key. */
  ghost predicate Enabled(s: Table, op: Op) {
    s.clock <= op.now
    && (op.InsertLogin? ==> op.now <= op.later && (op.record.id in s.used ==> op.record.id in s.rows))
    && (op.Rotate? ==> op.now <= op.later && (op.replacement.id in s.used ==> op.replacement.id in s.rows))
    && (op.DeleteExpired? ==> Victims(s.rows, op.victims, op.challenged, op.now))
  }

  ghost predicate LoginTaken(s: Table, op: Op)
    requires op.InsertLogin?
  {
    ValidTimestamp(op.now) && ValidTimestamp(op.later) && ValidLogin(op.record, op.now) && Insertable(s.rows, op.record)
    && ValidLogin(op.record, op.later)
  }

  ghost predicate RotationTaken(s: Table, op: Op)
    requires op.Rotate?
  {
    Exact(s.rows, op.expected, op.now) && ValidReplacement(op.expected, op.replacement, op.now)
    && ValidTimestamp(op.later) && Insertable(s.rows, op.replacement) && ActiveAt(op.replacement, op.later)
  }

  /** One committed transaction; a refused one changes nothing but the time. */
  ghost function Step(s: Table, op: Op): (t: Table) {
    match op
    case InsertLogin(r, now, later) =>
      if LoginTaken(s, op) then Table(s.rows[r.id := r], later, s.used + [r.id]) else s.(clock := later)
    case Touch(r, now) =>
      if Exact(s.rows, r, now) then Table(s.rows[r.id := r.(lastSeen := now)], now, s.used) else s.(clock := now)
    case Revoke(r, now) =>
      if Exact(s.rows, r, now) then Table(s.rows[r.id := r.(revoked := Some(now))], now, s.used) else s.(clock := now)
    case Rotate(r, n, now, later) =>
      if RotationTaken(s, op) then Table(s.rows[r.id := r.(revoked := Some(now))][n.id := n], later, s.used + [n.id])
      else s.(clock := later)
    case DeleteExpired(victims, _, now) => Table(s.rows - victims, now, s.used)
    case Wait(now) => s.(clock := now)
  }

  ghost predicate Runs(s: Table, ops: seq<Op>, t: Table)
    decreases |ops|
  {
    if ops == [] then s == t
    else Enabled(s, ops[0]) && Runs(Step(s, ops[0]), ops[1..], t)
  }

  const EMPTY := Table(map[], 0, [])

  // ---- the invariant ----

  /** `x` was stored before `y`. */
  ghost predicate Before(used: seq<ID>, x: ID, y: ID) {
    exists i, j :: 0 <= i < j < |used| && used[i] == x && used[j] == y
  }

  ghost predicate Stored(s: Table) {
    && (forall x | x in s.rows ::
          s.rows[x].id == x && x in s.used && ValidRecord(s.rows[x]) && s.rows[x].lastSeen <= s.clock)
    && (forall x | x in s.rows && s.rows[x].revoked.Some? :: s.rows[x].revoked.value <= s.clock)
    && (forall i, j | 0 <= i < j < |s.used| :: s.used[i] != s.used[j])
    && (forall x, y | x in s.rows && y in s.rows && s.rows[x].token == s.rows[y].token :: x == y)
  }

  /** A login authenticates itself; a child exists only beside its revoked parent, as its only child, and
      takes over the authentication instant or makes it its own. */
  ghost predicate Linked(s: Table) {
    && (forall x | x in s.rows && s.rows[x].parent.None? :: s.rows[x].authenticated == s.rows[x].created)
    && (forall x | x in s.rows && s.rows[x].parent.Some? ::
          var p := s.rows[x].parent.value;
          && p in s.rows && s.rows[p].revoked.Some? && s.rows[p].actor == s.rows[x].actor && Before(s.used, p, x)
          && (s.rows[x].authenticated == s.rows[p].authenticated || s.rows[x].authenticated == s.rows[x].created))
    && (forall x, y | x in s.rows && y in s.rows && s.rows[x].parent.Some? && s.rows[x].parent == s.rows[y].parent ::
          x == y)
  }

  ghost predicate Inv(s: Table) { Stored(s) && Linked(s) }

  lemma BeforeGrows(used: seq<ID>, n: ID)
    ensures forall x, y | Before(used, x, y) :: Before(used + [n], x, y)
    ensures forall x | x in used :: Before(used + [n], x, n)
  {
    forall x, y | Before(used, x, y) ensures Before(used + [n], x, y) {
      var i, j :| 0 <= i < j < |used| && used[i] == x && used[j] == y;
      assert (used + [n])[i] == x && (used + [n])[j] == y;
    }
    forall x | x in used ensures Before(used + [n], x, n) {
      var i :| 0 <= i < |used| && used[i] == x;
      assert (used + [n])[i] == x && (used + [n])[|used|] == n;
    }
  }

  /** A new row keeps the invariant: a login, or the first child of a revoked session. */
  lemma InsertKept(s: Table, n: Record, clock: int)
    requires Inv(s) && s.clock <= clock && n.id !in s.used && ValidRecord(n) && n.revoked.None? && n.lastSeen <= clock
    requires forall x | x in s.rows :: s.rows[x].token != n.token
    requires n.parent.None? ==> n.authenticated == n.created
    requires n.parent.Some? ==>
      var p := n.parent.value;
      && p in s.rows && s.rows[p].revoked.Some? && s.rows[p].actor == n.actor && !HasChild(s.rows, p)
      && (n.authenticated == s.rows[p].authenticated || n.authenticated == n.created)
    ensures Inv(Table(s.rows[n.id := n], clock, s.used + [n.id]))
  {
    hide ValidRecord, Before;
    BeforeGrows(s.used, n.id);
  }

  /** Changing only when a row was last seen or revoked keeps the invariant. */
  lemma UpdateKept(s: Table, r: Record, clock: int)
    requires Inv(s) && s.clock <= clock && r.id in s.rows && ValidRecord(r) && r.lastSeen <= clock
    requires s.rows[r.id].(lastSeen := r.lastSeen, revoked := r.revoked) == r
    requires s.rows[r.id].revoked.None? && (r.revoked.Some? ==> r.revoked.value <= clock)
    ensures Inv(Table(s.rows[r.id := r], clock, s.used))
  {
    hide ValidRecord, Before;
  }

  lemma LoginKept(s: Table, op: Op)
    requires Inv(s) && Enabled(s, op) && op.InsertLogin?
    ensures Inv(Step(s, op))
  {
    hide Inv, ValidUUIDv4, ValidActor;
    if LoginTaken(s, op) {
      InsertKept(s, op.record, op.later);
    } else {
      WaitKept(s, op.later);
    }
  }

  lemma MutateKept(s: Table, op: Op)
    requires Inv(s) && Enabled(s, op) && (op.Touch? || op.Revoke?)
    ensures Inv(Step(s, op))
  {
    hide Inv, ValidUUIDv4, ValidActor;
    if !Exact(s.rows, op.expected, op.now) {
      WaitKept(s, op.now);
    } else if op.Touch? {
      UpdateKept(s, op.expected.(lastSeen := op.now), op.now);
    } else {
      UpdateKept(s, op.expected.(revoked := Some(op.now)), op.now);
    }
  }

  /** A live session has no child. */
  lemma LiveIsLeaf(s: Table, x: ID)
    requires Linked(s) && x in s.rows && s.rows[x].revoked.None?
    ensures !HasChild(s.rows, x)
  {
    hide Before;
  }

  lemma RotateKept(s: Table, op: Op)
    requires Inv(s) && Enabled(s, op) && op.Rotate?
    ensures Inv(Step(s, op))
  {
    hide ValidUUIDv4, ValidActor, HasChild, Stored, Linked;
    if !RotationTaken(s, op) {
      WaitKept(s, op.later);
    } else {
      var r, n := op.expected, op.replacement;
      var revoked := r.(revoked := Some(op.now));
      var mid := Table(s.rows[r.id := revoked], op.now, s.used);
      UpdateKept(s, revoked, op.now);
      LiveIsLeaf(s, r.id);
      SameChildren(s.rows, revoked);
      assert forall x | x in mid.rows :: mid.rows[x].token == s.rows[x].token;
      InsertKept(mid, n, op.later);
    }
  }

  lemma SameChildren(rows: map<ID, Record>, r: Record)
    requires r.id in rows && rows[r.id].parent == r.parent
    ensures HasChild(rows[r.id := r], r.id) == HasChild(rows, r.id)
  {
    var after := rows[r.id := r];
    if HasChild(rows, r.id) {
      var c :| c in rows && rows[c].parent == Some(r.id);
      assert c in after && after[c].parent == Some(r.id);
    }
  }

  lemma DeleteKept(s: Table, op: Op)
    requires Inv(s) && Enabled(s, op) && op.DeleteExpired?
    ensures Inv(Step(s, op))
  {
    hide Before, ValidRecord;
  }

  lemma InvKept(s: Table, op: Op)
    requires Inv(s) && Enabled(s, op)
    ensures Inv(Step(s, op)) && s.clock <= Step(s, op).clock
  {
    hide Inv, LoginTaken, RotationTaken, Exact, Victims;
    match op {
      case InsertLogin(_, _, _) => LoginKept(s, op);
      case Touch(_, _) => MutateKept(s, op);
      case Revoke(_, _) => MutateKept(s, op);
      case Rotate(_, _, _, _) => RotateKept(s, op);
      case DeleteExpired(_, _, _) => DeleteKept(s, op);
      case Wait(_) => WaitKept(s, op.now);
    }
  }

  lemma WaitKept(s: Table, clock: int)
    requires Inv(s) && s.clock <= clock
    ensures Inv(s.(clock := clock))
  {
    hide Before, ValidRecord;
  }
}

/** What every run of the session table keeps. */
module SessionTheorems {
  import opened Prelude
  import opened Sessions

  lemma {:induction false} RunsKeepInv(s: Table, ops: seq<Op>, t: Table)
    requires Inv(s) && Runs(s, ops, t)
    ensures Inv(t) && s.clock <= t.clock
    decreases |ops|
  {
    hide Inv, Enabled, Step;
    if ops != [] {
      InvKept(s, ops[0]);
      RunsKeepInv(Step(s, ops[0]), ops[1..], t);
    }
  }

  /** Every reachable table: one child at most, revoked parents, no dangling parent, valid rows. */
  lemma Reached(ops: seq<Op>, t: Table)
    requires Runs(EMPTY, ops, t)
    ensures Inv(t)
  {
    assert Inv(EMPTY);
    RunsKeepInv(EMPTY, ops, t);
  }

  // ---- lineages ----

  /** Each session of `p` was rotated into the next. */
  ghost predicate Chain(rows: map<ID, Record>, p: seq<ID>) {
    p != [] && (forall i | 0 <= i < |p| :: p[i] in rows)
    && forall i | 0 < i < |p| :: rows[p[i]].parent == Some(p[i - 1])
  }

  ghost predicate ChainTo(rows: map<ID, Record>, p: seq<ID>, x: ID) { Chain(rows, p) && p[|p| - 1] == x }

  lemma ChainSnoc(rows: map<ID, Record>, p: seq<ID>, x: ID)
    requires Chain(rows, p) && x in rows && rows[x].parent == Some(p[|p| - 1])
    ensures Chain(rows, p + [x])
  {
  }

  ghost function Position(used: seq<ID>, x: ID): (n: nat)
    requires x in used
    ensures n < |used| && used[n] == x
  {
    var n :| 0 <= n < |used| && used[n] == x;
    n
  }

  lemma ParentEarlier(s: Table, x: ID)
    requires Inv(s) && x in s.rows && s.rows[x].parent.Some?
    ensures s.rows[x].parent.value in s.rows && Position(s.used, s.rows[x].parent.value) < Position(s.used, x)
  {
    hide ValidRecord;
    var p := s.rows[x].parent.value;
    assert Before(s.used, p, x);
    var i, j :| 0 <= i < j < |s.used| && s.used[i] == p && s.used[j] == x;
    assert i == Position(s.used, p) && j == Position(s.used, x);
  }

  /** Every session descends from a login. */
  lemma {:induction false} LineageHasLogin(s: Table, x: ID) returns (p: seq<ID>)
    requires Inv(s) && x in s.rows
    ensures ChainTo(s.rows, p, x) && s.rows[p[0]].parent.None?
    decreases Position(s.used, x)
  {
    if s.rows[x].parent.None? {
      p := [x];
    } else {
      ParentEarlier(s, x);
      var q := LineageHasLogin(s, s.rows[x].parent.value);
      ChainSnoc(s.rows, q, x);
      p := q + [x];
    }
  }

  /** Chains from one session never part. */
  lemma {:induction false} ChainsAgree(s: Table, p: seq<ID>, q: seq<ID>, i: nat)
    requires Linked(s) && Chain(s.rows, p) && Chain(s.rows, q) && p[0] == q[0] && i < |p| && i < |q|
    ensures p[i] == q[i]
  {
    hide Before;
    if i > 0 {
      ChainsAgree(s, p, q, i - 1);
      assert s.rows[p[i]].parent == Some(p[i - 1]) == s.rows[q[i]].parent;
    }
  }

  lemma LongerMeansRevoked(s: Table, p: seq<ID>, q: seq<ID>)
    requires Linked(s) && Chain(s.rows, p) && Chain(s.rows, q) && p[0] == q[0]
    ensures |p| < |q| ==> s.rows[p[|p| - 1]].revoked.Some?
  {
    hide Before;
    if |p| < |q| {
      ChainsAgree(s, p, q, |p| - 1);
      assert s.rows[q[|p|]].parent == Some(p[|p| - 1]);
    }
  }

  /** A login lineage has at most one session that is not revoked. */
  lemma OneLivePerLineage(s: Table, p: seq<ID>, q: seq<ID>)
    requires Inv(s) && Chain(s.rows, p) && Chain(s.rows, q) && p[0] == q[0]
    requires s.rows[p[|p| - 1]].revoked.None? && s.rows[q[|q| - 1]].revoked.None?
    ensures p == q
  {
    hide Before, ValidRecord;
    LongerMeansRevoked(s, p, q);
    LongerMeansRevoked(s, q, p);
    forall i | 0 <= i < |p| ensures p[i] == q[i] {
      ChainsAgree(s, p, q, i);
    }
  }

  ghost predicate LatestOwn(rows: map<ID, Record>, p: seq<ID>, k: int, n: int)
    requires Chain(rows, p) && 0 <= k <= n < |p|
  {
    && rows[p[k]].authenticated == rows[p[k]].created
    && forall i | k < i <= n ::
         rows[p[i]].authenticated == rows[p[k]].created && rows[p[i]].authenticated != rows[p[i]].created
  }

  lemma {:induction false} LatestOwnExists(s: Table, p: seq<ID>, n: nat) returns (k: nat)
    requires Linked(s) && Chain(s.rows, p) && s.rows[p[0]].parent.None? && n < |p|
    ensures k <= n && LatestOwn(s.rows, p, k, n)
  {
    hide Before;
    if n == 0 || s.rows[p[n]].authenticated == s.rows[p[n]].created {
      k := n;
    } else {
      k := LatestOwnExists(s, p, n - 1);
      assert s.rows[p[n]].parent == Some(p[n - 1]);
    }
  }

  /** The authentication instant of a session is the creation of the latest login or step-up of its lineage:
      all sessions after that one only took it over. */
  lemma AuthenticationFollowsLineage(s: Table, p: seq<ID>) returns (k: nat)
    requires Inv(s) && Chain(s.rows, p) && s.rows[p[0]].parent.None?
    ensures k < |p| && LatestOwn(s.rows, p, k, |p| - 1)
  {
    k := LatestOwnExists(s, p, |p| - 1);
  }

  // ---- step-up ----

  /** `y` is `x` or was rotated out of it. */
  ghost predicate Descends(rows: map<ID, Record>, x: ID, y: ID) { exists p :: ChainTo(rows, p, y) && p[0] == x }

  /** No step-up of `x` or its descendants: a rotation of one of them takes over the authentication instant. */
  ghost predicate Preserving(s: Table, op: Op, x: ID) {
    op.Rotate? && Descends(s.rows, x, op.expected.id) ==> op.replacement.authenticated == op.expected.authenticated
  }

  /** A run in which neither `x` nor a descendant of it steps up; every other session may. */
  ghost predicate NeverSteppedUp(s: Table, ops: seq<Op>, x: ID)
    decreases |ops|
  {
    ops == [] || (Preserving(s, ops[0], x) && NeverSteppedUp(Step(s, ops[0]), ops[1..], x))
  }

  /** The descendants of `x` in a later table all carry its authentication instant `at`. */
  ghost predicate Carries(t: Table, x: ID, at: int) {
    forall p | Chain(t.rows, p) && p[0] == x :: t.rows[p[|p| - 1]].authenticated == at
  }

  lemma CarriesOneRow(s: Table, t: Table, x: ID, at: int)
    requires Carries(s, x, at) && t.rows.Keys <= s.rows.Keys
    requires forall y | y in t.rows ::
      t.rows[y].parent == s.rows[y].parent && t.rows[y].authenticated == s.rows[y].authenticated
    ensures Carries(t, x, at)
  {
    forall p | Chain(t.rows, p) && p[0] == x ensures t.rows[p[|p| - 1]].authenticated == at {
      assert Chain(s.rows, p);
    }
  }

  lemma CarriesNewRow(s: Table, t: Table, n: Record, x: ID, at: int)
    requires Carries(s, x, at) && n.id !in s.rows && x != n.id && t.rows == s.rows[n.id := n]
    requires forall y | y in s.rows :: s.rows[y].parent != Some(n.id)
    requires n.parent.Some? ==> n.parent.value in s.rows && n.parent.value != n.id
    requires n.parent.Some? && Descends(s.rows, x, n.parent.value) ==>
      n.authenticated == s.rows[n.parent.value].authenticated
    ensures Carries(t, x, at)
  {
    forall p | Chain(t.rows, p) && p[0] == x ensures t.rows[p[|p| - 1]].authenticated == at {
      var m := |p| - 1;
      forall i | 0 <= i < m ensures p[i] != n.id {
        assert t.rows[p[i + 1]].parent == Some(p[i]);
      }
      if p[m] != n.id {
        assert Chain(s.rows, p);
      } else {
        assert t.rows[p[m]].parent == Some(p[m - 1]);
        assert ChainTo(s.rows, p[..m], p[m - 1]);
      }
    }
  }

  lemma SameDescent(rows: map<ID, Record>, r: Record, x: ID)
    requires r.id in rows && rows[r.id].parent == r.parent
    ensures Descends(rows[r.id := r], x, r.id) ==> Descends(rows, x, r.id)
  {
    if Descends(rows[r.id := r], x, r.id) {
      var p :| ChainTo(rows[r.id := r], p, r.id) && p[0] == x;
      assert ChainTo(rows, p, r.id);
    }
  }

  lemma CarriesRotation(s: Table, op: Op, x: ID, at: int)
    requires Inv(s) && Enabled(s, op) && op.Rotate? && RotationTaken(s, op)
    requires Preserving(s, op, x) && x in s.used && Carries(s, x, at)
    ensures Carries(Step(s, op), x, at)
  {
    hide Carries, ValidRecord, Before, ActiveAt, Descends;
    var revoked := op.expected.(revoked := Some(op.now));
    var mid := s.(rows := s.rows[op.expected.id := revoked]);
    CarriesOneRow(s, mid, x, at);
    SameDescent(s.rows, revoked, x);
    CarriesNewRow(mid, Step(s, op), op.replacement, x, at);
  }

  lemma CarriesKept(s: Table, op: Op, x: ID, at: int)
    requires Inv(s) && Enabled(s, op) && Preserving(s, op, x) && x in s.used && Carries(s, x, at)
    ensures Carries(Step(s, op), x, at) && x in Step(s, op).used
  {
    hide Carries, ValidRecord, Before, ActiveAt, Victims, Preserving;
    var t := Step(s, op);
    if op.InsertLogin? && LoginTaken(s, op) {
      CarriesNewRow(s, t, op.record, x, at);
    } else if op.Rotate? && RotationTaken(s, op) {
      CarriesRotation(s, op, x, at);
    } else {
      CarriesOneRow(s, t, x, at);
    }
  }

  lemma {:induction false} CarriesOverRuns(s: Table, ops: seq<Op>, t: Table, x: ID, at: int)
    requires Inv(s) && Runs(s, ops, t) && NeverSteppedUp(s, ops, x) && x in s.used && Carries(s, x, at)
    ensures Carries(t, x, at)
    decreases |ops|
  {
    hide Inv, Enabled, Step, Carries, Preserving;
    if ops != [] {
      InvKept(s, ops[0]);
      CarriesKept(s, ops[0], x, at);
      CarriesOverRuns(Step(s, ops[0]), ops[1..], t, x, at);
    }
  }

  /** Whatever else happens, step-ups of other sessions included, no touch and no privilege rotation postpones
      the step-up of a live session: without its own step-up all its successors need one at the very same
      instants. */
  lemma StepUpNotPostponed(s: Table, ops: seq<Op>, t: Table, x: ID, p: seq<ID>, now: int)
    requires Inv(s) && Runs(s, ops, t) && NeverSteppedUp(s, ops, x)
    requires x in s.rows && s.rows[x].revoked.None? && Chain(t.rows, p) && p[0] == x
    ensures t.rows[p[|p| - 1]].authenticated == s.rows[x].authenticated
    ensures RequiresStepUp(t.rows[p[|p| - 1]], now) <==> s.rows[x].authenticated + 15 * MINUTE < now
  {
    hide ValidRecord, Before, Runs, NeverSteppedUp;
    forall q | Chain(s.rows, q) && q[0] == x ensures s.rows[q[|q| - 1]].authenticated == s.rows[x].authenticated {
      LongerMeansRevoked(s, [x], q);
    }
    CarriesOverRuns(s, ops, t, x, s.rows[x].authenticated);
  }

  // ---- touching and revoking ----

  /** A touched session is active exactly from that instant until it expires or idles for thirty minutes. */
  lemma TouchedUntil(r: Record, now: int, later: int)
    requires ActiveAt(r, now) && ValidTimestamp(now)
    ensures ActiveAt(r.(lastSeen := now), later) <==> now <= later < r.expires && later < now + 30 * MINUTE
  {
    hide ValidUUIDv4, ValidActor;
  }

  /** A touch by the exact record moves when it was last seen, a revocation sets when it was revoked, and nothing
      else changes; any other record changes nothing. */
  lemma MutationsMean(s: Table, expected: Record, now: int)
    requires Inv(s) && s.clock <= now
    ensures var touched, revoked := Step(s, Op.Touch(expected, now)), Step(s, Op.Revoke(expected, now));
      && touched.rows.Keys == s.rows.Keys == revoked.rows.Keys && touched.used == s.used == revoked.used
      && touched.clock == now == revoked.clock
      && (forall x | x in s.rows && (x != expected.id || !Exact(s.rows, expected, now)) ::
            touched.rows[x] == s.rows[x] == revoked.rows[x])
      && (Exact(s.rows, expected, now) ==>
            && touched.rows[expected.id] == expected.(lastSeen := now)
            && revoked.rows[expected.id] == expected.(revoked := Some(now))
            && (forall later :: ActiveAt(touched.rows[expected.id], later) <==>
                  now <= later < expected.expires && later < now + 30 * MINUTE)
            && forall later :: !ActiveAt(revoked.rows[expected.id], later))
  {
    hide ValidRecord, Before, ActiveAt, Linked, Stored, Inv;
    if Exact(s.rows, expected, now) {
      forall later
        ensures ActiveAt(expected.(lastSeen := now), later) <==>
          now <= later < expected.expires && later < now + 30 * MINUTE
      {
        TouchedUntil(expected, now, later);
      }
      forall later ensures !ActiveAt(expected.(revoked := Some(now)), later) {
        NeverActive(expected.(revoked := Some(now)), later);
      }
    }
  }

  lemma NeverActive(r: Record, now: int)
    requires r.revoked.Some?
    ensures !ActiveAt(r, now)
  {
    hide ValidRecord;
  }

  /** A revoked session keeps its row as it is for as long as it is stored, and is never active again. */
  lemma {:induction false} RevokedForever(s: Table, ops: seq<Op>, t: Table, id: ID, now: int)
    requires Inv(s) && Runs(s, ops, t) && id in s.rows && s.rows[id].revoked.Some?
    ensures id in t.rows ==> t.rows[id] == s.rows[id] && !ActiveAt(t.rows[id], now)
  {
    hide ValidRecord, Linked, Runs, ActiveAt;
    RetiredForever(s, ops, t, id);
    NeverActive(s.rows[id], now);
  }

  lemma {:induction false} RetiredForever(s: Table, ops: seq<Op>, t: Table, id: ID)
    requires Inv(s) && Runs(s, ops, t) && Retired(s, id)
    ensures id in t.rows ==> id in s.rows && t.rows[id] == s.rows[id]
    decreases |ops|
  {
    hide Inv, Enabled, Step;
    if ops != [] {
      InvKept(s, ops[0]);
      RetiredStays(s, ops[0], id);
      RetiredForever(Step(s, ops[0]), ops[1..], t, id);
    }
  }

  // ---- decision replay ----

  /** `LoadRevokedDecisionReplayParent` finds the session now. */
  ghost predicate Eligible(s: Table, id: ID) {
    id in s.rows && exists c :: OnlyChild(s, id, c) && ReplayRotation(s.rows[id], s.rows[c], s.clock)
  }

  ghost predicate OnlyChild(s: Table, id: ID, c: ID) {
    c in s.rows && s.rows[c].parent == Some(id) && forall d | d in s.rows && s.rows[d].parent == Some(id) :: d == c
  }

  /** A session that once existed and is no longer live. */
  ghost predicate Retired(s: Table, id: ID) { id in s.used && (id in s.rows ==> s.rows[id].revoked.Some?) }

  lemma RetiredStays(s: Table, op: Op, id: ID)
    requires Inv(s) && Enabled(s, op) && Retired(s, id)
    ensures Retired(Step(s, op), id)
    ensures id in Step(s, op).rows ==> id in s.rows && Step(s, op).rows[id] == s.rows[id]
  {
    hide ValidRecord, Before, ActiveAt, Victims, ValidLogin, ValidReplacement;
  }

  /** Where a child of a retired session came from. */
  lemma ChildWasThere(s: Table, op: Op, id: ID, c: ID)
    requires Inv(s) && Enabled(s, op) && Retired(s, id) && c in Step(s, op).rows
      && Step(s, op).rows[c].parent == Some(id)
    ensures c in s.rows && s.rows[c].parent == Some(id)
    ensures Step(s, op).rows[c].revoked.None? ==>
      s.rows[c] == Step(s, op).rows[c]
        || (s.rows[c].(lastSeen := Step(s, op).rows[c].lastSeen) == Step(s, op).rows[c] && ActiveAt(s.rows[c], op.now))
  {
    hide ValidRecord, Before, Victims, ActiveAt;
  }

  /** A replay allowed at a later instant was allowed before, whether or not the child was touched between. */
  lemma AllowedBefore(parent: Record, child: Record, touched: Record, early: int, now: int, late: int)
    requires ReplayRotation(parent, touched, late) && early <= late && early <= now
    requires child == touched || (child.(lastSeen := touched.lastSeen) == touched && ActiveAt(child, now))
    requires ValidRecord(child) && child.lastSeen <= early && (parent.revoked.Some? ==> parent.revoked.value <= early)
    ensures ReplayRotation(parent, child, early)
  {
    hide ValidUUIDv4, ValidActor;
  }

  lemma ReplayAntitone(s: Table, op: Op, id: ID)
    requires Inv(s) && Enabled(s, op) && Retired(s, id) && Eligible(Step(s, op), id)
    ensures Eligible(s, id)
  {
    hide Before, Step, ValidRecord, Enabled, ReplayRotation, ActiveAt;
    var t := Step(s, op);
    RetiredStays(s, op, id);
    InvKept(s, op);
    var c :| OnlyChild(t, id, c) && ReplayRotation(t.rows[id], t.rows[c], t.clock);
    assert t.rows[c].revoked.None? by { LiveChild(t.rows[id], t.rows[c], t.clock); }
    ChildWasThere(s, op, id, c);
    ClockAdvances(s, op);
    AllowedBefore(s.rows[id], s.rows[c], t.rows[c], s.clock, op.now, t.clock);
    assert OnlyChild(s, id, c);
  }

  lemma LiveChild(parent: Record, child: Record, now: int)
    requires ReplayRotation(parent, child, now)
    ensures child.revoked.None?
  {
    hide ActiveAt;
  }

  lemma ClockAdvances(s: Table, op: Op)
    requires Enabled(s, op)
    ensures s.clock <= op.now
  {
    hide Victims;
  }

  /** A rotated-out session that stopped being eligible for replay never becomes eligible again, and none
      is eligible five minutes after its revocation. */
  lemma {:induction false} ReplayNeverRegained(s: Table, ops: seq<Op>, t: Table, id: ID)
    requires Inv(s) && Runs(s, ops, t) && Retired(s, id)
    ensures Eligible(t, id) ==> Eligible(s, id)
    ensures Eligible(t, id) ==>
      id in s.rows && s.rows[id].revoked.Some? && t.clock < s.rows[id].revoked.value + 5 * MINUTE
    decreases |ops|
  {
    hide Inv, Enabled, Step;
    if ops != [] {
      var u := Step(s, ops[0]);
      InvKept(s, ops[0]);
      RetiredStays(s, ops[0], id);
      ReplayNeverRegained(u, ops[1..], t, id);
      if Eligible(t, id) {
        ReplayAntitone(s, ops[0], id);
      }
    }
  }

  /** Exactly when a rotation leaves the old session eligible. */
  lemma RotationOpensReplay(s: Table, op: Op)
    requires Inv(s) && Enabled(s, op) && op.Rotate? && RotationTaken(s, op)
    ensures Eligible(Step(s, op), op.expected.id) <==>
      && op.replacement.authenticated == op.expected.authenticated && op.now < op.replacement.created + 5 * MINUTE
      && op.later < op.now + 5 * MINUTE && op.later < op.expected.expires
  {
    hide Before, ValidUUIDv4, ValidActor;
    var t, r, n := Step(s, op), op.expected, op.replacement;
    LiveIsLeaf(s, r.id);
    assert t.rows[n.id] == n && t.rows[r.id] == r.(revoked := Some(op.now));
    assert forall d | d in s.rows :: s.rows[d].parent != Some(r.id);
    assert OnlyChild(t, r.id, n.id);
  }

  // ---- these runs exist ----

  const T := 1_000_000_000

  function SomeID(k: int): (id: ID) { [k, 0, 0, 0, 0, 0, 0x40, 0, 0x80, 0, 0, 0, 0, 0, 0, 0] }

  function SomeLogin(): (r: Record) { Record(SomeID(1), "admin", 1, 2, T, T, T, T + ABSOLUTE_LIFETIME, None, None) }

  lemma SomeIDs()
    ensures ValidUUIDv4(SomeID(1)) && ValidUUIDv4(SomeID(2)) && SomeID(1) != SomeID(2)
  {
    assert SomeID(1)[0] == 1 && SomeID(2)[0] == 2;
  }

  /** A login, rotated at once, leaves a session that is eligible for replay. */
  lemma SomeReplay() returns (ops: seq<Op>, t: Table)
    ensures Runs(EMPTY, ops, t) && Eligible(t, SomeID(1))
  {
    hide ValidUUIDv4, SomeID, Eligible;
    SomeIDs();
    var r := SomeLogin();
    assert ValidActor("admin") && ValidRecord(r);
    var login := Op.InsertLogin(r, T, T);
    assert LoginTaken(EMPTY, login);
    var s := Step(EMPTY, login);
    StoreAgreesWithManager(r, T);
    ReplacementsAccepted(r, SomeID(2), 3, 4, T, T);
    var n := PrivilegeReplacement(r, SomeID(2), 3, 4, T);
    var rotate := Op.Rotate(r, n, T, T);
    assert Inv(s) by { InvKept(EMPTY, login); }
    assert RotationTaken(s, rotate);
    RotationOpensReplay(s, rotate);
    ops, t := [login, rotate], Step(s, rotate);
    assert ops[1..] == [rotate] && [rotate][1..] == [];
    assert Runs(s, [rotate], t);
  }
}

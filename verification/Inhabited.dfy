/** The hypotheses of the incident theorems can be met: a valid signal, the incident it opens, and a reopening
    that splits its correlation. */
module Inhabited {
  import opened Prelude
  import opened Order
  import opened Encoding
  import opened Signals
  import opened Components
  import opened Relations
  import opened Snapshot
  import opened Correlate
  import opened Incident
  import opened IncidentRuns
  import opened IncidentTheorems

  function UUID(k: nat): (s: string)
    requires k < 10
  {
    seq(36, i requires 0 <= i < 36 => if i in {8, 13, 18, 23} then '-' else if i == 35 then Digit(k) else '0')
  }

  function DigestOf(c: char): (s: string) { "sha256:" + seq(64, _ => c) }

  lemma {:induction false} LessAtEnd(p: string, x: char, y: char)
    requires x < y
    ensures StrLess(p + [x], p + [y])
  {
    if p == [] {
      assert p + [x] == [x] && p + [y] == [y];
    } else {
      assert (p + [x])[1..] == p[1..] + [x] && (p + [y])[1..] == p[1..] + [y];
      LessAtEnd(p[1..], x, y);
    }
  }

  lemma UUIDs(k: nat)
    requires k < 10
    ensures UUIDShaped(UUID(k)) && (k > 0 ==> StrLess(UUID(k - 1), UUID(k)))
  {
    if k > 0 {
      var p := UUID(k)[..35];
      assert UUID(k) == p + [Digit(k)] && UUID(k - 1) == p + [Digit(k - 1)];
      LessAtEnd(p, Digit(k - 1), Digit(k));
    }
  }

  /** Eight suspicious paths from one address within a second. */
  function SignalAt(k: nat, start: int): (s: Signal)
    requires k < 10
  {
    Signal(UUID(k), "path_scan.v1", "path_scan", "v1", DigestOf('0'), Dotted(1, 2, 3, 4), "demo", start, start + SECOND,
           Metrics(8, 8, 0), seq(8, k requires 0 <= k < 8 => UUID(k)), DigestOf('0'), DigestOf('0'), "complete")
  }

  lemma SignalAtValid(k: nat, start: int)
    requires k < 10 && 0 < start
    ensures ValidSignal(SignalAt(k, start))
  {
    hide UUID, UUIDShaped, StrLess, Dotted;
    var s := SignalAt(k, start);
    forall k | 0 <= k < 8
      ensures UUIDShaped(s.evidenceIDs[k]) && (k > 0 ==> StrLess(s.evidenceIDs[k - 1], s.evidenceIDs[k]))
    {
      UUIDs(k);
    }
    UUIDs(k);
    DigestsShaped();
    hide DigestOf, DigestShaped;
    assert CanonicalIPv4(s.source) by {
      var a, b, c, d := 1, 2, 3, 4;
      assert s.source == Dotted(a, b, c, d);
    }
    assert Label("v1", true) && Label("demo", false);
  }

  lemma DigestsShaped()
    ensures DigestShaped(DigestOf('0')) && DigestShaped(DigestOf('1')) && DigestOf('0') != DigestOf('1')
  {
    var d, e := DigestOf('0'), DigestOf('1');
    assert d[..7] == "sha256:" && e[..7] == "sha256:";
    assert forall i | 7 <= i < 71 :: d[i] == '0' && e[i] == '1';
    assert d[7] != e[7];
  }

  /** One signal alone correlates into one group. */
  lemma OneSignalCorrelates(s: Signal)
    requires ValidSignal(s)
    ensures BuildGroup([s]).Ok? && BuildGroup([s]).value.signals == [s] && BuildGroup([s]).value.end == s.end
    ensures IsCorrelation([s], [BuildGroup([s]).value])
  {
    hide ValidRule, ValidEvidence, BuildGroup, SignalLess;
    assert ValidWindow(s) && Segment([s]) && Acceptable([s]);
    SegmentGroup([s]);
    var g := BuildGroup([s]).value;
    assert [s][0..1] == [s];
    FinishedGrows([s], 0, 1, [], [s], g);
    assert [] + [g] == [g];
    SweptIsCorrelation([s], [s], [g]);
  }

  /** Two signals apart from each other correlate into two groups. */
  lemma TwoSignalsCorrelate(s: Signal, t: Signal)
    requires ValidSignal(s) && ValidSignal(t) && s.id != t.id && Apart(s, t) && SignalLess(s, t)
    ensures BuildGroup([s]).Ok? && BuildGroup([t]).Ok?
    ensures IsCorrelation([s, t], [BuildGroup([s]).value, BuildGroup([t]).value])
  {
    hide ValidRule, ValidEvidence, BuildGroup, SignalLess, Finished, IsCorrelation;
    OneSignalCorrelates(s);
    OneSignalCorrelates(t);
    var both, g, h := [s, t], BuildGroup([s]).value, BuildGroup([t]).value;
    assert both[0..1] == [s] && both[1..] == [t] && both[1..2] == [t];
    NothingFinished(both);
    FinishedGrows(both, 0, 1, [], [s], g);
    FinishedGrows(both, 1, 2, [] + [g], [t], h);
    assert [] + [g] + [h] == [g, h];
    SweptIsCorrelation(both, both, [g, h]);
  }

  lemma NothingFinished(values: seq<Signal>)
    ensures Finished(values, 0, [])
  {
  }

  /** A valid signal opens an incident that satisfies the invariant. */
  lemma OpensIncident(s: Signal) returns (i: Incident)
    requires ValidSignal(s)
    ensures IncidentRuns.Inv(i) && i.signals == [s] && i.state == Open && i.revision == 1 && i.commands == []
    ensures i.updatedAt == i.lastSignalAt == s.end && i.snapshot.source == s.source
  {
    hide ValidRule, ValidEvidence, BuildGroup;
    OneSignalCorrelates(s);
    var g := BuildGroup([s]).value;
    i := NewIncident(g, s.end).value;
    NewIncidentInv(g, s.end);
  }

  /** It closes when fifteen minutes have passed without another signal. */
  lemma Closes(i: Incident) returns (j: Incident)
    requires IncidentRuns.Inv(i) && i.state == Open && i.commands == [] && i.updatedAt == i.lastSignalAt > 0
    ensures IncidentRuns.Inv(j) && j.signals == i.signals && j.snapshot == i.snapshot && j.state == Closed
    ensures j.revision == i.revision + 1 && FindRecord(j.commands, DigestOf('1')).None?
    ensures j.updatedAt == j.closedAt == i.lastSignalAt + INCIDENT_IDLE_TIMEOUT
  {
    hide Inv, DigestOf, CommandFingerprint;
    DigestsShaped();
    var op := Close(Command(DigestOf('0'), i.revision, i.lastSignalAt + INCIDENT_IDLE_TIMEOUT));
    j := Step(i, op);
    StepKeepsInv(i, op);
  }

  /** A signal more than five minutes away, but within thirty minutes of the closing, reopens it. */
  lemma IsReopened(i: Incident, s: Signal, t: Signal) returns (op: Op)
    requires IncidentRuns.Inv(i) && i.state == Closed && i.signals == [s] && i.snapshot.source == t.source == s.source
    requires ValidSignal(t) && s.id != t.id && SignalLess(s, t) && 0 < t.end <= i.closedAt == i.updatedAt
    requires FindRecord(i.commands, DigestOf('1')).None?
    ensures op.Route? && Reopens(i, op) && op.signal == t && Step(i, op).signals == [s, t]
  {
    hide Counted, Timed, Budgeted, Explained, ValidSignal, BuildSnapshot, GrownRelations, DigestOf,
      CommandFingerprint, SignalLess;
    DigestsShaped();
    OneNormal(t);
    SignalLessOrder();
    SortFixed(SignalLess, [s, t]);
    SortedGrowth([s], t);
    assert [s] + [t] == [s, t];
    SnapshotSucceeds([s, t]);
    op := Route(Command(DigestOf('1'), i.revision, i.closedAt), t);
    assert Step(i, op).revision == i.revision + 1;
  }

  /** Such a reopening turns one group into two. */
  lemma ReopeningMaySplit() returns (i: Incident, op: Op, groups: seq<Group>, batch: seq<Group>)
    ensures IncidentRuns.Inv(i) && Reopens(i, op)
    ensures IsCorrelation(i.signals, groups) && |groups| == 1
    ensures IsCorrelation(Step(i, op).signals, batch) && |batch| == 2
  {
    hide *;
    var s, t := FarSignals();
    OneSignalCorrelates(s);
    groups := [BuildGroup([s]).value];
    var first := OpensIncident(s);
    i := Closes(first);
    op := IsReopened(i, s, t);
    TwoSignalsCorrelate(s, t);
    batch := [BuildGroup([s]).value, BuildGroup([t]).value];
  }

  /** Two valid signals of one source, ten minutes apart. */
  lemma FarSignals() returns (s: Signal, t: Signal)
    ensures ValidSignal(s) && ValidSignal(t) && s.source == t.source && s.id != t.id
    ensures SignalLess(s, t) && Apart(s, t) && 0 < s.end < t.end <= s.end + INCIDENT_IDLE_TIMEOUT
  {
    hide ValidSignal, UUID, DigestOf, Dotted;
    s, t := SignalAt(0, SECOND), SignalAt(1, SECOND + 10 * MINUTE);
    SignalAtValid(0, SECOND);
    SignalAtValid(1, SECOND + 10 * MINUTE);
    UUIDs(1);
    StrLessIrreflexive(s.id);
  }
}

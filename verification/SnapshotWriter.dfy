/** The byte buffer of `marshalSnapshotJCS`: written key by key, it ends up as the printed tree. */
module SnapshotWriter {
  import opened Prelude
  import opened Encoding
  import opened Json
  import opened JsonReader
  import opened Snapshot

  /** The members before `k` are written into the buffer. */
  ghost predicate Written(r: string, members: seq<Member>, k: int, whole: string)
    requires 0 <= k <= |members|
  {
    r + PrintMembers(members[k..], k == 0) == whole
  }

  /** A comma unless it is the first, the key, the colon and the text of the value. */
  method WriteMember(buffer: string, first: bool, key: string, text: string, ghost members: seq<Member>,
      ghost k: nat, ghost whole: string)
    returns (r: string)
    requires k < |members| && Written(buffer, members, k, whole)
    requires first == (k == 0) && key == members[k].key && text == Print(members[k].value)
    ensures Written(r, members, k + 1, whole)
  {
    hide Print, PrintMembers, Quote;
    MembersFrom(members, k);
    var lead := (if first then "" else ",") + Quote(key) + ":";
    Shift(buffer, lead, text, PrintMembers(members[k + 1..], false));
    r := buffer + lead + text;
  }

  /** `writeStringArray`. */
  method WriteStringArray(values: seq<string>) returns (r: string)
    ensures r == Print(Texts(values))
  {
    ghost var items := Texts(values).items;
    ItemsAround(items);
    TextItems(values);
    hide Print, PrintItems, Quote, Texts;
    r := "[";
    ghost var whole := "[" + PrintItems(items, true);
    for k := 0 to |values|
      invariant r + PrintItems(items[k..], k == 0) == whole
    {
      ItemsFrom(items, k);
      var sep := if k > 0 then "," else "";
      Shift(r, sep, Quote(values[k]), PrintItems(items[k + 1..], false));
      r := r + sep + Quote(values[k]);
    }
    r := r + "]";
  }

  lemma TextItems(values: seq<string>)
    ensures Texts(values) == Arr(Texts(values).items) && |Texts(values).items| == |values|
    ensures forall k | 0 <= k < |values| :: Print(Texts(values).items[k]) == Quote(values[k])
  {
    hide Quote;
  }

  /** The brace is open, nothing else is written. */
  lemma Opened(members: seq<Member>)
    ensures Written("{", members, 0, "{" + PrintMembers(members, true))
  {
    assert members[0..] == members;
  }

  /** All members are written: the closing brace completes the object. */
  lemma Closed(r: string, members: seq<Member>)
    requires members != [] && Written(r, members, |members|, "{" + PrintMembers(members, true))
    ensures r + "}" == Print(Obj(members))
  {
    MembersAround(members);
    assert r + "" == r;
  }

  /** `writeSignalRefJCS`. */
  method WriteSignalRef(ref: SignalRef) returns (r: string)
    ensures r == Print(RefTree(ref))
  {
    hide Print, PrintMembers, Quote, Itoa, FormatTime, Written;
    ghost var ms := RefMembers(ref);
    ghost var whole := "{" + PrintMembers(ms, true);
    Opened(ms);
    RefTexts(ref);
    hide RefMembers;
    r := WriteMember("{", true, "classification", Quote(ref.classification), ms, 0, whole);
    r := WriteMember(r, false, "configuration_digest", Quote(ref.configDigest), ms, 1, whole);
    r := WriteMember(r, false, "configuration_version", Quote(ref.configVersion), ms, 2, whole);
    r := WriteMember(r, false, "distinct_account_count", Itoa(ref.distinctAccountCount), ms, 3, whole);
    r := WriteMember(r, false, "distinct_suspicious_path_count", Itoa(ref.distinctPathCount), ms, 4, whole);
    r := WriteMember(r, false, "event_count", Itoa(ref.eventCount), ms, 5, whole);
    r := WriteMember(r, false, "evidence_digest", Quote(ref.evidenceDigest), ms, 6, whole);
    r := WriteMember(r, false, "rule_id", Quote(ref.rule), ms, 7, whole);
    r := WriteMember(r, false, "signal_digest", Quote(ref.signalDigest), ms, 8, whole);
    r := WriteMember(r, false, "signal_id", Quote(ref.id), ms, 9, whole);
    r := WriteMember(r, false, "window_end", Quote(FormatTime(ref.end)), ms, 10, whole);
    r := WriteMember(r, false, "window_start", Quote(FormatTime(ref.start)), ms, 11, whole);
    Closed(r, ms);
    r := r + "}";
  }

  ghost predicate Has(m: Member, key: string, text: string) { m.key == key && Print(m.value) == text }

  lemma RefTexts(ref: SignalRef)
    ensures var ms := RefMembers(ref);
      && Has(ms[0], "classification", Quote(ref.classification))
      && Has(ms[1], "configuration_digest", Quote(ref.configDigest))
      && Has(ms[2], "configuration_version", Quote(ref.configVersion))
      && Has(ms[3], "distinct_account_count", Itoa(ref.distinctAccountCount))
      && Has(ms[4], "distinct_suspicious_path_count", Itoa(ref.distinctPathCount))
      && Has(ms[5], "event_count", Itoa(ref.eventCount))
      && Has(ms[6], "evidence_digest", Quote(ref.evidenceDigest)) && Has(ms[7], "rule_id", Quote(ref.rule))
      && Has(ms[8], "signal_digest", Quote(ref.signalDigest)) && Has(ms[9], "signal_id", Quote(ref.id))
      && Has(ms[10], "window_end", Quote(FormatTime(ref.end)))
      && Has(ms[11], "window_start", Quote(FormatTime(ref.start)))
  {
    hide Quote, Itoa, FormatTime, Print;
    LeafTexts();
  }

  lemma SnapshotTexts(s: Snapshot)
    ensures var ms := SnapshotMembers(s);
      && Has(ms[0], "evidence_event_ids", Print(Texts(s.evidenceIDs)))
      && Has(ms[1], "schema_version", Quote("correlation-evidence-v1"))
      && Has(ms[2], "service_labels", Print(Texts(s.services))) && Has(ms[3], "signal_ids", Print(Texts(s.signalIDs)))
      && Has(ms[4], "signal_refs", Print(Arr(RefItems(s.refs))))
      && Has(ms[5], "source_health_status", Quote("complete"))
      && Has(ms[6], "source_ip", Quote(s.source)) && Has(ms[7], "window_end", Quote(FormatTime(s.end)))
      && Has(ms[8], "window_start", Quote(FormatTime(s.start)))
  {
    hide Quote, FormatTime, RefItems, Print, Texts;
    LeafTexts();
  }

  lemma LeafTexts()
    ensures forall text :: Print(Str(text)) == Quote(text)
    ensures forall n :: Print(Num(n)) == Itoa(n)
  {
    hide Quote, Itoa;
  }

  method WriteRefs(refs: seq<SignalRef>) returns (r: string)
    ensures r == Print(Arr(RefItems(refs)))
  {
    ghost var items := RefItems(refs);
    ItemsAround(items);
    hide Print, PrintItems, RefTree;
    r := "[";
    ghost var whole := "[" + PrintItems(items, true);
    for k := 0 to |refs|
      invariant r + PrintItems(items[k..], k == 0) == whole
    {
      ItemsFrom(items, k);
      var sep := if k > 0 then "," else "";
      var text := WriteSignalRef(refs[k]);
      Shift(r, sep, text, PrintItems(items[k + 1..], false));
      r := r + sep + text;
    }
    r := r + "]";
  }

  /** `marshalSnapshotJCS`: what is written are the canonical bytes. */
  method MarshalSnapshot(s: Snapshot) returns (r: string)
    ensures r == Canonical(s)
  {
    hide Print, PrintMembers, Quote, FormatTime, Written, Texts, RefItems;
    ghost var ms := SnapshotMembers(s);
    ghost var whole := "{" + PrintMembers(ms, true);
    Opened(ms);
    SnapshotTexts(s);
    hide SnapshotMembers;
    var evidence := WriteStringArray(s.evidenceIDs);
    r := WriteMember("{", true, "evidence_event_ids", evidence, ms, 0, whole);
    r := WriteMember(r, false, "schema_version", Quote("correlation-evidence-v1"), ms, 1, whole);
    var services := WriteStringArray(s.services);
    r := WriteMember(r, false, "service_labels", services, ms, 2, whole);
    var signals := WriteStringArray(s.signalIDs);
    r := WriteMember(r, false, "signal_ids", signals, ms, 3, whole);
    var refs := WriteRefs(s.refs);
    r := WriteMember(r, false, "signal_refs", refs, ms, 4, whole);
    r := WriteMember(r, false, "source_health_status", Quote("complete"), ms, 5, whole);
    r := WriteMember(r, false, "source_ip", Quote(s.source), ms, 6, whole);
    r := WriteMember(r, false, "window_end", Quote(FormatTime(s.end)), ms, 7, whole);
    r := WriteMember(r, false, "window_start", Quote(FormatTime(s.start)), ms, 8, whole);
    Closed(r, ms);
    r := r + "}";
  }

  // ---- what a reader of the bytes finds ----

  /** The nine members under their keys, and no others. */
  ghost predicate SnapshotObject(v: Value, s: Snapshot) {
    && v.Obj? && |v.members| == 9
    && Member("evidence_event_ids", Texts(s.evidenceIDs)) in v.members
    && Member("schema_version", Str("correlation-evidence-v1")) in v.members
    && Member("service_labels", Texts(s.services)) in v.members
    && Member("signal_ids", Texts(s.signalIDs)) in v.members
    && Member("signal_refs", Arr(RefItems(s.refs))) in v.members
    && Member("source_health_status", Str("complete")) in v.members
    && Member("source_ip", Str(s.source)) in v.members
    && Member("window_end", Str(FormatTime(s.end))) in v.members
    && Member("window_start", Str(FormatTime(s.start))) in v.members
  }

  /** The twelve members of a reference. */
  ghost predicate RefObject(v: Value, r: SignalRef) {
    && v.Obj? && |v.members| == 12
    && Member("classification", Str(r.classification)) in v.members
    && Member("configuration_digest", Str(r.configDigest)) in v.members
    && Member("configuration_version", Str(r.configVersion)) in v.members
    && Member("distinct_account_count", Num(r.distinctAccountCount)) in v.members
    && Member("distinct_suspicious_path_count", Num(r.distinctPathCount)) in v.members
    && Member("event_count", Num(r.eventCount)) in v.members
    && Member("evidence_digest", Str(r.evidenceDigest)) in v.members
    && Member("rule_id", Str(r.rule)) in v.members
    && Member("signal_digest", Str(r.signalDigest)) in v.members
    && Member("signal_id", Str(r.id)) in v.members
    && Member("window_end", Str(FormatTime(r.end))) in v.members
    && Member("window_start", Str(FormatTime(r.start))) in v.members
  }

  lemma RefFields(r: SignalRef)
    ensures RefObject(RefTree(r), r)
  {
    hide FormatTime;
    var ms := RefMembers(r);
    assert ms[0] in ms && ms[1] in ms && ms[2] in ms && ms[3] in ms && ms[4] in ms && ms[5] in ms;
    assert ms[6] in ms && ms[7] in ms && ms[8] in ms && ms[9] in ms && ms[10] in ms && ms[11] in ms;
  }

  lemma SnapshotFields(s: Snapshot)
    ensures SnapshotObject(Tree(s), s)
  {
    hide FormatTime, RefItems, Texts;
    var ms := SnapshotMembers(s);
    assert ms[0] in ms && ms[1] in ms && ms[2] in ms && ms[3] in ms && ms[4] in ms;
    assert ms[5] in ms && ms[6] in ms && ms[7] in ms && ms[8] in ms;
  }

  /** Read as JSON, the canonical bytes are one object with every field of the snapshot under its key. */
  lemma CanonicalReadsBack(s: Snapshot)
    ensures ReadValue(Canonical(s)) == Some((Tree(s), "")) && SnapshotObject(Tree(s), s)
    ensures forall k | 0 <= k < |s.refs| :: RefObject(RefItems(s.refs)[k], s.refs[k])
  {
    hide ReadValue, Print, SnapshotObject, Tree, RefObject, RefTree;
    assert Print(Tree(s)) + "" == Print(Tree(s));
    PrintReadsBack(Tree(s), "");
    SnapshotFields(s);
    forall k | 0 <= k < |s.refs| ensures RefObject(RefItems(s.refs)[k], s.refs[k]) {
      RefFields(s.refs[k]);
    }
  }
}

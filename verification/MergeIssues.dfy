/** Merging a scan into the stored work items (engine/_state/merge_issues.py, engine/_state/merge.py). */
module MergeIssues {
  import opened Wrappers
  import opened RepairQueueRecords
  import opened WorkItems

  /** A revalidation as stored: its key fields, and its manifest and check when they are complete and passing. */
  datatype Revalidation = Revalidation(base: Stored, proof: Option<string>)

  /** An issue's detail: what its fingerprint covers, what it does not, and the repair and concern entries. `hashes` are
      the routed identity and evidence the detail yields. */
  datatype Detail = Detail(
    stable: string,
    position: string,
    hashes: Option<(Route, Hash, Hash)>,
    records: map<Kind, Stored>,
    revalidated: Option<Revalidation>,
    concern: Option<(Hash, Hash)>,
    previousConcern: Option<(Hash, Hash)>)

  /** `lang` is "" when absent. `agentImported` and `verified` are what the resolution attestation says. */
  datatype WorkItem = WorkItem(
    detector: string,
    file: string,
    name: string,
    lang: string,
    zone: Option<string>,
    tier: int,
    confidence: string,
    summary: string,
    detail: Detail,
    importOnly: bool,
    assessmentRequest: bool,
    status: WorkStatus,
    reopened: nat,
    agentImported: bool,
    verified: bool,
    suppressedBy: Option<string>)

  /** What a detector reports in a scan. */
  datatype Found = Found(
    id: string,
    detector: string,
    file: string,
    name: string,
    lang: string,
    zone: Option<string>,
    tier: int,
    confidence: string,
    summary: string,
    detail: Detail,
    importOnly: bool,
    assessmentRequest: bool)

  type Items = map<string, WorkItem>
  type Metadata = set<(string, Fingerprint)>

  /** SHA-256 taken as injective: the fields a suppression fingerprint is computed from. */
  datatype Fingerprint = Fingerprint(
    detector: string,
    name: string,
    summary: string,
    stable: string,
    records: map<Kind, Stored>,
    revalidated: Option<Revalidation>,
    concern: Option<(Hash, Hash)>,
    previousConcern: Option<(Hash, Hash)>)

  /** `glob` decides the patterns that are globs or plain paths; files, zones and exclusions answer the same
      throughout. */
  datatype Options = Options(
    lang: string,
    scanPath: string,
    forceResolve: bool,
    ran: Option<set<string>>,
    ignore: seq<string>,
    metadata: Metadata,
    glob: (string, string, string) -> bool,
    excluded: string -> bool,
    zoneSkips: (string, string) -> bool,
    deleted: string -> bool)

  // ----- suppression -----

  /** An ID-prefix pattern: the only kind that also matches by fingerprint. */
  predicate IsExact(pattern: string) {
    '*' !in pattern && exists i :: 0 <= i < |pattern| - 1 && pattern[i] == ':' && pattern[i + 1] == ':'
  }

  function StoredFingerprint(item: WorkItem): Fingerprint {
    var d := item.detail;
    Fingerprint(item.detector, item.name, item.summary, d.stable, d.records, d.revalidated, d.concern,
                d.previousConcern)
  }

  function FoundFingerprint(f: Found): Fingerprint {
    var d := f.detail;
    Fingerprint(f.detector, f.name, f.summary, d.stable, d.records, d.revalidated, d.concern, d.previousConcern)
  }

  predicate Lends(item: WorkItem) {
    item.suppressedBy.Some? && IsExact(item.suppressedBy.value)
  }

  /** The fingerprints that count for a pattern: the configured ones and those of the items suppressed under it. */
  function MetadataOf(items: Items, configured: Metadata): Metadata {
    configured + set id | id in items && Lends(items[id]) ::
      (items[id].suppressedBy.value, StoredFingerprint(items[id]))
  }

  predicate Matches(opts: Options, known: Metadata, f: Found, pattern: string) {
    if IsExact(pattern) then pattern <= f.id || (pattern, FoundFingerprint(f)) in known
    else opts.glob(pattern, f.id, f.file)
  }

  function MatchFrom(opts: Options, known: Metadata, f: Found, patterns: seq<string>): (m: Option<string>)
    ensures m.Some? <==> exists k :: 0 <= k < |patterns| && Matches(opts, known, f, patterns[k])
  {
    if patterns == [] then None
    else if Matches(opts, known, f, patterns[0]) then Some(patterns[0])
    else
      var m := MatchFrom(opts, known, f, patterns[1..]);
      assert forall k :: 1 <= k < |patterns| ==> patterns[k] == patterns[1..][k - 1];
      m
  }

  function Match(opts: Options, known: Metadata, f: Found): Option<string> {
    MatchFrom(opts, known, f, opts.ignore)
  }

  // ----- inserting and updating -----

  predicate SameIdentity(a: Detail, b: Detail) {
    a.hashes.Some? && b.hashes.Some? && a.hashes.value.0 == b.hashes.value.0 && a.hashes.value.1 == b.hashes.value.1
  }

  function KeptRevalidation(previous: Detail, current: Detail): Option<Revalidation>
    requires SameIdentity(previous, current)
  {
    if previous.revalidated.None? || previous.hashes != current.hashes then None
    else
      var r := previous.revalidated.value;
      if r.base.Garbage? || r.base.repository.None? || r.proof.None? then None
      else
        var h := previous.hashes.value;
        var n := Normalize(RepairPending, r.base, r.base.repository.value, h.0, h.1, h.2);
        if n.Ok? then Some(Revalidation(Written(n.value), r.proof)) else None
  }

  /** The repair records survive while the routed identity is unchanged; a revalidation only while the evidence is
      too. */
  function PreservedDetail(previous: Detail, current: Detail): Detail {
    if !SameIdentity(previous, current) then current
    else
      var h := previous.hashes.value;
      var kept := KeptRevalidation(previous, current);
      current.(
        records := map kind | kind in previous.records.Keys + current.records.Keys ::
          if kind in previous.records then Preserved(kind, previous.records[kind], h.0, h.1, h.2)
          else current.records[kind],
        revalidated := if kept.Some? then kept else current.revalidated)
  }

  function NewDetail(previous: Detail, f: Found): Detail {
    var detail := PreservedDetail(previous, f.detail);
    if f.detector == "concerns" && previous.concern.Some? && f.detail.concern.Some?
       && previous.concern != f.detail.concern
    then detail.(previousConcern := previous.concern)
    else detail
  }

  function NewItem(opts: Options, f: Found, matched: Option<string>): WorkItem {
    WorkItem(f.detector, f.file, f.name, if opts.lang != "" then opts.lang else f.lang, f.zone, f.tier, f.confidence,
             f.summary, f.detail, f.importOnly, f.assessmentRequest, Open, 0, false, false, matched)
  }

  function Refreshed(opts: Options, previous: WorkItem, f: Found, matched: Option<string>): WorkItem {
    previous.(
      tier := f.tier,
      confidence := f.confidence,
      summary := f.summary,
      detail := NewDetail(previous.detail, f),
      zone := if f.zone.Some? then f.zone else previous.zone,
      lang := if opts.lang != "" && previous.lang == "" then opts.lang else previous.lang,
      suppressedBy := matched)
  }

  /** A resolved item that reappears is reopened, unless it is an assessment request an agent import just completed. */
  predicate Reopens(item: WorkItem) {
    && item.status in {Fixed, AutoResolved, FalsePositive}
    && !(item.assessmentRequest && item.status != FalsePositive && item.agentImported)
  }

  function Reopened(item: WorkItem): WorkItem {
    item.(status := Open, reopened := item.reopened + 1, agentImported := false, verified := false)
  }

  datatype Progress = Progress(
    items: Items,
    ids: set<string>,
    added: nat,
    reopened: nat,
    ignored: nat,
    counts: map<string, nat>)

  function Start(items: Items): Progress {
    Progress(items, {}, 0, 0, 0, map[])
  }

  function Counted(counts: map<string, nat>, detector: string): map<string, nat> {
    counts[detector := (if detector in counts then counts[detector] else 0) + 1]
  }

  function Placed(items: Items, opts: Options, f: Found, matched: Option<string>): WorkItem {
    if f.id !in items then NewItem(opts, f, matched)
    else
      var item := Refreshed(opts, items[f.id], f, matched);
      if matched.None? && Reopens(item) then Reopened(item) else item
  }

  function Upserted(p: Progress, opts: Options, known: Metadata, f: Found): Progress {
    var matched := Match(opts, known, f);
    var seen := f.id in p.items;
    Progress(p.items[f.id := Placed(p.items, opts, f, matched)],
             p.ids + {f.id},
             p.added + (if !seen && matched.None? then 1 else 0),
             p.reopened + (if seen && matched.None? && Reopens(p.items[f.id]) then 1 else 0),
             p.ignored + (if matched.Some? then 1 else 0),
             Counted(p.counts, f.detector))
  }

  function UpsertAll(p: Progress, opts: Options, known: Metadata, found: seq<Found>): Progress
    decreases |found|
  {
    if found == [] then p
    else Upserted(UpsertAll(p, opts, known, found[..|found| - 1]), opts, known, found[|found| - 1])
  }

  function Ids(found: seq<Found>): set<string> {
    set i | 0 <= i < |found| :: found[i].id
  }

  // ----- suspect detectors -----

  function OpenOf(items: Items, detector: string): set<string> {
    OpenAmong(items, items.Keys, detector)
  }

  function OpenAmong(items: Items, ids: set<string>, detector: string): set<string> {
    set id | id in ids && id in items && items[id].status == Open && items[id].detector == detector
  }

  function NumOpen(items: Items, ids: set<string>, detector: string): nat {
    |OpenAmong(items, ids, detector)|
  }

  lemma OneMoreOpen(items: Items, ids: set<string>, id: string)
    requires id in items && id !in ids
    ensures forall d ::
      NumOpen(items, ids + {id}, d)
      == NumOpen(items, ids, d) + if items[id].status == Open && items[id].detector == d then 1 else 0
  {
    forall d
      ensures NumOpen(items, ids + {id}, d)
           == NumOpen(items, ids, d) + if items[id].status == Open && items[id].detector == d then 1 else 0
    {
      assert OpenAmong(items, ids + {id}, d)
          == OpenAmong(items, ids, d) + if items[id].status == Open && items[id].detector == d then {id} else {};
    }
  }

  function ImportOnlyDetectors(items: Items): set<string> {
    set id | id in items && items[id].importOnly :: items[id].detector
  }

  predicate Suspect(items: Items, counts: map<string, nat>, opts: Options, detector: string) {
    && !opts.forceResolve
    && (|| detector in ImportOnlyDetectors(items)
        || (&& OpenOf(items, detector) != {}
            && (detector in counts ==> counts[detector] == 0)
            && match opts.ran
               case Some(ran) => detector !in ran
               case None => |OpenOf(items, detector)| >= 3))
  }

  // ----- items absent from the scan -----

  datatype Context = Context(ids: set<string>, suspects: set<string>, confirmed: set<string>, opts: Options)

  datatype Verdict = Untouched | OtherLanguage | OutOfScope | Resolved | Corroborated

  function RStripSlash(s: string): string {
    if s != "" && s[|s| - 1] == '/' then RStripSlash(s[..|s| - 1]) else s
  }

  predicate InScope(path: string, file: string) {
    path == "" || path == "." || RStripSlash(path) + "/" <= file || file == path
  }

  /** What the scan says of a stored item, given the scanned IDs and which detectors are suspect or confirmed. */
  function Judge(id: string, item: WorkItem, cx: Context)
    : Verdict
  {
    var opts := cx.opts;
    if id in cx.ids || item.status !in {Open, Wontfix, Fixed, FalsePositive} then Untouched
    else if opts.lang != "" && item.lang != "" && item.lang != opts.lang then OtherLanguage
    else if item.detector in cx.suspects then Untouched
    else if !InScope(opts.scanPath, item.file) then if item.status == Open then Untouched else OutOfScope
    else if opts.excluded(item.file) then Untouched
    else if item.status != Open then Corroborated
    else if item.file != "" && opts.zoneSkips(item.file, item.detector) then Resolved
    else if item.file != "" && item.file != "." && opts.deleted(item.file) then Resolved
    else if item.detector != "" && item.detector in cx.confirmed then Resolved
    else Untouched
  }

  function Judged(item: WorkItem, v: Verdict): WorkItem {
    match v
    case Untouched => item
    case OtherLanguage => item
    case Resolved => item.(status := AutoResolved)
    case OutOfScope => item.(suppressedBy := None, verified := true)
    case Corroborated => item.(suppressedBy := None, verified := true)
  }

  type Verdicts = map<string, Verdict>

  function VerdictsOn(items: Items, cx: Context): Verdicts {
    map id | id in items :: Judge(id, items[id], cx)
  }

  function Applied(items: Items, verdicts: Verdicts): Items {
    map id | id in items :: if id in verdicts then Judged(items[id], verdicts[id]) else items[id]
  }

  /** The items once those of `ids` are as their verdicts leave them. */
  function AppliedAmong(items: Items, verdicts: Verdicts, ids: set<string>): Items {
    map id | id in items :: if id in ids && id in verdicts then Judged(items[id], verdicts[id]) else items[id]
  }

  function Verified(items: Items, cx: Context): Items {
    Applied(items, VerdictsOn(items, cx))
  }

  /** The counter a verdict is added to: a corroborated item counts as resolved. */
  function Counter(v: Verdict): Verdict {
    if v == Corroborated then Resolved else v
  }

  datatype Tally = Tally(resolved: nat, otherLanguage: nat, outOfScope: nat)

  function Tallied(t: Tally, v: Verdict): Tally {
    match v
    case Untouched => t
    case OtherLanguage => t.(otherLanguage := t.otherLanguage + 1)
    case OutOfScope => t.(outOfScope := t.outOfScope + 1)
    case Resolved => t.(resolved := t.resolved + 1)
    case Corroborated => t.(resolved := t.resolved + 1)
  }

  function TallyOf(verdicts: Verdicts): Tally {
    TallyAmong(verdicts, verdicts.Keys)
  }

  function TallyAmong(verdicts: Verdicts, among: set<string>): Tally {
    Tally(CountAmong(verdicts, among, Resolved), CountAmong(verdicts, among, OtherLanguage),
          CountAmong(verdicts, among, OutOfScope))
  }

  lemma TallyOneMore(verdicts: Verdicts, done: set<string>, id: string)
    requires id in verdicts && id !in done
    ensures TallyAmong(verdicts, done + {id}) == Tallied(TallyAmong(verdicts, done), verdicts[id])
  {
    CountOneMore(verdicts, done, id, Resolved);
    CountOneMore(verdicts, done, id, OtherLanguage);
    CountOneMore(verdicts, done, id, OutOfScope);
  }

  function CountAmong(verdicts: Verdicts, among: set<string>, counter: Verdict): nat {
    |set id | id in among && id in verdicts && Counter(verdicts[id]) == counter|
  }

  lemma CountOneMore(verdicts: Verdicts, done: set<string>, id: string, counter: Verdict)
    requires id in verdicts && id !in done
    ensures CountAmong(verdicts, done + {id}, counter)
         == CountAmong(verdicts, done, counter) + if Counter(verdicts[id]) == counter then 1 else 0
  {
    var counted := set x | x in done && x in verdicts && Counter(verdicts[x]) == counter;
    assert (set x | x in done + {id} && x in verdicts && Counter(verdicts[x]) == counter)
        == if Counter(verdicts[id]) == counter then counted + {id} else counted;
  }

  // ----- the merge -----

  /** One more item judged. */
  lemma VerifyStep(items: Items, verdicts: Verdicts, todo: set<string>, id: string)
    requires todo <= items.Keys == verdicts.Keys && id in todo
    ensures
      var before := AppliedAmong(items, verdicts, items.Keys - todo);
      && id in before && before[id] == items[id]
      && AppliedAmong(items, verdicts, items.Keys - (todo - {id})) == before[id := Judged(items[id], verdicts[id])]
    ensures TallyAmong(verdicts, items.Keys - (todo - {id}))
         == Tallied(TallyAmong(verdicts, items.Keys - todo), verdicts[id])
  {
    assert items.Keys - (todo - {id}) == items.Keys - todo + {id};
    TallyOneMore(verdicts, items.Keys - todo, id);
  }

  lemma VerifyEnds(items: Items, verdicts: Verdicts)
    requires verdicts.Keys == items.Keys
    ensures AppliedAmong(items, verdicts, items.Keys - items.Keys) == items
    ensures TallyAmong(verdicts, items.Keys - items.Keys) == Tally(0, 0, 0)
    ensures AppliedAmong(items, verdicts, items.Keys - {}) == Applied(items, verdicts)
    ensures TallyAmong(verdicts, items.Keys - {}) == TallyOf(verdicts)
  {
    assert items.Keys - items.Keys == {} && items.Keys - {} == items.Keys;
  }

  function Suspects(items: Items, counts: map<string, nat>, opts: Options): (suspects: set<string>)
    ensures forall d :: d in suspects <==> Suspect(items, counts, opts, d)
  {
    var suspects := set id | id in items && Suspect(items, counts, opts, items[id].detector) :: items[id].detector;
    assert forall d :: d in ImportOnlyDetectors(items) ==> exists id :: id in items && items[id].detector == d;
    assert forall d :: OpenOf(items, d) != {} ==> exists id :: id in OpenOf(items, d);
    suspects
  }

  function Confirmed(counts: map<string, nat>, opts: Options): set<string> {
    counts.Keys + if opts.ran.Some? then opts.ran.value else {}
  }

  function AfterUpsert(items: Items, found: seq<Found>, opts: Options): Progress {
    UpsertAll(Start(items), opts, MetadataOf(items, opts.metadata), found)
  }

  function ContextOf(p: Progress, opts: Options): Context {
    Context(p.ids, Suspects(p.items, p.counts, opts), Confirmed(p.counts, opts), opts)
  }

  function Merged(items: Items, found: seq<Found>, opts: Options): Items {
    MergedFrom(AfterUpsert(items, found, opts), opts)
  }

  function MergedFrom(p: Progress, opts: Options): Items {
    Verified(p.items, ContextOf(p, opts))
  }

  /** The work items of a state, merged in place. */
  class WorkState {
    var items: Items

    constructor (initial: Items)
      ensures items == initial
    {
      items := initial;
    }

    /** `upsert_issues`. */
    method Upsert(found: seq<Found>, opts: Options) returns (p: Progress)
      modifies this
      ensures p == AfterUpsert(old(items), found, opts) && items == p.items
    {
      var known := SuppressionMetadata(opts.metadata);
      ghost var start := Start(items);
      p := Start(items);
      for i := 0 to |found|
        invariant p == UpsertAll(start, opts, known, found[..i]) && items == p.items
      {
        assert found[..i + 1][..i] == found[..i];
        p := UpsertOne(found[i], opts, known, p);
      }
      assert found[..|found|] == found;
    }

    method UpsertOne(f: Found, opts: Options, known: Metadata, p: Progress) returns (q: Progress)
      requires p.items == items
      modifies this
      ensures q == Upserted(p, opts, known, f) && items == q.items
    {
      var count := if f.detector in p.counts then p.counts[f.detector] else 0;
      q := p.(ids := p.ids + {f.id}, counts := p.counts[f.detector := count + 1]);
      var matched := Match(opts, known, f);
      if matched.Some? {
        q := q.(ignored := q.ignored + 1);
      }
      if f.id !in items {
        items := items[f.id := NewItem(opts, f, matched)];
        return q.(items := items, added := if matched.Some? then q.added else q.added + 1);
      }
      var item := Refreshed(opts, items[f.id], f, matched);
      items := items[f.id := item];
      if matched.None? && Reopens(item) {
        items := items[f.id := Reopened(item)];
        q := q.(reopened := q.reopened + 1);
      }
      q := q.(items := items);
    }

    /** `_suppression_metadata_from_state`. */
    method SuppressionMetadata(configured: Metadata) returns (known: Metadata)
      ensures known == MetadataOf(items, configured)
    {
      known := configured;
      var todo := items.Keys;
      while todo != {}
        invariant todo <= items.Keys
        invariant known == configured + set id | id in items.Keys - todo && Lends(items[id])
                                          :: (items[id].suppressedBy.value, StoredFingerprint(items[id]))
        decreases |todo|
      {
        var id :| id in todo;
        todo := todo - {id};
        if Lends(items[id]) {
          known := known + {(items[id].suppressedBy.value, StoredFingerprint(items[id]))};
        }
      }
    }

    /** `find_suspect_detectors`. */
    method FindSuspects(counts: map<string, nat>, opts: Options) returns (suspects: set<string>)
      ensures suspects == Suspects(items, counts, opts)
    {
      if opts.forceResolve {
        return {};
      }
      var open := CountOpen();
      var importOnly := ImportOnlyDetectors(items);
      suspects := importOnly;
      var todo := open.Keys;
      while todo != {}
        invariant todo <= open.Keys
        invariant forall d :: d in suspects <==>
          d in importOnly || (d in open && d !in todo && Suspect(items, counts, opts, d))
        decreases |todo|
      {
        var d :| d in todo;
        todo := todo - {d};
        if d in suspects {
          continue;
        }
        if d in counts && counts[d] > 0 {
          continue;
        }
        if opts.ran.Some? {
          if d !in opts.ran.value {
            suspects := suspects + {d};
          }
          continue;
        }
        if open[d] >= 3 {
          suspects := suspects + {d};
        }
      }
    }

    method CountOpen() returns (open: map<string, nat>)
      ensures forall d :: d in open <==> |OpenOf(items, d)| > 0
      ensures forall d :: d in open ==> open[d] == |OpenOf(items, d)|
    {
      open := map[];
      var todo := items.Keys;
      ghost var done: set<string> := {};
      while todo != {}
        invariant todo <= items.Keys && forall id :: id in items ==> (id in done <==> id !in todo)
        invariant done <= items.Keys
        invariant forall d :: (if d in open then open[d] else 0) == NumOpen(items, done, d)
        invariant forall d :: d in open ==> open[d] > 0
        decreases |todo|
      {
        var id :| id in todo;
        OneMoreOpen(items, done, id);
        todo, done := todo - {id}, done + {id};
        if items[id].status == Open {
          var d := items[id].detector;
          open := open[d := (if d in open then open[d] else 0) + 1];
        }
      }
      assert done == items.Keys;
      assert forall d :: NumOpen(items, done, d) == |OpenOf(items, d)|;
    }

    /** `verify_disappeared`. */
    method VerifyDisappeared(cx: Context) returns (tally: Tally)
      modifies this
      ensures items == Verified(old(items), cx)
      ensures tally == TallyOf(VerdictsOn(old(items), cx))
    {
      tally := VerifyEach(cx, VerdictsOn(items, cx));
    }

    method VerifyEach(cx: Context, ghost verdicts: Verdicts) returns (tally: Tally)
      requires verdicts.Keys == items.Keys
      requires forall id {:trigger Judge(id, items[id], cx)} :: id in items ==> verdicts[id] == Judge(id, items[id], cx)
      modifies this
      ensures items == Applied(old(items), verdicts)
      ensures tally == TallyOf(verdicts)
    {
      tally := Tally(0, 0, 0);
      ghost var before := items;
      var todo := items.Keys;
      VerifyEnds(before, verdicts);
      while todo != {}
        invariant todo <= before.Keys
        invariant items == AppliedAmong(before, verdicts, before.Keys - todo)
        invariant tally == TallyAmong(verdicts, before.Keys - todo)
        decreases |todo|
      {
        var id :| id in todo;
        VerifyStep(before, verdicts, todo, id);
        todo := todo - {id};
        var v := VerifyOne(id, cx);
        tally := Tallied(tally, v);
      }
    }

    method VerifyOne(id: string, cx: Context)
      returns (v: Verdict)
      requires id in items
      modifies this
      ensures v == Judge(id, old(items)[id], cx)
      ensures items == old(items)[id := Judged(old(items)[id], v)]
    {
      var item, opts := items[id], cx.opts;
      if id in cx.ids || item.status !in {Open, Wontfix, Fixed, FalsePositive} {
        return Untouched;
      }
      if opts.lang != "" && item.lang != "" && item.lang != opts.lang {
        return OtherLanguage;
      }
      if item.detector in cx.suspects {
        return Untouched;
      }
      if !InScope(opts.scanPath, item.file) {
        if item.status == Open {
          return Untouched;
        }
        items := items[id := item.(suppressedBy := None, verified := true)];
        return OutOfScope;
      }
      if opts.excluded(item.file) {
        return Untouched;
      }
      if item.status == Open {
        var skipped := item.file != "" && opts.zoneSkips(item.file, item.detector);
        var deleted := item.file != "" && item.file != "." && opts.deleted(item.file);
        if skipped || deleted || (item.detector != "" && item.detector in cx.confirmed) {
          items := items[id := item.(status := AutoResolved)];
          return Resolved;
        }
        return Untouched;
      }
      items := items[id := item.(suppressedBy := None, verified := true)];
      v := Corroborated;
    }

    /** `merge_scan`: insert and update, find the suspect detectors, then judge what the scan did not report. */
    method MergeScan(found: seq<Found>, opts: Options) returns (p: Progress, tally: Tally)
      modifies this
      ensures p == AfterUpsert(old(items), found, opts) && items == Merged(old(items), found, opts)
      ensures tally == TallyOf(VerdictsOn(p.items, ContextOf(p, opts)))
    {
      p := Upsert(found, opts);
      tally := Conclude(p, opts);
    }

    /** The rest of `merge_scan`, once the scanned issues are in. */
    method Conclude(p: Progress, opts: Options) returns (tally: Tally)
      requires items == p.items
      modifies this
      ensures items == MergedFrom(p, opts)
      ensures tally == TallyOf(VerdictsOn(p.items, ContextOf(p, opts)))
    {
      var confirmed := p.counts.Keys;
      if opts.ran.Some? {
        confirmed := confirmed + opts.ran.value;
      }
      var suspects := FindSuspects(p.counts, opts);
      var cx := Context(p.ids, suspects, confirmed, opts);
      assert cx == ContextOf(p, opts);
      tally := VerifyDisappeared(cx);
    }
  }
}

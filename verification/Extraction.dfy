/** What one extraction run does to the documents: the status machine, and the run as a whole. */
module Extraction {
  import opened Wrappers

  type Id = string

  datatype Status = Pending | Processing | Extracted | Reviewed | Failed

  datatype Document = Document(book: string, mime: Option<string>, path: string, status: Status, error: Option<string>)

  /** The documents by id, and each document's current extraction. */
  datatype Store = Store(docs: map<Id, Document>, current: map<Id, string>)

  /** `document_transition_allowed`. */
  predicate Allowed(from: Status, to: Status) {
    match from
    case Pending => to.Processing? || to.Failed?
    case Processing => to.Extracted? || to.Failed?
    case Extracted => to.Reviewed?
    case Failed => to.Pending?
    case Reviewed => false
  }

  // ----- the world outside: files and the provider -----

  /** The file of each document, or why it cannot be read; the provider's answer for its contents. */
  datatype Outside = Outside(read: Id -> Result<string, string>, extract: (string, string) -> Result<string, string>)

  const Supported: set<string> := {"image/jpeg", "image/png", "image/gif", "image/webp", "application/pdf"}

  function MimeOf(d: Document): string {
    if d.mime.Some? then d.mime.value else ""
  }

  /** What should become of a document. */
  datatype Verdict = Skip | Fail(message: string) | Extract(payload: string)

  function VerdictOf(id: Id, d: Document, o: Outside): Verdict {
    if MimeOf(d) !in Supported then Skip
    else match o.read(id)
      case Err(e) => Fail("cannot read " + d.path + ": " + e)
      case Ok(bytes) =>
        match o.extract(MimeOf(d), bytes)
        case Ok(payload) => Extract(payload)
        case Err(e) => Fail(e)
  }

  /** The verdict, by the type the document is stored under, its file, and the provider's answer. */
  lemma VerdictExactly(id: Id, d: Document, o: Outside)
    ensures VerdictOf(id, d, o) == Skip <==> d.mime !in {
      Some("image/jpeg"), Some("image/png"), Some("image/gif"), Some("image/webp"), Some("application/pdf")}
    ensures VerdictOf(id, d, o) != Skip ==>
      match o.read(id)
      case Err(e) => VerdictOf(id, d, o) == Fail("cannot read " + d.path + ": " + e)
      case Ok(bytes) =>
        && (forall m :: o.extract(d.mime.value, bytes) == Err(m) ==> VerdictOf(id, d, o) == Fail(m))
        && (forall p :: o.extract(d.mime.value, bytes) == Ok(p) ==> VerdictOf(id, d, o) == Extract(p))
  {
  }

  function Settled(d: Document, v: Verdict): Document {
    match v
    case Skip => d
    case Fail(message) => d.(status := Failed, error := Some(message))
    case Extract(_) => d.(status := Extracted, error := None)
  }

  // ----- which documents -----

  predicate Listed(s: Store, id: Id, book: string) {
    id in s.docs && s.docs[id].book == book && s.docs[id].status.Pending?
  }

  /** `document_list` of the pending documents, newest first; `order` is all ids, newest first. */
  function PendingIn(s: Store, order: seq<Id>, book: string): (ids: seq<Id>)
    ensures forall i :: 0 <= i < |ids| ==> ids[i] in order && Listed(s, ids[i], book)
  {
    if order == [] then []
    else (if Listed(s, order[0], book) then [order[0]] else []) + PendingIn(s, order[1..], book)
  }

  predicate Distinct(ids: seq<Id>) {
    forall i, j :: 0 <= i < j < |ids| ==> ids[i] != ids[j]
  }

  lemma {:induction false} PendingIsExact(s: Store, order: seq<Id>, book: string)
    requires Distinct(order)
    ensures Distinct(PendingIn(s, order, book))
    ensures forall id :: id in PendingIn(s, order, book) <==> id in order && Listed(s, id, book)
  {
    if order != [] {
      var rest := order[1..];
      PendingIsExact(s, rest, book);
      assert order == [order[0]] + rest;
      assert order[0] !in rest;
    }
  }

  function Batch(s: Store, order: seq<Id>, book: string, limit: nat): (ids: seq<Id>)
    ensures forall i :: 0 <= i < |ids| ==> Listed(s, ids[i], book)
  {
    var pending := PendingIn(s, order, book);
    if |pending| <= limit then pending else pending[..limit]
  }

  lemma BatchIsDistinct(s: Store, order: seq<Id>, book: string, limit: nat)
    requires Distinct(order)
    ensures Distinct(Batch(s, order, book, limit))
  {
    PendingIsExact(s, order, book);
  }

  // ----- which of them a run takes -----

  /** The positions before `p` of documents pending in the book. */
  function Waiting(s: Store, order: seq<Id>, book: string, p: nat): set<nat>
    requires p <= |order|
  {
    set q: nat | q < p && order[q] in s.docs && s.docs[order[q]].book == book && s.docs[order[q]].status == Pending
  }

  lemma {:induction false} PendingIsCounted(s: Store, order: seq<Id>, book: string, p: nat)
    requires p <= |order|
    ensures |PendingIn(s, order[..p], book)| == |Waiting(s, order, book, p)|
  {
    if p > 0 {
      PendingIsCounted(s, order, book, p - 1);
      assert order[..p] == order[..p - 1] + [order[p - 1]];
      PendingOfTwo(s, order[..p - 1], [order[p - 1]], book);
      PendingOfOne(s, order[p - 1], book);
      OneMoreWaiting(s, order, book, p - 1);
    }
  }

  lemma PendingOfOne(s: Store, id: Id, book: string)
    ensures PendingIn(s, [id], book) == if Listed(s, id, book) then [id] else []
  {
  }

  lemma OneMoreWaiting(s: Store, order: seq<Id>, book: string, p: nat)
    requires p < |order|
    ensures |Waiting(s, order, book, p + 1)|
         == |Waiting(s, order, book, p)| + if Listed(s, order[p], book) then 1 else 0
  {
    assert Waiting(s, order, book, p + 1)
        == Waiting(s, order, book, p) + if Listed(s, order[p], book) then {p} else {};
  }

  lemma {:induction false} PendingOfTwo(s: Store, a: seq<Id>, b: seq<Id>, book: string)
    ensures PendingIn(s, a + b, book) == PendingIn(s, a, book) + PendingIn(s, b, book)
  {
    if a == [] {
      assert a + b == b;
    } else {
      assert (a + b)[1..] == a[1..] + b;
      PendingOfTwo(s, a[1..], b, book);
    }
  }

  /** A pending document stands in the list at the number of pending ones before it. */
  lemma PendingStandsAt(s: Store, order: seq<Id>, book: string, p: nat)
    requires p < |order| && Listed(s, order[p], book)
    ensures var k := |Waiting(s, order, book, p)|;
            k < |PendingIn(s, order, book)| && PendingIn(s, order, book)[k] == order[p]
  {
    PendingIsCounted(s, order, book, p);
    assert order == order[..p] + order[p..];
    PendingOfTwo(s, order[..p], order[p..], book);
    assert PendingIn(s, order[p..], book)[0] == order[p];
  }

  /** The batch holds, newest first, exactly the documents pending in the book with fewer than `limit`
      such documents before them. */
  lemma BatchIsExact(s: Store, order: seq<Id>, book: string, limit: nat)
    requires Distinct(order)
    ensures |Batch(s, order, book, limit)| ==
      var all := |Waiting(s, order, book, |order|)|; if all <= limit then all else limit
    ensures forall p :: 0 <= p < |order| && Listed(s, order[p], book) ==>
      var k := |Waiting(s, order, book, p)|;
      if k < limit then k < |Batch(s, order, book, limit)| && Batch(s, order, book, limit)[k] == order[p]
      else order[p] !in Batch(s, order, book, limit)
    ensures forall p :: 0 <= p < |order| && !Listed(s, order[p], book) ==> order[p] !in Batch(s, order, book, limit)
  {
    assert order[..|order|] == order;
    PendingIsCounted(s, order, book, |order|);
    PendingIsExact(s, order, book);
    forall p | 0 <= p < |order| && Listed(s, order[p], book)
      ensures var k := |Waiting(s, order, book, p)|;
        if k < limit then k < |Batch(s, order, book, limit)| && Batch(s, order, book, limit)[k] == order[p]
        else order[p] !in Batch(s, order, book, limit)
    {
      PendingStandsAt(s, order, book, p);
    }
  }

  // ----- the run as a whole -----

  predicate Known(s: Store, ids: seq<Id>) {
    forall i :: 0 <= i < |ids| ==> ids[i] in s.docs
  }

  /** The store once the listed documents have their verdicts, and nothing else has changed. */
  function After(s: Store, ids: seq<Id>, o: Outside): Store
    requires Known(s, ids)
  {
    Store(map id | id in s.docs :: if id in ids then Settled(s.docs[id], VerdictOf(id, s.docs[id], o)) else s.docs[id],
          map id | id in s.docs.Keys + s.current.Keys
                && (id in s.current || (id in ids && VerdictOf(id, s.docs[id], o).Extract?)) ::
            if id in ids && VerdictOf(id, s.docs[id], o).Extract?
            then VerdictOf(id, s.docs[id], o).payload else s.current[id])
  }

  datatype FailedDocument = FailedDocument(id: Id, error: string)

  datatype Run = Run(extracted: seq<Id>, failed: seq<FailedDocument>, skipped: seq<Id>)

  const NoRun: Run := Run([], [], [])

  function Tallied(run: Run, id: Id, v: Verdict): Run {
    match v
    case Skip => run.(skipped := run.skipped + [id])
    case Fail(message) => run.(failed := run.failed + [FailedDocument(id, message)])
    case Extract(_) => run.(extracted := run.extracted + [id])
  }

  /** The report on the listed documents, in order. */
  function Report(s: Store, ids: seq<Id>, o: Outside): Run
    requires Known(s, ids)
  {
    if ids == [] then NoRun
    else
      var last := ids[|ids| - 1];
      Tallied(Report(s, ids[..|ids| - 1], o), last, VerdictOf(last, s.docs[last], o))
  }

  function FailedIds(fs: seq<FailedDocument>): seq<Id> {
    if fs == [] then [] else FailedIds(fs[..|fs| - 1]) + [fs[|fs| - 1].id]
  }

  lemma FailedIdsAppend(fs: seq<FailedDocument>, f: FailedDocument)
    ensures FailedIds(fs + [f]) == FailedIds(fs) + [f.id]
  {
  }

  /** The documents the three lists name. */
  function Mentioned(r: Run): multiset<Id> {
    multiset(r.extracted) + multiset(FailedIds(r.failed)) + multiset(r.skipped)
  }

  lemma TalliedOnce(r: Run, id: Id, v: Verdict)
    ensures Mentioned(Tallied(r, id, v)) == Mentioned(r) + multiset{id}
  {
    if v.Fail? {
      FailedIdsAppend(r.failed, FailedDocument(id, v.message));
    }
  }

  /** Every document of the batch is reported once, in exactly one of the three lists, with nothing
      else in them. */
  lemma {:induction false} ReportIsAPartition(s: Store, ids: seq<Id>, o: Outside)
    requires Known(s, ids)
    ensures Mentioned(Report(s, ids, o)) == multiset(ids)
    decreases |ids|
  {
    if ids != [] {
      var front, last := ids[..|ids| - 1], ids[|ids| - 1];
      ReportIsAPartition(s, front, o);
      assert ids == front + [last];
      TalliedOnce(Report(s, front, o), last, VerdictOf(last, s.docs[last], o));
    }
  }

  /** The document is in one of the three lists. */
  predicate Reports(r: Run, id: Id) {
    id in r.extracted || id in r.skipped || exists i :: 0 <= i < |r.failed| && r.failed[i].id == id
  }

  lemma {:induction false} FailedIdsAre(fs: seq<FailedDocument>, id: Id)
    ensures |FailedIds(fs)| == |fs|
    ensures id in FailedIds(fs) <==> exists i :: 0 <= i < |fs| && fs[i].id == id
    decreases |fs|
  {
    if fs != [] {
      FailedIdsAre(fs[..|fs| - 1], id);
      assert fs == fs[..|fs| - 1] + [fs[|fs| - 1]];
      if i :| 0 <= i < |fs| && fs[i].id == id {
        assert i < |fs| - 1 ==> fs[..|fs| - 1][i].id == id;
      }
    }
  }

  lemma ReportsTheBatch(s: Store, ids: seq<Id>, o: Outside, id: Id)
    requires Known(s, ids)
    ensures var r := Report(s, ids, o);
            (Reports(r, id) <==> id in ids) && |r.extracted| + |r.failed| + |r.skipped| == |ids|
  {
    var r := Report(s, ids, o);
    ReportIsAPartition(s, ids, o);
    FailedIdsAre(r.failed, id);
    assert id in multiset(ids) <==> id in Mentioned(r);
    assert |multiset(ids)| == |ids| && |Mentioned(r)| == |r.extracted| + |FailedIds(r.failed)| + |r.skipped|;
  }

  /** A complete run reports exactly the documents pending in the book with fewer than `limit` such
      documents before them, and as many as there are of those. */
  lemma RunTakesExactly(s: Store, order: seq<Id>, book: string, limit: nat, o: Outside)
    requires Distinct(order)
    ensures var r := Report(s, Batch(s, order, book, limit), o);
      && (forall p :: 0 <= p < |order| ==>
            (Reports(r, order[p]) <==> p in Waiting(s, order, book, |order|) && |Waiting(s, order, book, p)| < limit))
      && var all := |Waiting(s, order, book, |order|)|;
         |r.extracted| + |r.failed| + |r.skipped| == if all <= limit then all else limit
  {
    BatchIsExact(s, order, book, limit);
    forall p | 0 <= p < |order|
      ensures Reports(Report(s, Batch(s, order, book, limit), o), order[p])
        <==> p in Waiting(s, order, book, |order|) && |Waiting(s, order, book, p)| < limit
    {
      ReportsTheBatch(s, Batch(s, order, book, limit), o, order[p]);
    }
    ReportsTheBatch(s, Batch(s, order, book, limit), o, "");
  }

  /** The list has its documents in the order in which `ids` has them. */
  ghost predicate Follows(list: seq<Id>, ids: seq<Id>)
    decreases |list|
  {
    list == []
    || exists k :: 0 <= k < |ids| && ids[k] == list[|list| - 1] && Follows(list[..|list| - 1], ids[..k])
  }

  lemma FollowsOn(list: seq<Id>, ids: seq<Id>, id: Id)
    requires Follows(list, ids)
    ensures Follows(list, ids + [id]) && Follows(list + [id], ids + [id])
  {
    if list != [] {
      var k :| 0 <= k < |ids| && ids[k] == list[|list| - 1] && Follows(list[..|list| - 1], ids[..k]);
      assert (ids + [id])[..k] == ids[..k] && (ids + [id])[k] == ids[k];
    }
    assert (list + [id])[..|list|] == list && (ids + [id])[..|ids|] == ids;
  }

  ghost predicate AllFollow(r: Run, ids: seq<Id>) {
    Follows(r.extracted, ids) && Follows(FailedIds(r.failed), ids) && Follows(r.skipped, ids)
  }

  lemma TalliedFollows(r: Run, ids: seq<Id>, id: Id, all: seq<Id>, v: Verdict)
    requires AllFollow(r, ids) && all == ids + [id]
    ensures AllFollow(Tallied(r, id, v), all)
  {
    FollowsOn(r.extracted, ids, id);
    FollowsOn(FailedIds(r.failed), ids, id);
    FollowsOn(r.skipped, ids, id);
    if v.Fail? {
      FailedIdsAppend(r.failed, FailedDocument(id, v.message));
    }
  }

  /** All three lists are in the order of the batch. */
  lemma {:induction false} ListsFollowTheBatch(s: Store, ids: seq<Id>, o: Outside)
    requires Known(s, ids)
    ensures AllFollow(Report(s, ids, o), ids)
    decreases |ids|
  {
    if ids != [] {
      var front, last := ids[..|ids| - 1], ids[|ids| - 1];
      ListsFollowTheBatch(s, front, o);
      TalliedFollows(Report(s, front, o), front, last, ids, VerdictOf(last, s.docs[last], o));
    }
  }

  /** A failed document is listed with the message it now carries. */
  lemma {:induction false} FailuresCarryTheirMessage(s: Store, ids: seq<Id>, o: Outside, i: nat)
    requires Known(s, ids) && i < |Report(s, ids, o).failed|
    ensures var f := Report(s, ids, o).failed[i];
            f.id in ids && After(s, ids, o).docs[f.id] == s.docs[f.id].(status := Failed, error := Some(f.error))
    decreases |ids|
  {
    if ids != [] {
      var front, last := ids[..|ids| - 1], ids[|ids| - 1];
      assert ids == front + [last];
      if i < |Report(s, front, o).failed| {
        FailuresCarryTheirMessage(s, front, o, i);
      }
    }
  }

  /** Being in a list and having the matching final status are the same thing. */
  lemma {:induction false} ReportMatchesStatus(s: Store, ids: seq<Id>, o: Outside, id: Id)
    requires Known(s, ids) && id in ids && s.docs[id].status.Pending?
    ensures var r, d := Report(s, ids, o), After(s, ids, o).docs[id];
            && (id in r.extracted <==> d.status.Extracted?)
            && (id in FailedIds(r.failed) <==> d.status.Failed?)
            && (id in r.skipped <==> d.status.Pending?)
            && (d.status.Extracted? ==> VerdictOf(id, s.docs[id], o) == Extract(After(s, ids, o).current[id]))
  {
    ListedByVerdict(s, ids, o, id);
  }

  lemma {:induction false} ListedByVerdict(s: Store, ids: seq<Id>, o: Outside, id: Id)
    requires Known(s, ids) && id in s.docs
    ensures var r, v := Report(s, ids, o), VerdictOf(id, s.docs[id], o);
            && (id in r.extracted <==> id in ids && v.Extract?)
            && (id in FailedIds(r.failed) <==> id in ids && v.Fail?)
            && (id in r.skipped <==> id in ids && v.Skip?)
    decreases |ids|
  {
    if ids != [] {
      var front, last := ids[..|ids| - 1], ids[|ids| - 1];
      ListedByVerdict(s, front, o, id);
      assert ids == front + [last];
      var r, v := Report(s, front, o), VerdictOf(last, s.docs[last], o);
      if v.Fail? {
        FailedIdsAppend(r.failed, FailedDocument(last, v.message));
      }
    }
  }

  // ----- what a run, complete or cut short, leaves -----

  /** The first `k` documents settled; the next one, unless it was to be skipped, perhaps caught in
      `Processing`; the rest as they were. */
  ghost predicate CutShort(s: Store, ids: seq<Id>, o: Outside, k: nat, s': Store) {
    && Known(s, ids) && k < |ids| && !VerdictOf(ids[k], s.docs[ids[k]], o).Skip?
    && var settled := After(s, ids[..k], o);
       s' == settled
       || s' == settled.(docs := settled.docs[ids[k] := s.docs[ids[k]].(status := Processing, error := None)])
  }

  /** How one run may leave a store: all of the batch settled, or cut short part-way. */
  ghost predicate Outcome(s: Store, ids: seq<Id>, o: Outside, s': Store) {
    Known(s, ids) && (s' == After(s, ids, o) || s' == s || exists k: nat :: CutShort(s, ids, o, k, s'))
  }

  /** An error part-way leaves at most one document of the run in `Processing`. */
  lemma AtMostOneProcessing(s: Store, ids: seq<Id>, o: Outside, k: nat, s': Store, a: Id, b: Id)
    requires CutShort(s, ids, o, k, s') && a in ids && b in ids
    requires s.docs[a].status.Pending? && s.docs[b].status.Pending?
    requires s'.docs[a].status.Processing? && s'.docs[b].status.Processing?
    ensures a == b
  {
  }

  /** No run, complete or not, touches a document that is not in its batch. */
  lemma OthersUntouched(s: Store, ids: seq<Id>, o: Outside, s': Store, id: Id)
    requires Outcome(s, ids, o, s') && id !in ids
    ensures id in s'.docs <==> id in s.docs
    ensures id in s.docs ==> s'.docs[id] == s.docs[id]
    ensures id in s'.current <==> id in s.current
    ensures id in s.current ==> s'.current[id] == s.current[id]
  {
  }

  /** A complete run changes nothing exactly when all of its batch is unsupported. */
  lemma NoProgressExactlyWhenAllSkipped(s: Store, order: seq<Id>, book: string, limit: nat, o: Outside)
    ensures var ids := Batch(s, order, book, limit);
            After(s, ids, o) == s <==> forall i :: 0 <= i < |ids| ==> MimeOf(s.docs[ids[i]]) !in Supported
  {
    var ids := Batch(s, order, book, limit);
    if exists i :: 0 <= i < |ids| && MimeOf(s.docs[ids[i]]) in Supported {
      var i :| 0 <= i < |ids| && MimeOf(s.docs[ids[i]]) in Supported;
      assert Listed(s, ids[i], book);
      assert After(s, ids, o).docs[ids[i]].status != Pending;
    } else {
      AllSkipped(s, ids, o);
    }
  }

  lemma AllSkipped(s: Store, ids: seq<Id>, o: Outside)
    requires Known(s, ids) && forall i :: 0 <= i < |ids| ==> MimeOf(s.docs[ids[i]]) !in Supported
    ensures After(s, ids, o) == s
  {
    assert After(s, ids, o).docs == s.docs && After(s, ids, o).current == s.current;
  }

  // ----- what can be tried again -----

  /** Allowed transitions, one after the other. */
  predicate Route(ss: seq<Status>) {
    ss != [] && forall i :: 0 <= i < |ss| - 1 ==> Allowed(ss[i], ss[i + 1])
  }

  /** By `document_transition` a document can become pending again if and only if it is pending,
      processing or failed: an error that leaves it in `Processing` costs a second transition, and
      only an extracted document is out of reach. */
  lemma RetryableExactly(st: Status)
    ensures (exists ss :: Route(ss) && ss[0] == st && ss[|ss| - 1] == Pending)
       <==> st.Pending? || st.Processing? || st.Failed?
  {
    match st {
      case Pending => assert Route([Pending]);
      case Processing => assert Route([Processing, Failed, Pending]);
      case Failed => assert Route([Failed, Pending]);
      case _ =>
        forall ss | Route(ss) && ss[0] == st
          ensures ss[|ss| - 1] != Pending
        {
          ExtractedIsFinal(ss);
        }
    }
  }

  lemma {:induction false} ExtractedIsFinal(ss: seq<Status>)
    requires Route(ss) && (ss[0].Extracted? || ss[0].Reviewed?)
    ensures ss[|ss| - 1].Extracted? || ss[|ss| - 1].Reviewed?
  {
    if |ss| > 1 {
      assert Allowed(ss[0], ss[1]);
      assert Route(ss[1..]);
      ExtractedIsFinal(ss[1..]);
    }
  }

  // ----- run after run -----

  /** The store, and all document ids, newest first. */
  datatype World = World(s: Store, order: seq<Id>)

  /** A run, complete or cut short; a document imported; any other change to one document. */
  datatype Event =
    | Ran(book: string, limit: nat, outside: Outside)
    | Imported(id: Id, doc: Document)
    | Changed(id: Id, doc: Document)

  ghost predicate Happens(w: World, e: Event, w': World) {
    match e
    case Ran(book, limit, o) => w'.order == w.order && Outcome(w.s, Batch(w.s, w.order, book, limit), o, w'.s)
    case Imported(id, doc) =>
      id !in w.s.docs && id !in w.order
      && w' == World(w.s.(docs := w.s.docs[id := doc]), [id] + w.order)
    case Changed(id, doc) => id in w.s.docs && w' == w.(s := w.s.(docs := w.s.docs[id := doc]))
  }

  ghost predicate History(worlds: seq<World>, events: seq<Event>) {
    && |worlds| == |events| + 1
    && forall i :: 0 <= i < |events| ==> Happens(worlds[i], events[i], worlds[i + 1])
  }

  /** Runs never touch a document that is not pending, however many there are and whatever is
      imported or changed in between. */
  lemma {:induction false} RunsLeaveSettledDocumentsAlone(worlds: seq<World>, events: seq<Event>, n: nat, id: Id)
    requires History(worlds, events) && n < |worlds|
    requires id in worlds[0].s.docs && !worlds[0].s.docs[id].status.Pending?
    requires forall i :: 0 <= i < n && events[i].Changed? ==> events[i].id != id
    ensures id in worlds[n].s.docs && worlds[n].s.docs[id] == worlds[0].s.docs[id]
  {
    if n > 0 {
      RunsLeaveSettledDocumentsAlone(worlds, events, n - 1, id);
      SettledStays(worlds[n - 1], events[n - 1], worlds[n], id);
    }
  }

  lemma SettledStays(w: World, e: Event, w': World, id: Id)
    requires Happens(w, e, w') && id in w.s.docs && !w.s.docs[id].status.Pending?
    requires e.Changed? ==> e.id != id
    ensures id in w'.s.docs && w'.s.docs[id] == w.s.docs[id]
  {
    if e.Ran? {
      var ids := Batch(w.s, w.order, e.book, e.limit);
      assert id !in ids;
      OthersUntouched(w.s, ids, e.outside, w'.s, id);
    }
  }

  // ----- starvation -----

  /** At least `limit` pending documents of an unsupported type are listed before `x`. */
  ghost predicate Blocked(w: World, x: Id, blockers: set<Id>, p: nat, book: string, limit: nat) {
    && Distinct(w.order) && p < |w.order| && w.order[p] == x && x in w.s.docs
    && |blockers| >= limit
    && forall u :: u in blockers ==>
         u in w.order[..p] && Listed(w.s, u, book) && MimeOf(w.s.docs[u]) !in Supported
  }

  lemma {:induction false} DistinctElements(xs: seq<Id>, us: set<Id>)
    requires forall u :: u in us ==> u in xs
    ensures |us| <= |xs|
    decreases |xs|
  {
    if xs == [] {
      assert us == {};
    } else {
      var rest := us - {xs[0]};
      forall u | u in rest ensures u in xs[1..] {
      }
      DistinctElements(xs[1..], rest);
      assert us <= rest + {xs[0]};
    }
  }

  /** The blockers fill the batch. */
  lemma BlockedIsNotInTheBatch(w: World, x: Id, blockers: set<Id>, p: nat, book: string, limit: nat, fewer: nat)
    requires Blocked(w, x, blockers, p, book, limit) && fewer <= limit
    ensures x !in Batch(w.s, w.order, book, fewer)
  {
    var front, back := w.order[..p], w.order[p..];
    assert w.order == front + back;
    PendingOfTwo(w.s, front, back, book);
    PendingIsExact(w.s, front, book);
    DistinctElements(PendingIn(w.s, front, book), blockers);
    assert x !in front;
  }

  /** Unsupported documents that fill the batch keep everything behind them from being looked at: as
      long as nobody changes those documents, `x` stays as it is through any number of runs of at
      most that limit, complete or cut short, whatever is imported or changed besides. */
  lemma {:induction false} SkippedDocumentsStarveTheRest(
    worlds: seq<World>, events: seq<Event>, n: nat, x: Id, blockers: set<Id>, p: nat, book: string, limit: nat)
    requires History(worlds, events) && n < |worlds| && Blocked(worlds[0], x, blockers, p, book, limit)
    requires worlds[0].s.docs[x].book == book
    requires forall i :: 0 <= i < n && events[i].Ran? && events[i].book == book ==> events[i].limit <= limit
    requires forall i :: 0 <= i < n && events[i].Changed? ==> events[i].id != x && events[i].id !in blockers
    ensures exists q :: Blocked(worlds[n], x, blockers, q, book, limit)
    ensures x in worlds[n].s.docs && worlds[n].s.docs[x] == worlds[0].s.docs[x]
  {
    if n > 0 {
      SkippedDocumentsStarveTheRest(worlds, events, n - 1, x, blockers, p, book, limit);
      var q: nat :| Blocked(worlds[n - 1], x, blockers, q, book, limit);
      BlockedStays(worlds[n - 1], events[n - 1], worlds[n], x, blockers, q, book, limit);
    }
  }

  lemma BlockedStays(w: World, e: Event, w': World, x: Id, blockers: set<Id>, p: nat, book: string, limit: nat)
    requires Happens(w, e, w') && Blocked(w, x, blockers, p, book, limit) && w.s.docs[x].book == book
    requires e.Ran? && e.book == book ==> e.limit <= limit
    requires e.Changed? ==> e.id != x && e.id !in blockers
    ensures exists q :: Blocked(w', x, blockers, q, book, limit)
    ensures x in w'.s.docs && w'.s.docs[x] == w.s.docs[x]
  {
    match e {
      case Ran(b, l, o) =>
        RunSparesBlocked(w, b, l, o, w', x, blockers, p, book, limit);
        assert Blocked(w', x, blockers, p, book, limit);
      case Imported(id, doc) =>
        assert w'.order[..p + 1] == [id] + w.order[..p];
        assert Blocked(w', x, blockers, p + 1, book, limit);
      case Changed(_, _) =>
        assert Blocked(w', x, blockers, p, book, limit);
    }
  }

  lemma RunSparesBlocked(
    w: World, b: string, l: nat, o: Outside, w': World, x: Id, blockers: set<Id>, p: nat, book: string, limit: nat)
    requires Happens(w, Ran(b, l, o), w') && Blocked(w, x, blockers, p, book, limit) && w.s.docs[x].book == book
    requires b == book ==> l <= limit
    ensures x in w'.s.docs && w'.s.docs[x] == w.s.docs[x]
    ensures forall u :: u in blockers ==> u in w'.s.docs && w'.s.docs[u] == w.s.docs[u]
  {
    var ids := Batch(w.s, w.order, b, l);
    if b == book {
      BlockedIsNotInTheBatch(w, x, blockers, p, book, limit, l);
    }
    assert x !in ids;
    OthersUntouched(w.s, ids, o, w'.s, x);
    forall u | u in blockers
      ensures u in w'.s.docs && w'.s.docs[u] == w.s.docs[u]
    {
      SkippedUntouched(w.s, ids, o, w'.s, u);
    }
  }

  /** A document of an unsupported type comes through any run as it was. */
  lemma SkippedUntouched(s: Store, ids: seq<Id>, o: Outside, s': Store, id: Id)
    requires Outcome(s, ids, o, s') && id in s.docs && MimeOf(s.docs[id]) !in Supported
    ensures id in s'.docs && s'.docs[id] == s.docs[id]
  {
  }
}

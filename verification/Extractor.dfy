/** The extraction loop over one service's documents. */
module Extractor {
  import opened Wrappers
  import opened Extraction

  datatype Fault = Database | InvalidPayload | NotFound(id: Id) | InvalidTransition(from: Status, to: Status)

  /** One document settled. */
  function SettledOne(s: Store, id: Id, v: Verdict): Store
    requires id in s.docs
  {
    Store(s.docs[id := Settled(s.docs[id], v)], if v.Extract? then s.current[id := v.payload] else s.current)
  }

  /** One document's verdict, carried out. */
  lemma SettledExactly(s: Store, id: Id, v: Verdict)
    requires id in s.docs
    ensures v.Skip? ==> SettledOne(s, id, v) == s
    ensures v.Fail? ==>
      SettledOne(s, id, v) == s.(docs := s.docs[id := s.docs[id].(status := Failed, error := Some(v.message))])
    ensures v.Extract? ==>
      SettledOne(s, id, v) == Store(s.docs[id := s.docs[id].(status := Extracted, error := None)],
                                    s.current[id := v.payload])
  {
    if v.Skip? {
      assert s.docs[id := s.docs[id]] == s.docs;
    }
  }

  /** One more document of the batch gets its verdict. */
  lemma AfterNext(s: Store, ids: seq<Id>, o: Outside, k: nat)
    requires Known(s, ids) && Distinct(ids) && k < |ids|
    ensures ids[k] in After(s, ids[..k], o).docs && After(s, ids[..k], o).docs[ids[k]] == s.docs[ids[k]]
    ensures After(s, ids[..k + 1], o) == SettledOne(After(s, ids[..k], o), ids[k], VerdictOf(ids[k], s.docs[ids[k]], o))
  {
    assert ids[..k + 1] == ids[..k] + [ids[k]];
    AfterOneMore(s, ids[..k], ids[k], o);
  }

  lemma AfterOneMore(s: Store, ids: seq<Id>, id: Id, o: Outside)
    requires Known(s, ids) && id in s.docs && id !in ids
    ensures id in After(s, ids, o).docs && After(s, ids, o).docs[id] == s.docs[id]
    ensures After(s, ids + [id], o) == SettledOne(After(s, ids, o), id, VerdictOf(id, s.docs[id], o))
  {
    var before, after := After(s, ids, o), SettledOne(After(s, ids, o), id, VerdictOf(id, s.docs[id], o));
    assert After(s, ids + [id], o).docs == after.docs;
    CurrentOneMore(s, ids, id, o);
  }

  lemma CurrentOneMore(s: Store, ids: seq<Id>, id: Id, o: Outside)
    requires Known(s, ids) && id in s.docs && id !in ids
    ensures After(s, ids + [id], o).current
         == SettledOne(After(s, ids, o), id, VerdictOf(id, s.docs[id], o)).current
  {
  }

  lemma ReportNext(s: Store, ids: seq<Id>, o: Outside, k: nat)
    requires Known(s, ids) && k < |ids|
    ensures Report(s, ids[..k + 1], o)
         == Tallied(Report(s, ids[..k], o), ids[k], VerdictOf(ids[k], s.docs[ids[k]], o))
  {
    assert ids[..k + 1][..k] == ids[..k];
  }

  class Service {
    var s: Store

    /** All document ids, newest first. */
    const order: seq<Id>

    constructor (s: Store, order: seq<Id>)
      ensures this.s == s && this.order == order
    {
      this.s := s;
      this.order := order;
    }

    /** `document_transition`: one transaction, or nothing. */
    method DocumentTransition(id: Id, to: Status, error: Option<string>, faulty: bool) returns (r: Result<(), Fault>)
      modifies this
      ensures r.Ok? <==> !faulty && id in old(s).docs && (old(s).docs[id].status, to) in {
        (Pending, Processing), (Pending, Failed), (Processing, Extracted), (Processing, Failed),
        (Extracted, Reviewed), (Failed, Pending)}
      ensures r.Ok? ==> s == old(s).(docs := old(s).docs[id := old(s).docs[id].(status := to, error := error)])
      ensures r.Err? ==> s == old(s)
      ensures r == Err(NotFound(id)) <==> id !in s.docs
      ensures id in s.docs && !Allowed(old(s).docs[id].status, to) ==>
        r == Err(InvalidTransition(old(s).docs[id].status, to))
      ensures id in s.docs && Allowed(old(s).docs[id].status, to) && faulty ==> r == Err(Database)
    {
      if id !in s.docs { return Err(NotFound(id)); }
      var before := s.docs[id];
      if !Allowed(before.status, to) { return Err(InvalidTransition(before.status, to)); }
      if faulty { return Err(Database); }
      s := s.(docs := s.docs[id := before.(status := to, error := error)]);
      return Ok(());
    }

    /** `document_record_extraction`: the payload, which must be JSON, becomes current and the document
        is extracted. */
    method RecordExtraction(id: Id, payload: string, json: bool, faulty: bool) returns (r: Result<(), Fault>)
      modifies this
      ensures r.Ok? <==> json && !faulty && id in old(s).docs && !old(s).docs[id].status.Reviewed?
      ensures r.Ok? ==> s == Store(old(s).docs[id := old(s).docs[id].(status := Extracted, error := None)],
                                   old(s).current[id := payload])
      ensures !json ==> r == Err(InvalidPayload)
      ensures r.Err? ==> s == old(s)
      ensures json && id !in s.docs ==> r == Err(NotFound(id))
      ensures json && id in s.docs && old(s).docs[id].status.Reviewed? ==>
        r == Err(InvalidTransition(Reviewed, Extracted))
      ensures json && id in s.docs && !old(s).docs[id].status.Reviewed? && faulty ==> r == Err(Database)
    {
      if !json { return Err(InvalidPayload); }
      if id !in s.docs { return Err(NotFound(id)); }
      if s.docs[id].status.Reviewed? { return Err(InvalidTransition(s.docs[id].status, Extracted)); }
      if faulty { return Err(Database); }
      s := Store(s.docs[id := s.docs[id].(status := Extracted, error := None)], s.current[id := payload]);
      return Ok(());
    }

    /** One document: read it, hand it to the provider, record the result. A fault may stop it before
        or after it went to `Processing`. */
    method ExtractOne(id: Id, o: Outside, faults: (bool, bool)) returns (r: Result<Verdict, Fault>)
      requires id in s.docs && s.docs[id].status.Pending?
      modifies this
      ensures r.Ok? ==> r.value == VerdictOf(id, old(s).docs[id], o) && s == SettledOne(old(s), id, r.value)
      ensures r.Err? ==>
        s == old(s)
        || s == old(s).(docs := old(s).docs[id := old(s).docs[id].(status := Processing, error := None)])
      ensures faults == (false, false) ==> r.Ok?
      ensures r.Err? ==> r.error == Database && !VerdictOf(id, old(s).docs[id], o).Skip?
      ensures r == Ok(Skip) <==> old(s).docs[id].mime !in {
        Some("image/jpeg"), Some("image/png"), Some("image/gif"), Some("image/webp"), Some("application/pdf")}
    {
      var d := s.docs[id];
      if MimeOf(d) !in Supported {
        assert s.docs[id := d] == s.docs;
        return Ok(Skip);
      }
      var file := o.read(id);
      if file.Err? {
        var message := "cannot read " + d.path + ": " + file.error;
        var moved := DocumentTransition(id, Failed, Some(message), faults.0);
        return if moved.Ok? then Ok(Fail(message)) else Err(moved.error);
      }
      var moved := DocumentTransition(id, Processing, None, faults.0);
      if moved.Err? { return Err(moved.error); }
      r := Conclude(id, o.extract(MimeOf(d), file.value), faults.1);
    }

    /** The provider has answered for a document in `Processing`. */
    method Conclude(id: Id, answer: Result<string, string>, faulty: bool) returns (r: Result<Verdict, Fault>)
      requires id in s.docs && s.docs[id].status.Processing?
      modifies this
      ensures r.Ok? <==> !faulty
      ensures r.Err? ==> s == old(s) && r.error == Database
      ensures r.Ok? ==> r.value == (if answer.Ok? then Extract(answer.value) else Fail(answer.error))
      ensures r.Ok? ==> s == SettledOne(old(s), id, r.value)
    {
      match answer {
        case Ok(payload) =>
          // a slip the service serialised itself is JSON
          var recorded := RecordExtraction(id, payload, true, faulty);
          return if recorded.Ok? then Ok(Extract(payload)) else Err(recorded.error);
        case Err(message) =>
          var moved := DocumentTransition(id, Failed, Some(message), faulty);
          return if moved.Ok? then Ok(Fail(message)) else Err(moved.error);
      }
    }

    /** `run_extraction`; `unlisted` is an error before the loop, looking up the book or the list. */
    method RunExtraction(book: string, limit: nat, o: Outside, unlisted: bool, fault: nat -> (bool, bool))
        returns (r: Result<Run, Fault>)
      requires Distinct(order)
      modifies this
      ensures var ids := Batch(old(s), order, book, limit);
              && (r.Ok? ==> s == After(old(s), ids, o) && r.value == Report(old(s), ids, o))
              && (r.Err? && unlisted ==> s == old(s))
              && (r.Err? && !unlisted ==> exists k: nat :: CutShort(old(s), ids, o, k, s))
              && Outcome(old(s), ids, o, s)
      ensures r.Ok? ==> forall p :: 0 <= p < |order| ==>
        (Reports(r.value, order[p]) <==>
          p in Waiting(old(s), order, book, |order|) && |Waiting(old(s), order, book, p)| < limit)
      ensures r.Ok? ==>
        var all := |Waiting(old(s), order, book, |order|)|;
        |r.value.extracted| + |r.value.failed| + |r.value.skipped| == if all <= limit then all else limit
      ensures !unlisted && (forall k :: fault(k) == (false, false)) ==> r.Ok?
      ensures r.Err? ==> r.error == Database
    {
      if unlisted { return Err(Database); }
      var ids := Batch(s, order, book, limit);
      BatchIsDistinct(s, order, book, limit);
      var run := NoRun;
      NothingYet(s, ids, o);
      for k := 0 to |ids|
        invariant s == After(old(s), ids[..k], o)
        invariant run == Report(old(s), ids[..k], o)
      {
        AfterNext(old(s), ids, o, k);
        ReportNext(old(s), ids, o, k);
        var one := ExtractOne(ids[k], o, fault(k));
        if one.Err? {
          assert CutShort(old(s), ids, o, k, s);
          return Err(one.error);
        }
        run := Tallied(run, ids[k], one.value);
      }
      assert ids[..|ids|] == ids;
      RunTakesExactly(old(s), order, book, limit, o);
      return Ok(run);
    }
  }

  lemma NothingYet(s: Store, ids: seq<Id>, o: Outside)
    requires Known(s, ids)
    ensures After(s, ids[..0], o) == s && Report(s, ids[..0], o) == NoRun
  {
  }
}

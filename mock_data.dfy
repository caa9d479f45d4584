/** The in-memory proposal store of `src/lib/mockData.ts`, the fake backend
    used before the real API existed. Its records are older than the
    client types: ids are strings, and documents carry a type, a size and a
    map from page number to extracted HTML. Randomly generated ids, the
    clock and `Math.random` are parameters. `JSON.parse(JSON.stringify(x))`
    copies are the values themselves, since values are never shared. */
module MockData {
  import opened Wrappers
  import opened JsText
  import Seqs
  import Types

  datatype MockDocument = MockDocument(
    id: string,
    name: string,
    uploadedAt: string,
    totalPages: int,
    kind: string,
    size: int,
    extractedHtml: map<int, string>)

  datatype MockProposal = MockProposal(
    id: string,
    applicationNumber: string,
    name: string,
    createdAt: string,
    documents: seq<MockDocument>,
    signatureAnalysisStatus: string,
    signatureAnalysisSummary: Option<string>,
    signatureAnalysisReportHtml: Option<string>)

  /** `find(p => p.id === id)`, as an index. */
  function IndexOfProposal(ps: seq<MockProposal>, id: string): Option<nat>
  {
    Seqs.FirstIndex(ps, (p: MockProposal) => p.id == id)
  }

  function IndexOfDocument(ds: seq<MockDocument>, id: string): Option<nat>
  {
    Seqs.FirstIndex(ds, (d: MockDocument) => d.id == id)
  }

  /** The proposal `find` returns: the first with the id, if any. This is the
      lookup `getProposalById` is declared to perform. */
  function LookupProposal(ps: seq<MockProposal>, id: string): (r: Option<MockProposal>)
    ensures r.None? <==> forall i :: 0 <= i < |ps| ==> ps[i].id != id
    ensures r.Some? ==> r.value.id == id && exists i :: 0 <= i < |ps| && ps[i] == r.value
    ensures r.Some? ==> forall j :: 0 <= j < |ps| && ps[j].id == id ==> ps[j] == r.value || exists i :: 0 <= i < j && ps[i] == r.value
  {
    match IndexOfProposal(ps, id)
    case None => None
    case Some(i) => Some(ps[i])
  }

  /** What `JSON.parse(JSON.stringify(x))` gives back: a copy, or, when `x` is
      `undefined`, a `SyntaxError` (the string "undefined" is not JSON). */
  datatype JsonCopy<T> = Copy(value: T) | SyntaxError

  /** `getProposalById` as written: the copy is made of whatever `find`
      returned, so an unknown id makes the promise reject. */
  function GetProposalByIdAsWritten(ps: seq<MockProposal>, id: string): (r: JsonCopy<MockProposal>)
    ensures r.SyntaxError? <==> LookupProposal(ps, id).None?
    ensures r.Copy? ==> LookupProposal(ps, id) == Some(r.value)
  {
    match LookupProposal(ps, id)
    case None => SyntaxError
    case Some(p) => Copy(p)
  }

  /** An id that is not in the store makes the as-written lookup fail
      instead of resolving to `undefined`. */
  lemma UnknownIdRejects()
    ensures GetProposalByIdAsWritten([], "prop_404") == SyntaxError
    ensures LookupProposal([], "prop_404") == None
  {
  }

  /** `Math.floor(Math.random() * 20) + 1`, for `Math.random()` in [0, 1). */
  function MockPageCount(random: real): (n: int)
    requires 0.0 <= random < 1.0
    ensures 1 <= n <= 20
  {
    (random * 20.0).Floor + 1
  }

  /** The proposal `createProposal` builds. */
  function NewProposal(name: string, idSuffix: string, appSuffix: string, now: string): (p: MockProposal)
    ensures p.name == name && p.documents == [] && p.signatureAnalysisStatus == "Not Started"
    ensures StartsWith(p.id, "prop_") && StartsWith(p.applicationNumber, "APP-")
  {
    MockProposal("prop_" + idSuffix, "APP-" + ToUpper(appSuffix), name, now, [], "Not Started", None, None)
  }

  /** The document `addDocumentToProposal` builds for an uploaded file. */
  function NewDocument(fileName: string, fileSize: int, idSuffix: string, now: string, random: real): (d: MockDocument)
    requires 0.0 <= random < 1.0
    ensures d.name == fileName && d.size == fileSize && d.kind == "pdf" && d.extractedHtml == map[]
    ensures 1 <= d.totalPages <= 20
    ensures StartsWith(d.id, "doc_")
  {
    MockDocument("doc_" + idSuffix, fileName, now, MockPageCount(random), "pdf", fileSize, map[])
  }

  /** `ps` with `doc` appended to the documents of the proposal at `i`. */
  function WithDocument(ps: seq<MockProposal>, i: nat, doc: MockDocument): (r: seq<MockProposal>)
    requires i < |ps|
    ensures |r| == |ps| && r[i].documents == ps[i].documents + [doc]
    ensures r[i] == ps[i].(documents := ps[i].documents + [doc])
    ensures forall j :: 0 <= j < |ps| && j != i ==> r[j] == ps[j]
  {
    ps[i := ps[i].(documents := ps[i].documents + [doc])]
  }

  /** `ps` with page `pageNumber` of document `k` of proposal `i` set to `html`. */
  function WithPageHtml(ps: seq<MockProposal>, i: nat, k: nat, pageNumber: int, html: string): (r: seq<MockProposal>)
    requires i < |ps| && k < |ps[i].documents|
    ensures |r| == |ps| && forall j :: 0 <= j < |ps| && j != i ==> r[j] == ps[j]
    ensures |r[i].documents| == |ps[i].documents|
    ensures forall m :: 0 <= m < |ps[i].documents| && m != k ==> r[i].documents[m] == ps[i].documents[m]
    ensures r[i].documents[k].extractedHtml == ps[i].documents[k].extractedHtml[pageNumber := html]
    ensures r[i] == ps[i].(documents := r[i].documents)
    ensures r[i].documents[k] == ps[i].documents[k].(extractedHtml := r[i].documents[k].extractedHtml)
  {
    var doc := ps[i].documents[k];
    var docs := ps[i].documents[k := doc.(extractedHtml := doc.extractedHtml[pageNumber := html])];
    ps[i := ps[i].(documents := docs)]
  }

  /** Two stores whose entries have the same ids, position by position. */
  predicate SameIds(a: seq<MockProposal>, b: seq<MockProposal>)
  {
    |a| == |b| && forall i :: 0 <= i < |a| ==> a[i].id == b[i].id
  }

  /** Lookups only look at ids: stores with the same ids find the same index. */
  lemma SameIdsSameIndex(a: seq<MockProposal>, b: seq<MockProposal>, id: string)
    requires SameIds(a, b)
    ensures IndexOfProposal(a, id) == IndexOfProposal(b, id)
  {
    var ia, ib := IndexOfProposal(a, id), IndexOfProposal(b, id);
    if ia.Some? {
      assert b[ia.value].id == id;
    }
    if ib.Some? {
      assert a[ib.value].id == id;
    }
  }

  /** After appending a proposal with a fresh id, that id finds it, and every
      other id finds what it found before. */
  lemma {:induction false} AppendedProposalIsFound(ps: seq<MockProposal>, p: MockProposal, id: string)
    requires LookupProposal(ps, p.id).None?
    ensures LookupProposal(ps + [p], p.id) == Some(p)
    ensures id != p.id ==> LookupProposal(ps + [p], id) == LookupProposal(ps, id)
  {
    var qs := ps + [p];
    assert qs[|ps|] == p;
    assert forall i :: 0 <= i < |ps| ==> qs[i] == ps[i];
    assert forall j :: 0 <= j < |ps| ==> qs[j].id != p.id;
    if id != p.id {
      var a, b := IndexOfProposal(qs, id), IndexOfProposal(ps, id);
      if a.Some? {
        assert ps[a.value].id == id;
      }
      if b.Some? {
        assert qs[b.value].id == id;
      }
    }
  }

  /** A sample proposal whose application number is `APP-` and an
      upper-cased generated id. */
  function SampleProposal(id: string, generated: string, name: string, createdAt: string, documents: seq<MockDocument>,
                          status: string, summary: Option<string>, reportHtml: Option<string>): (p: MockProposal)
    ensures p.id == id && p.documents == documents && StartsWith(p.applicationNumber, "APP-")
  {
    MockProposal(id, "APP-" + ToUpper(generated), name, createdAt, documents, status, summary, reportHtml)
  }

  /** A sample document: a PDF with nothing extracted yet. */
  function SampleDocument(id: string, name: string, uploadedAt: string, totalPages: int, size: int): (d: MockDocument)
    ensures d.id == id && d.totalPages == totalPages && d.extractedHtml == map[] && d.kind == "pdf"
  {
    MockDocument(id, name, uploadedAt, totalPages, "pdf", size, map[])
  }

  /** Every document in the store has between 1 and 20 pages. */
  predicate PageCountsInRange(ps: seq<MockProposal>)
  {
    forall i, k :: 0 <= i < |ps| && 0 <= k < |ps[i].documents| ==> 1 <= ps[i].documents[k].totalPages <= 20
  }

  /** The first sample proposal: two documents, analysis not started. */
  method SampleProposal1(generatedId: nat -> string, isoDate: (int, int, int) -> string) returns (p: MockProposal)
    ensures p.id == "prop_001" && StartsWith(p.applicationNumber, "APP-") && PageCountsInRange([p])
  {
    var docs := [
      SampleDocument("doc_001", "Initial Agreement Q1.pdf", isoDate(2023, 0, 15), 5, 1024 * 500),
      SampleDocument("doc_002", "Scope of Work Final.pdf", isoDate(2023, 0, 20), 12, 1024 * 1200)];
    p := SampleProposal("prop_001", generatedId(0), "Quarterly Business Review Documents",
                        isoDate(2023, 0, 10), docs, "Not Started", None, None);
  }

  /** The second sample proposal: one document, analysis completed with a
      report. */
  method SampleProposal2(generatedId: nat -> string, isoDate: (int, int, int) -> string) returns (p: MockProposal)
    ensures p.id == "prop_002" && StartsWith(p.applicationNumber, "APP-") && PageCountsInRange([p])
  {
    var docs := [SampleDocument("doc_003", "Project Alpha NDA.pdf", isoDate(2023, 1, 10), 3, 1024 * 300)];
    p := SampleProposal("prop_002", generatedId(1), "New Client Onboarding Pack",
                        isoDate(2023, 1, 5), docs, "Completed",
                        Some("All 3 signatures verified with high confidence. No anomalies detected."),
                        Some(SampleReportHtml));
  }

  /** The third sample proposal: no documents yet. */
  method SampleProposal3(generatedId: nat -> string, isoDate: (int, int, int) -> string) returns (p: MockProposal)
    ensures p.id == "prop_003" && StartsWith(p.applicationNumber, "APP-") && PageCountsInRange([p])
  {
    p := SampleProposal("prop_003", generatedId(2), "Investment Round A Pitch Deck",
                        isoDate(2023, 2, 1), [], "Not Started", None, None);
  }

  /** The three sample proposals the store starts with, built once when the
      module loads. `generatedId` stands for the random ids and
      `isoDate(y, m, d)` for the local-time date
      `new Date(y, m, d).toISOString()`. */
  method MockProposals(generatedId: nat -> string, isoDate: (int, int, int) -> string) returns (r: seq<MockProposal>)
    ensures |r| == 3 && r[0].id == "prop_001" && r[1].id == "prop_002" && r[2].id == "prop_003"
    ensures forall i :: 0 <= i < |r| ==> StartsWith(r[i].applicationNumber, "APP-")
    ensures PageCountsInRange(r)
  {
    var p1 := SampleProposal1(generatedId, isoDate);
    var p2 := SampleProposal2(generatedId, isoDate);
    var p3 := SampleProposal3(generatedId, isoDate);
    r := [p1, p2, p3];
    forall i, k | 0 <= i < |r| && 0 <= k < |r[i].documents|
      ensures 1 <= r[i].documents[k].totalPages <= 20
    {
      var p := r[i];
      assert [p][0] == p;
      assert p == p1 || p == p2 || p == p3;
    }
  }

  const SampleReportHtml := "<div><h1>Signature Report</h1><p>Details for New Client Onboarding Pack...</p><p><b>Signature 1:</b> John Doe - Page 2 - Verified</p></div>"

  /** The module-level `proposalsStore` array and the functions that use it. */
  class ProposalStore {
    var proposals: seq<MockProposal>

    /** `let proposalsStore = [...MOCK_PROPOSALS]`. */
    constructor (seed: seq<MockProposal>)
      ensures proposals == seed
    {
      proposals := seed;
    }

    method GetProposals() returns (r: seq<MockProposal>)
      ensures r == proposals
    {
      r := proposals;
    }

    /** `getProposalById` with the behaviour its type declares: `None` for an
        unknown id (see `GetProposalByIdAsWritten` for what the code does). */
    method GetProposalById(id: string) returns (r: Option<MockProposal>)
      ensures r == LookupProposal(proposals, id)
    {
      r := LookupProposal(proposals, id);
    }

    method CreateProposal(name: string, idSuffix: string, appSuffix: string, now: string) returns (p: MockProposal)
      modifies this
      ensures p == NewProposal(name, idSuffix, appSuffix, now)
      ensures proposals == old(proposals) + [p]
    {
      p := NewProposal(name, idSuffix, appSuffix, now);
      proposals := proposals + [p];
    }

    method AddDocumentToProposal(proposalId: string, file: Types.UploadFile, idSuffix: string, now: string, random: real)
      returns (r: Option<MockDocument>)
      requires 0.0 <= random < 1.0
      modifies this
      ensures IndexOfProposal(old(proposals), proposalId).None? ==> r.None? && proposals == old(proposals)
      ensures IndexOfProposal(old(proposals), proposalId).Some? ==>
                r == Some(NewDocument(file.name, file.size, idSuffix, now, random)) &&
                proposals == WithDocument(old(proposals), IndexOfProposal(old(proposals), proposalId).value, r.value)
    {
      var i := IndexOfProposal(proposals, proposalId);
      if i.None? {
        return None;
      }
      var doc := NewDocument(file.name, file.size, idSuffix, now, random);
      proposals := WithDocument(proposals, i.value, doc);
      r := Some(doc);
    }

    method UpdateProposal(updated: MockProposal) returns (r: Option<MockProposal>)
      modifies this
      ensures IndexOfProposal(old(proposals), updated.id).None? ==> r.None? && proposals == old(proposals)
      ensures IndexOfProposal(old(proposals), updated.id).Some? ==>
                r == Some(updated) &&
                proposals == old(proposals)[IndexOfProposal(old(proposals), updated.id).value := updated]
    {
      var i := IndexOfProposal(proposals, updated.id);
      if i.None? {
        return None;
      }
      proposals := proposals[i.value := updated];
      r := Some(updated);
    }

    /** `getDocumentById`, on top of the corrected `getProposalById`. */
    method GetDocumentById(proposalId: string, documentId: string) returns (r: Option<MockDocument>)
      ensures LookupProposal(proposals, proposalId).None? ==> r.None?
      ensures LookupProposal(proposals, proposalId).Some? ==>
                var docs := LookupProposal(proposals, proposalId).value.documents;
                r == (match IndexOfDocument(docs, documentId) case None => None case Some(k) => Some(docs[k]))
    {
      var p := GetProposalById(proposalId);
      if p.None? {
        return None;
      }
      var k := IndexOfDocument(p.value.documents, documentId);
      r := if k.Some? then Some(p.value.documents[k.value]) else None;
    }

    method SetDocumentExtractedHtml(proposalId: string, documentId: string, pageNumber: int, html: string)
      modifies this
      ensures var i := IndexOfProposal(old(proposals), proposalId);
              i.None? ==> proposals == old(proposals)
      ensures var i := IndexOfProposal(old(proposals), proposalId);
              i.Some? && IndexOfDocument(old(proposals)[i.value].documents, documentId).None? ==> proposals == old(proposals)
      ensures var i := IndexOfProposal(old(proposals), proposalId);
              i.Some? && IndexOfDocument(old(proposals)[i.value].documents, documentId).Some? ==>
                proposals == WithPageHtml(old(proposals), i.value,
                                          IndexOfDocument(old(proposals)[i.value].documents, documentId).value,
                                          pageNumber, html)
    {
      var i := IndexOfProposal(proposals, proposalId);
      if i.Some? {
        var k := IndexOfDocument(proposals[i.value].documents, documentId);
        if k.Some? {
          proposals := WithPageHtml(proposals, i.value, k.value, pageNumber, html);
        }
      }
    }
  }

  /** Adding a document keeps every id in place, so later lookups find the
      same proposals, the changed one with the new document at the end. */
  lemma AddDocumentKeepsLookups(ps: seq<MockProposal>, proposalId: string, doc: MockDocument, id: string)
    requires IndexOfProposal(ps, proposalId).Some?
    ensures var r := WithDocument(ps, IndexOfProposal(ps, proposalId).value, doc);
      && LookupProposal(r, proposalId) == Some(LookupProposal(ps, proposalId).value.(documents := LookupProposal(ps, proposalId).value.documents + [doc]))
      && (id != proposalId ==> LookupProposal(r, id) == LookupProposal(ps, id))
  {
    var r := WithDocument(ps, IndexOfProposal(ps, proposalId).value, doc);
    SameIdsSameIndex(ps, r, proposalId);
    SameIdsSameIndex(ps, r, id);
  }

  /** Updating keeps the ids in place, so the updated id now finds the new
      record and other ids find what they found before. */
  lemma UpdateKeepsLookups(ps: seq<MockProposal>, updated: MockProposal, id: string)
    requires IndexOfProposal(ps, updated.id).Some?
    ensures var r := ps[IndexOfProposal(ps, updated.id).value := updated];
      && LookupProposal(r, updated.id) == Some(updated)
      && (id != updated.id ==> LookupProposal(r, id) == LookupProposal(ps, id))
  {
    var r := ps[IndexOfProposal(ps, updated.id).value := updated];
    SameIdsSameIndex(ps, r, updated.id);
    SameIdsSameIndex(ps, r, id);
  }
}

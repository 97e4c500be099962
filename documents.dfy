/**
 * The document checklist of the application wizard (client/src/App.jsx):
 * the three document sections, the ids marked required, the per-document
 * upload stages and the gate that both submit buttons wait for.
 */
module Documents {

  datatype DocItem = DocItem(id: string, caption: string, required: bool)

  datatype Section = Section(category: string, items: seq<DocItem>)

  /** `REQUIRED_DOCS_STRUCTURE`, without its icons. */
  const RequiredDocsStructure: seq<Section> := [
    Section("KYC Documents", [
      DocItem("kyc_biz_pan", "Business PAN Card", true),
      DocItem("kyc_own_pan", "Owner's PAN Card", true),
      DocItem("kyc_own_aadhar", "Owner's Aadhar", true),
      DocItem("kyc_office_proof", "Office Address Proof", true)]),
    Section("Income Proof", [
      DocItem("inc_pnl", "P&L Statement (3 Years)", true),
      DocItem("inc_balance", "Balance Sheet (3 Years)", true),
      DocItem("inc_itr", "ITR Acknowledgement (3 Years)", true),
      DocItem("inc_bank", "Bank Statement (6-12 Months)", true)]),
    Section("Business Proof", [
      DocItem("biz_reg", "Business Registration Cert", true),
      DocItem("biz_cin", "Corporate Identity Number (CIN)", false),
      DocItem("biz_directors", "List of Directors", false)])
  ]

  /** `flatMap(section => section.items)`: every item, section by section. */
  function Items(sections: seq<Section>): (r: seq<DocItem>)
    ensures |sections| == 0 ==> r == []
  {
    if sections == [] then [] else sections[0].items + Items(sections[1..])
  }

  /** `filter(doc => doc.required).map(doc => doc.id)` */
  function RequiredIds(items: seq<DocItem>): (ids: seq<string>)
    ensures |ids| <= |items|
  {
    if items == [] then []
    else (if items[0].required then [items[0].id] else []) + RequiredIds(items[1..])
  }

  /** `REQUIRED_DOC_IDS` */
  const RequiredDocIds: seq<string> := RequiredIds(Items(RequiredDocsStructure))

  /** An id is in the required list exactly when some item carrying it is marked required. */
  lemma {:induction false} RequiredIdsMembers(items: seq<DocItem>, id: string)
    ensures id in RequiredIds(items) <==> exists k :: 0 <= k < |items| && items[k].required && items[k].id == id
  {
    if items != [] {
      RequiredIdsMembers(items[1..], id);
      if id in RequiredIds(items[1..]) {
        var k :| 0 <= k < |items[1..]| && items[1..][k].required && items[1..][k].id == id;
        assert items[k + 1] == items[1..][k];
      }
      if exists k :: 0 <= k < |items| && items[k].required && items[k].id == id {
        var k :| 0 <= k < |items| && items[k].required && items[k].id == id;
        if k > 0 {
          assert items[1..][k - 1] == items[k];
        }
      }
    }
  }

  /** The nine required ids, in checklist order; the CIN and the list of directors are optional. */
  lemma RequiredDocIdsAreNine()
    ensures RequiredDocIds == ["kyc_biz_pan", "kyc_own_pan", "kyc_own_aadhar", "kyc_office_proof",
                               "inc_pnl", "inc_balance", "inc_itr", "inc_bank", "biz_reg"]
    ensures "biz_cin" !in RequiredDocIds && "biz_directors" !in RequiredDocIds
  {
    var s := RequiredDocsStructure;
    assert Items(s) == s[0].items + s[1].items + s[2].items by {
      assert Items(s[1..]) == s[1].items + Items(s[2..]);
      assert Items(s[2..]) == s[2].items + Items(s[3..]);
    }
    RequiredIdsAppend(s[0].items + s[1].items, s[2].items);
    RequiredIdsAppend(s[0].items, s[1].items);
  }

  /** Filtering distributes over concatenation. */
  lemma {:induction false} RequiredIdsAppend(a: seq<DocItem>, b: seq<DocItem>)
    ensures RequiredIds(a + b) == RequiredIds(a) + RequiredIds(b)
  {
    if a != [] {
      assert (a + b)[1..] == a[1..] + b;
      RequiredIdsAppend(a[1..], b);
    } else {
      assert a + b == b;
    }
  }

  datatype DocStatus = Scanning | Analyzing | Verified

  /** One entry of `uploadedFiles`. */
  datatype Upload = Upload(status: DocStatus, fileName: string)

  /** The entry written when the upload starts. */
  const ScanningEntry := Upload(Scanning, "uploading...")

  /** The entry written by the first timer. */
  const AnalyzingEntry := Upload(Analyzing, "analyzing...")

  /** The entry written by the second timer. */
  function VerifiedEntry(docId: string): (u: Upload)
    ensures u.status == Verified
  {
    Upload(Verified, docId + "_verified.pdf")
  }

  /** `uploadedFiles[id]?.status === 'verified'` */
  predicate IsVerified(uploaded: map<string, Upload>, id: string) {
    id in uploaded && uploaded[id].status == Verified
  }

  /** `ids.every(id => uploadedFiles[id]?.status === 'verified')`, scanning from the left. */
  predicate AllVerified(ids: seq<string>, uploaded: map<string, Upload>) {
    ids == [] || (IsVerified(uploaded, ids[0]) && AllVerified(ids[1..], uploaded))
  }

  /** `isAllDocsComplete` */
  predicate IsAllDocsComplete(uploaded: map<string, Upload>) {
    AllVerified(RequiredDocIds, uploaded)
  }

  /** The left-to-right scan agrees with "every listed id is verified". */
  lemma {:induction false} AllVerifiedIff(ids: seq<string>, uploaded: map<string, Upload>)
    ensures AllVerified(ids, uploaded) <==> forall id :: id in ids ==> IsVerified(uploaded, id)
  {
    if ids != [] {
      AllVerifiedIff(ids[1..], uploaded);
      assert forall id :: id in ids <==> id == ids[0] || id in ids[1..];
    }
  }

  /** The gate holds exactly when each of the nine required documents is verified. */
  lemma GateIff(uploaded: map<string, Upload>)
    ensures IsAllDocsComplete(uploaded) <==> forall id :: id in RequiredDocIds ==> IsVerified(uploaded, id)
  {
    AllVerifiedIff(RequiredDocIds, uploaded);
  }

  /** Whatever happens to an optional document (or any id outside the list) does not move the gate. */
  lemma OptionalDocsIrrelevant(uploaded: map<string, Upload>, id: string, u: Upload)
    requires id !in RequiredDocIds
    ensures IsAllDocsComplete(uploaded[id := u]) <==> IsAllDocsComplete(uploaded)
  {
    GateIff(uploaded);
    GateIff(uploaded[id := u]);
  }

  /** Starting a new upload of a required document closes the gate until that upload is verified. */
  lemma ReuploadClosesGate(uploaded: map<string, Upload>, id: string)
    requires id in RequiredDocIds
    ensures !IsAllDocsComplete(uploaded[id := ScanningEntry])
    ensures !IsAllDocsComplete(uploaded[id := AnalyzingEntry])
  {
    GateIff(uploaded[id := ScanningEntry]);
    GateIff(uploaded[id := AnalyzingEntry]);
  }

  /** The three stages of one upload leave the document verified and every other entry as it was. */
  lemma UploadLifecycle(uploaded: map<string, Upload>, id: string)
    ensures var after := uploaded[id := ScanningEntry][id := AnalyzingEntry][id := VerifiedEntry(id)];
      && IsVerified(after, id)
      && after.Keys == uploaded.Keys + {id}
      && (forall other :: other in uploaded && other != id ==> after[other] == uploaded[other])
  {
  }

  /** When every required document but `id` is verified, finishing the upload of `id` opens the gate. */
  lemma FinishingLastDocOpensGate(uploaded: map<string, Upload>, id: string)
    requires forall other :: other in RequiredDocIds && other != id ==> IsVerified(uploaded, other)
    ensures IsAllDocsComplete(uploaded[id := VerifiedEntry(id)])
  {
    GateIff(uploaded[id := VerifiedEntry(id)]);
  }

  /** An empty upload map never passes the gate. */
  lemma EmptyUploadsClosed()
    ensures !IsAllDocsComplete(map[])
  {
    GateIff(map[]);
    assert "kyc_biz_pan" in RequiredDocIds by { RequiredDocIdsAreNine(); }
  }
}

/**
 * The applicant side of the client (client/src/App.jsx): the wizard's state
 * and the handlers that change it. The eligibility decision, the legacy
 * view and the document gate are the pure parts defined in their own
 * modules; this class holds the state those handlers write.
 */
module Portal {
  import opened Wrappers
  import Text
  import opened Eligibility
  import opened ApplicationStore
  import opened Documents

  /** The wizard's empty form: Retail sector, Sole Trader. */
  const EmptyForm := FormData("", Blank, Blank, Blank, Some("Retail"), "Sole Trader")

  /** The options of the sector select. */
  const SectorOptions := ["Retail", "Technology", "Manufacturing", "Gambling"]

  /** A stored column copied into the form: a number, or nothing when the column is NULL. */
  function StoredField(v: Option<int>): (f: Field)
    ensures v.None? <==> f.Blank?
    ensures v.Some? ==> f == Stored(v.value)
  {
    match v
    case None => Blank
    case Some(n) => Stored(n)
  }

  /** The form `startNewApplication` opens: the latest profile's details with no amount, or the empty form. */
  function Prefill(latest: Option<Application>): FormData {
    match latest
    case None => EmptyForm
    case Some(p) => FormData(p.companyName, StoredField(p.turnover), Blank, StoredField(p.yearsTrading), p.sector, "Sole Trader")
  }

  /** A freshly opened form never passes the check: it has no amount yet. */
  lemma PrefilledFormNeedsAmount(latest: Option<Application>, rules: Rules)
    ensures Evaluate(Prefill(latest), rules).Failure?
    ensures var f := Prefill(latest);
      Text.Trim(f.companyName) != [] && Truthy(f.turnover) && f.turnover.n > 0 ==>
        Evaluate(f, rules) == Failure(AmountNotPositive)
  {
  }

  /** The JSON body both submit buttons post (the timestamp is left out). */
  datatype Payload = Payload(applicant: FormData, files: seq<string>, loanType: string)

  /** How a form field reaches the table: a number as that number, a blank (a stored null posted back) as a null column. */
  function ColumnOf(f: Field): (v: Option<int>)
    ensures v.None? <==> f.Blank?
    ensures v.Some? ==> v.value == f.n
  {
    if f.Blank? then None else Some(f.n)
  }

  /** The fields of a payload the server reads (`entityType` is not stored). */
  function ToSubmission(p: Payload): Submission {
    var a := p.applicant;
    Submission(a.companyName, ColumnOf(a.turnover), ColumnOf(a.amountRequested), ColumnOf(a.yearsTrading),
               a.sector, p.files, Some(p.loanType))
  }

  /** A profile read back from the table and posted again arrives unchanged in the new row. */
  lemma StoredFieldRoundTrip(v: Option<int>)
    ensures ColumnOf(StoredField(v)) == v
  {
  }

  /** JavaScript's rendering of a possibly missing sector inside a template string. */
  function SectorText(sector: Option<string>): string {
    if sector.Some? then sector.value else "null"
  }

  /** The payload of `handleLegacySubmit`: the latest profile, with the opportunity's amount and sector. */
  function LegacyPayload(latest: Application, opportunity: Application, files: seq<string>): (p: Payload)
    ensures ToSubmission(p).amountRequested == opportunity.amountRequested
    ensures ToSubmission(p).turnover == latest.turnover && ToSubmission(p).yearsTrading == latest.yearsTrading
    ensures ToSubmission(p).companyName == latest.companyName && ToSubmission(p).sector == latest.sector
  {
    Payload(FormData(latest.companyName, StoredField(latest.turnover), StoredField(opportunity.amountRequested),
                     StoredField(latest.yearsTrading), latest.sector, "Sole Trader"),
            files,
            "Legacy Opportunity (" + SectorText(opportunity.sector) + " Match)")
  }

  /** The key order of `{ ...prev, [id]: value }`: a new key goes last, an existing key keeps its place. */
  function KeyOrder(order: seq<string>, id: string): (r: seq<string>)
    ensures id in r && forall k :: k in r <==> k in order || k == id
    ensures id in order ==> r == order
    ensures id !in order ==> r == order + [id]
  {
    if id in order then order else order + [id]
  }

  /** `allData.filter(app => app.source === src)` */
  function FromSource(rows: seq<Application>, src: string): (r: seq<Application>)
    ensures |r| <= |rows|
    ensures forall i :: 0 <= i < |r| ==> r[i].source == src
  {
    if rows == [] then []
    else (if rows[0].source == src then [rows[0]] else []) + FromSource(rows[1..], src)
  }

  /** The filter keeps exactly the rows of that source. */
  lemma {:induction false} FromSourceMembers(rows: seq<Application>, src: string, x: Application)
    ensures x in FromSource(rows, src) <==> x in rows && x.source == src
  {
    if rows != [] {
      FromSourceMembers(rows[1..], src, x);
      assert x in rows <==> x == rows[0] || x in rows[1..];
    }
  }

  predicate IdsDecreasing(rows: seq<Application>) {
    forall i, j :: 0 <= i < j < |rows| ==> rows[i].id > rows[j].id
  }

  /** In a newest-first list, the first row of a source is the newest row of that source. */
  lemma {:induction false} FirstOfSourceIsNewest(rows: seq<Application>, src: string)
    requires IdsDecreasing(rows) && FromSource(rows, src) != []
    ensures forall y :: y in rows && y.source == src ==> y.id <= FromSource(rows, src)[0].id
  {
    if rows[0].source != src {
      assert IdsDecreasing(rows[1..]);
      FirstOfSourceIsNewest(rows[1..], src);
      forall y | y in rows && y.source == src ensures y.id <= FromSource(rows, src)[0].id {
        assert y in rows[1..];
      }
    } else {
      forall y | y in rows && y.source == src ensures y.id <= rows[0].id {
        var i :| 0 <= i < |rows| && rows[i] == y;
      }
    }
  }

  /** The state of the applicant page. */
  class Portal {
    var formData: FormData
    var loanType: string
    var step: nat
    var error: Option<Reason>
    var smeCategory: Option<Tier>
    /** `uploadedFiles`, with `uploadOrder` the order of its keys. */
    var uploaded: map<string, Upload>
    var uploadOrder: seq<string>
    var latestProfile: Option<Application>
    var selectedLegacyApp: Option<Application>
    var myApps: seq<Application>
    var legacyApps: seq<Application>

    /** `uploadOrder` lists each key of `uploaded` once. */
    ghost predicate Valid()
      reads this
    {
      && (forall id :: id in uploaded <==> id in uploadOrder)
      && (forall i, j :: 0 <= i < j < |uploadOrder| ==> uploadOrder[i] != uploadOrder[j])
    }

    /** The initial state of the page. */
    constructor ()
      ensures Valid()
      ensures formData == EmptyForm && loanType == DefaultLoanType && step == 1
      ensures error == None && smeCategory == None && uploaded == map[] && uploadOrder == []
      ensures latestProfile == None && selectedLegacyApp == None && myApps == [] && legacyApps == []
    {
      formData := EmptyForm;
      loanType := DefaultLoanType;
      step := 1;
      error := None;
      smeCategory := None;
      uploaded := map[];
      uploadOrder := [];
      latestProfile := None;
      selectedLegacyApp := None;
      myApps := [];
      legacyApps := [];
    }

    // The `onChange` handlers of the step-1 form: each replaces one field
    // and keeps the others. A number box hands over a string, so it yields
    // either a blank field or a typed number, never a stored one.

    /** The company name box. */
    method TypeCompanyName(v: string)
      modifies this`formData
      ensures formData == old(formData).(companyName := v)
    {
      formData := formData.(companyName := v);
    }

    /** The annual turnover box. */
    method TypeTurnover(v: Field)
      requires !v.Stored?
      modifies this`formData
      ensures formData == old(formData).(turnover := v)
    {
      formData := formData.(turnover := v);
    }

    /** The loan amount box. */
    method TypeAmountRequested(v: Field)
      requires !v.Stored?
      modifies this`formData
      ensures formData == old(formData).(amountRequested := v)
    {
      formData := formData.(amountRequested := v);
    }

    /** The years active box. */
    method TypeYearsTrading(v: Field)
      requires !v.Stored?
      modifies this`formData
      ensures formData == old(formData).(yearsTrading := v)
    {
      formData := formData.(yearsTrading := v);
    }

    /** The sector select, which offers only its four options. */
    method ChooseSector(v: string)
      requires v in SectorOptions
      modifies this`formData
      ensures formData == old(formData).(sector := Some(v))
    {
      formData := formData.(sector := Some(v));
    }

    /** `handleCheckEligibility`: writes the outcome of the check into `error`, `smeCategory` and `step`. */
    method CheckEligibility(rules: Rules)
      modifies this`error, this`smeCategory, this`step
      ensures Evaluate(formData, rules).Failure? ==>
        error == Some(Evaluate(formData, rules).error) && smeCategory == None && step == old(step)
      ensures Evaluate(formData, rules).Success? ==>
        error == None && smeCategory == Some(Evaluate(formData, rules).value) && step == 2
    {
      error := None;
      smeCategory := None;
      var f := formData;
      if Text.Trim(f.companyName) == [] { error := Some(CompanyNameRequired); return; }
      if !Truthy(f.turnover) || f.turnover.n <= 0 { error := Some(TurnoverNotPositive); return; }
      if !Truthy(f.amountRequested) || f.amountRequested.n <= 0 { error := Some(AmountNotPositive); return; }
      if !Truthy(f.yearsTrading) || f.yearsTrading.n < 0 { error := Some(YearsNegative); return; }

      var turnover, years, amount := f.turnover.n, f.yearsTrading.n, f.amountRequested.n;
      if turnover < rules.minTurnover { error := Some(BelowMinimumTurnover(turnover)); return; }
      if turnover > rules.maxTurnover { error := Some(ExceedsMaximumTurnover); return; }
      if years < rules.minYearsTrading { error := Some(InsufficientYears(years)); return; }
      if amount > turnover { error := Some(AmountExceedsTurnover); return; }
      if f.sector.Some? && f.sector.value in rules.bannedSectors { error := Some(RestrictedSector(f.sector.value)); return; }

      if turnover <= MicroLimit {
        smeCategory := Some(MicroEnterprise);
      } else if turnover <= SmallLimit {
        smeCategory := Some(SmallEnterprise);
      } else {
        smeCategory := Some(MediumEnterprise);
      }
      step := 2;
    }

    /** Writes one entry of `uploadedFiles`, keeping the key order. */
    method Record(docId: string, entry: Upload)
      requires Valid()
      modifies this`uploaded, this`uploadOrder
      ensures Valid()
      ensures uploaded == old(uploaded)[docId := entry] && uploadOrder == KeyOrder(old(uploadOrder), docId)
    {
      uploaded := uploaded[docId := entry];
      if docId !in uploadOrder {
        uploadOrder := uploadOrder + [docId];
      }
    }

    /** `handleFileUpload`: the document is being scanned. */
    method HandleFileUpload(docId: string)
      requires Valid()
      modifies this`uploaded, this`uploadOrder
      ensures Valid()
      ensures uploaded == old(uploaded)[docId := ScanningEntry] && uploadOrder == KeyOrder(old(uploadOrder), docId)
    {
      Record(docId, ScanningEntry);
    }

    /** The first timer of `handleFileUpload`: the document is being analysed. */
    method ScanFinished(docId: string)
      requires Valid()
      modifies this`uploaded, this`uploadOrder
      ensures Valid()
      ensures uploaded == old(uploaded)[docId := AnalyzingEntry] && uploadOrder == KeyOrder(old(uploadOrder), docId)
    {
      Record(docId, AnalyzingEntry);
    }

    /** The second timer of `handleFileUpload`: the document is verified. */
    method AnalysisFinished(docId: string)
      requires Valid()
      modifies this`uploaded, this`uploadOrder
      ensures Valid()
      ensures uploaded == old(uploaded)[docId := VerifiedEntry(docId)] && uploadOrder == KeyOrder(old(uploadOrder), docId)
    {
      Record(docId, VerifiedEntry(docId));
    }

    /** `handleWizardSubmit`: the payload it posts, or nothing while the gate is closed. */
    method WizardSubmit() returns (payload: Option<Payload>)
      requires Valid()
      ensures payload.Some? <==> IsAllDocsComplete(uploaded)
      ensures payload.Some? ==> payload.value == Payload(formData, uploadOrder, loanType)
      ensures payload.Some? ==> forall id :: id in RequiredDocIds ==> id in payload.value.files
    {
      if !IsAllDocsComplete(uploaded) {
        return None;
      }
      GateIff(uploaded);
      payload := Some(Payload(formData, uploadOrder, loanType));
    }

    /** `handleLegacySubmit`: needs the gate, a chosen opportunity and a latest profile. */
    method LegacySubmit() returns (payload: Option<Payload>)
      requires Valid()
      ensures payload.Some? <==> IsAllDocsComplete(uploaded) && selectedLegacyApp.Some? && latestProfile.Some?
      ensures payload.Some? ==>
        payload.value == LegacyPayload(latestProfile.value, selectedLegacyApp.value, uploadOrder)
      ensures payload.Some? ==> forall id :: id in RequiredDocIds ==> id in payload.value.files
    {
      if !IsAllDocsComplete(uploaded) || selectedLegacyApp.None? || latestProfile.None? {
        return None;
      }
      GateIff(uploaded);
      payload := Some(LegacyPayload(latestProfile.value, selectedLegacyApp.value, uploadOrder));
    }

    /** `fetchAllData` on the list the server returned: splits it by source. */
    method FetchAllData(allData: seq<Application>)
      modifies this`myApps, this`latestProfile, this`legacyApps
      ensures myApps == FromSource(allData, WebSource) && legacyApps == FromSource(allData, LegacySource)
      ensures latestProfile == if myApps != [] then Some(myApps[0]) else old(latestProfile)
    {
      var webApps := FromSource(allData, WebSource);
      myApps := webApps;
      if |webApps| > 0 {
        latestProfile := Some(webApps[0]);
      }
      legacyApps := FromSource(allData, LegacySource);
    }

    /** `startNewApplication`: a fresh wizard of the given loan type. */
    method StartNewApplication(kind: string)
      modifies this`loanType, this`formData, this`step, this`uploaded, this`uploadOrder, this`smeCategory
      ensures Valid()
      ensures loanType == kind && formData == Prefill(latestProfile) && step == 1
      ensures uploaded == map[] && uploadOrder == [] && smeCategory == None
    {
      loanType := kind;
      formData := Prefill(latestProfile);
      step := 1;
      uploaded := map[];
      uploadOrder := [];
      smeCategory := None;
    }

    /** `handleApplyNow`: without a profile the page is locked, otherwise the opportunity is chosen. */
    method ApplyNow(item: Application) returns (locked: bool)
      requires Valid()
      modifies this`selectedLegacyApp, this`uploaded, this`uploadOrder
      ensures Valid()
      ensures locked <==> latestProfile.None?
      ensures locked ==> selectedLegacyApp == old(selectedLegacyApp) && uploaded == old(uploaded) && uploadOrder == old(uploadOrder)
      ensures !locked ==> selectedLegacyApp == Some(item) && uploaded == map[] && uploadOrder == []
    {
      if latestProfile.None? {
        return true;
      }
      selectedLegacyApp := Some(item);
      uploaded := map[];
      uploadOrder := [];
      locked := false;
    }
  }

  /** The revoke button is shown only for applications under review. */
  predicate RevokeOffered(app: Application) {
    app.status == UnderReview
  }

  /**
   * `executeRevoke` posts status 'Revoked' for the row shown; once the list is
   * fetched again that row is Revoked, no longer offers the button, and rows
   * with other refIds are as they were.
   */
  lemma RevokeWithdrawsOffer(rows: seq<Application>, i: nat)
    requires i < |rows| && RevokeOffered(rows[i])
    ensures var after := SetStatus(rows, rows[i].refId, Revoked);
      && after[i].status == Revoked && !RevokeOffered(after[i])
      && forall k :: 0 <= k < |rows| && rows[k].refId != rows[i].refId ==> after[k] == rows[k]
  {
  }

  /**
   * When the page is fed the server's newest-first list, the latest profile
   * is the Web application with the highest id.
   */
  lemma LatestProfileIsNewestWebRow(allData: seq<Application>)
    requires IdsDecreasing(allData) && FromSource(allData, WebSource) != []
    ensures var latest := FromSource(allData, WebSource)[0];
      latest in allData && latest.source == WebSource &&
      forall y :: y in allData && y.source == WebSource ==> y.id <= latest.id
  {
    FirstOfSourceIsNewest(allData, WebSource);
    FromSourceMembers(allData, WebSource, FromSource(allData, WebSource)[0]);
  }
}

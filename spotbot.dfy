/**
 * SpotBot, the help widget (client/src/components/SpotBot.jsx): a keyword
 * matcher over a fixed knowledge base, and the chat's message list.
 */
module SpotBot {
  import opened Wrappers
  import Text

  /** A knowledge-base entry: trigger keywords, the answer, and follow-up option chips. */
  datatype Entry = Entry(keywords: seq<string>, answer: string, options: seq<string>)

  /** The entries of `knowledgeBase`, each with its keyword list on its own. */
  const HelloKeywords := ["hello", "hi", "hey", "start", "menu", "help"]
  const HelloEntry := Entry(HelloKeywords,
        "\U{1F44B} Hi! I'm SpotBot. I can guide you through the SpotCheck process. What would you like to know?",
        ["Eligibility Rules", "Required Documents", "Track Application", "Contact Support"])
  const EligibilityKeywords := ["eligibility", "eligible", "rules", "criteria", "requirement"]
  const EligibilityEntry := Entry(EligibilityKeywords,
        "To qualify for a SpotCheck loan, your business usually needs:",
        ["Turnover Limits", "Trading Years", "Restricted Sectors", "Back to Menu"])
  const TurnoverKeywords := ["turnover", "revenue", "sales", "limit"]
  const TurnoverEntry := Entry(TurnoverKeywords,
        "\U{1F4B0} Minimum Turnover Requirement: \U{20B9}42,00,000 (42 Lakhs) per annum. Loans cannot exceed your annual turnover.",
        ["Check Trading Years", "Back to Menu"])
  const VintageKeywords := ["years", "age", "old", "trading"]
  const VintageEntry := Entry(VintageKeywords,
        "\U{1F4C5} Vintage Requirement: Your business must be active and registered for at least 2 years.",
        ["Check Turnover", "Back to Menu"])
  const SectorsKeywords := ["sector", "industry", "restricted", "gambling"]
  const SectorsEntry := Entry(SectorsKeywords,
        "\U{1F6AB} We do NOT fund: Gambling, Adult Entertainment, or Speculative Trading. \n\U{2705} We support: Retail, Tech, Manufacturing, and Services.",
        ["Back to Menu"])
  const DocumentsKeywords := ["document", "doc", "file", "upload", "kyc", "proof"]
  const DocumentsEntry := Entry(DocumentsKeywords,
        "We categorize documents into 3 sections. Which one are you asking about?",
        ["KYC Documents", "Income Proofs", "Business Proofs", "File Formats"])
  const KycKeywords := ["kyc documents", "identity", "pan", "aadhar"]
  const KycEntry := Entry(KycKeywords,
        "\U{1F194} **KYC Requirements:**\n1. Business PAN\n2. Owner's PAN\n3. Owner's Aadhar\n4. Office Address Proof",
        ["Check Income Proofs", "Back to Documents"])
  const IncomeKeywords := ["income proof", "tax", "profit", "balance", "sheet"]
  const IncomeEntry := Entry(IncomeKeywords,
        "\U{1F4C8} **Income Requirements:**\n1. P&L Statement (3 Yrs)\n2. Balance Sheet (3 Yrs)\n3. ITR Acknowledgement (3 Yrs)\n4. Bank Statement (6-12 Months)",
        ["Check Business Proofs", "Back to Documents"])
  const BusinessKeywords := ["business proof", "cin", "registration", "director"]
  const BusinessEntry := Entry(BusinessKeywords,
        "\U{1F3E2} **Business Requirements:**\n1. Registration Certificate (Required)\n2. CIN (Optional)\n3. List of Directors (Optional)",
        ["Back to Documents"])
  const FormatsKeywords := ["format", "size", "pdf", "jpg"]
  const FormatsEntry := Entry(FormatsKeywords,
        "\U{1F4BE} **File Rules:**\n- Formats: PDF, JPEG, PNG\n- Max Size: 5MB per file\n- Must be clear and readable.",
        ["Back to Menu"])
  const TrackKeywords := ["track", "status", "progress", "application"]
  const TrackEntry := Entry(TrackKeywords,
        "You can track your status on the Dashboard.\n\n\U{1F7E0} **Under Review:** Our team is checking details.\n\U{1F7E2} **Approved:** Funds are being processed.\n\U{1F534} **Rejected:** Criteria not met.",
        ["How to Revoke?", "Back to Menu"])
  const RevokeKeywords := ["revoke", "cancel", "withdraw"]
  const RevokeEntry := Entry(RevokeKeywords,
        "\U{26A0}\U{FE0F} You can revoke an 'Under Review' application using the red 'Revoke' button in your dashboard table.",
        ["Back to Menu"])
  const ContactKeywords := ["contact", "human", "email", "phone", "support"]
  const ContactEntry := Entry(ContactKeywords,
        "\U{1F468}\U{200D}\U{1F4BC} **Support Team:**\nEmail: help@spotcheck.bank\nPhone: 1800-SPOT-CHK\nHours: Mon-Fri, 9AM - 6PM",
        ["Back to Menu"])

  /** `knowledgeBase`, in array order. */
  const KnowledgeBase: seq<Entry> := [
    HelloEntry, EligibilityEntry, TurnoverEntry, VintageEntry, SectorsEntry,
    DocumentsEntry, KycEntry, IncomeEntry, BusinessEntry, FormatsEntry,
    TrackEntry, RevokeEntry, ContactEntry
  ]

  /** `keywords.some(keyword => lowerInput.includes(keyword))` */
  predicate AnyKeyword(lower: string, keywords: seq<string>) {
    keywords != [] && (Text.Includes(lower, keywords[0]) || AnyKeyword(lower, keywords[1..]))
  }

  predicate Matches(lower: string, e: Entry) {
    AnyKeyword(lower, e.keywords)
  }

  /** `some` holds exactly when one of the keywords occurs in the input. */
  lemma {:induction false} AnyKeywordIff(lower: string, keywords: seq<string>)
    ensures AnyKeyword(lower, keywords) <==> exists k :: 0 <= k < |keywords| && Text.Includes(lower, keywords[k])
  {
    if keywords != [] {
      AnyKeywordIff(lower, keywords[1..]);
      if exists k :: 0 <= k < |keywords| && Text.Includes(lower, keywords[k]) {
        var k :| 0 <= k < |keywords| && Text.Includes(lower, keywords[k]);
        if k > 0 {
          assert keywords[1..][k - 1] == keywords[k];
        }
      }
      if AnyKeyword(lower, keywords[1..]) {
        var k :| 0 <= k < |keywords[1..]| && Text.Includes(lower, keywords[1..][k]);
        assert keywords[k + 1] == keywords[1..][k];
      }
    }
  }

  /** Entry `k` is the first of `kb` that matches. */
  predicate FirstMatch(kb: seq<Entry>, lower: string, k: int) {
    0 <= k < |kb| && Matches(lower, kb[k]) && forall j :: 0 <= j < k ==> !Matches(lower, kb[j])
  }

  /** `knowledgeBase.find(...)` from position `start`: the index of the first matching entry. */
  function FindFrom(kb: seq<Entry>, lower: string, start: nat): (r: Option<nat>)
    requires start <= |kb|
    ensures r.Some? ==> start <= r.value < |kb| && Matches(lower, kb[r.value])
    ensures r.Some? ==> forall j :: start <= j < r.value ==> !Matches(lower, kb[j])
    ensures r.None? ==> forall j :: start <= j < |kb| ==> !Matches(lower, kb[j])
    decreases |kb| - start
  {
    if start == |kb| then None
    else if Matches(lower, kb[start]) then Some(start)
    else FindFrom(kb, lower, start + 1)
  }

  /** A bot message body: its text and its option chips. */
  datatype BotReply = BotReply(text: string, options: seq<string>)

  const Fallback := BotReply("I didn't quite get that. Could you try selecting an option from the menu?",
                             ["Back to Menu", "Contact Support"])

  function ReplyOf(e: Entry): BotReply {
    BotReply(e.answer, e.options)
  }

  /** The reply `processResponse` computes for `userText`. */
  function Respond(kb: seq<Entry>, userText: string): (r: BotReply)
    ensures (forall j :: 0 <= j < |kb| ==> !Matches(Text.ToLower(userText), kb[j])) ==> r == Fallback
    ensures forall k :: FirstMatch(kb, Text.ToLower(userText), k) ==> r == ReplyOf(kb[k])
  {
    var lower := Text.ToLower(userText);
    match FindFrom(kb, lower, 0)
    case Some(k) => ReplyOf(kb[k])
    case None => Fallback
  }

  /** Upper- and lower-case letters of the input are not told apart. */
  lemma CaseInsensitive(kb: seq<Entry>, userText: string)
    ensures Respond(kb, userText) == Respond(kb, Text.ToLower(userText))
  {
    Text.ToLowerIdempotent(userText);
  }

  /** The reply is the fallback exactly when no entry matches. */
  lemma FallbackIffNoMatch(kb: seq<Entry>, userText: string)
    requires forall e :: e in kb ==> ReplyOf(e) != Fallback
    ensures Respond(kb, userText) == Fallback <==> forall j :: 0 <= j < |kb| ==> !Matches(Text.ToLower(userText), kb[j])
  {
    var lower := Text.ToLower(userText);
    var r := FindFrom(kb, lower, 0);
    if r.Some? {
      assert FirstMatch(kb, lower, r.value);
      assert kb[r.value] in kb;
    }
  }

  // ---------------------------------------------------------------------
  // Which entry the option chips reach
  // ---------------------------------------------------------------------

  /** `ProvedApart` in place of an offset marks a keyword ruled out on its own. */
  const ProvedApart := -1

  /** Every character of `lower` is in `letters`. */
  predicate Covers(letters: set<char>, lower: string) {
    forall i :: 0 <= i < |lower| ==> lower[i] in letters
  }

  /** Each word of `apart` disagrees with `lower` wherever it would fit, as `tables` records. */
  predicate Absent(lower: string, apart: seq<string>, tables: seq<seq<int>>) {
    |tables| == |apart| &&
    forall j :: 0 <= j < |apart| ==> |apart[j]| <= |lower| && Text.Mismatches(lower, apart[j], tables[j])
  }

  /**
   * Every keyword holds a character outside `letters`, at offset `offs[k]`
   * for the `k`th keyword, or is one of the words in `apart`, marked
   * `ProvedApart`.
   */
  predicate Excluded(letters: set<char>, apart: seq<string>, keywords: seq<string>, offs: seq<int>) {
    |offs| == |keywords| &&
    forall k :: 0 <= k < |offs| ==>
      (offs[k] == ProvedApart && keywords[k] in apart)
      || (0 <= offs[k] < |keywords[k]| && keywords[k][offs[k]] !in letters)
  }

  /** The evidence a chip's text carries that it matches no keyword of an entry. */
  predicate RuledOut(lower: string, letters: set<char>, apart: seq<string>, tables: seq<seq<int>>,
                     keywords: seq<string>, offs: seq<int>) {
    Covers(letters, lower) && Absent(lower, apart, tables) && Excluded(letters, apart, keywords, offs)
  }

  /** Keywords that each hold a character the input lacks, or disagree with it wherever they fit, do not match it. */
  lemma ExcludedNoMatch(lower: string, letters: set<char>, apart: seq<string>, tables: seq<seq<int>>,
                        keywords: seq<string>, offs: seq<int>)
    requires RuledOut(lower, letters, apart, tables, keywords, offs)
    ensures !AnyKeyword(lower, keywords)
  {
    AnyKeywordIff(lower, keywords);
    forall k | 0 <= k < |keywords| ensures !Text.Includes(lower, keywords[k]) {
      if offs[k] == ProvedApart {
        var j :| 0 <= j < |apart| && apart[j] == keywords[k];
        Text.MismatchesNotIncluded(lower, apart[j], tables[j]);
      } else {
        var c := keywords[k][offs[k]];
        forall i | 0 <= i < |lower| ensures lower[i] != c {
          assert lower[i] in letters;
        }
        Text.MissingCharNotIncluded(lower, keywords[k], c);
      }
    }
  }

  /** No entry before position `k` matches. */
  predicate MissesFirst(kb: seq<Entry>, lower: string, k: nat) {
    k <= |kb| && forall j :: 0 <= j < k ==> !Matches(lower, kb[j])
  }

  /** The first five entries of both orderings: greeting, eligibility, turnover, vintage, sectors. */
  predicate OpensLikeKnowledgeBase(kb: seq<Entry>) {
    |kb| >= 5 && kb[0] == HelloEntry && kb[1] == EligibilityEntry && kb[2] == TurnoverEntry
    && kb[3] == VintageEntry && kb[4] == SectorsEntry
  }

  /** An input that carries evidence against each of the five opening entries passes them. */
  lemma OpeningMissed(kb: seq<Entry>, lower: string, letters: set<char>, apart: seq<string>, tables: seq<seq<int>>,
                      o0: seq<int>, o1: seq<int>, o2: seq<int>, o3: seq<int>, o4: seq<int>)
    requires OpensLikeKnowledgeBase(kb)
    requires RuledOut(lower, letters, apart, tables, HelloKeywords, o0)
    requires RuledOut(lower, letters, apart, tables, EligibilityKeywords, o1)
    requires RuledOut(lower, letters, apart, tables, TurnoverKeywords, o2)
    requires RuledOut(lower, letters, apart, tables, VintageKeywords, o3)
    requires RuledOut(lower, letters, apart, tables, SectorsKeywords, o4)
    ensures MissesFirst(kb, lower, 5)
  {
    ExcludedNoMatch(lower, letters, apart, tables, HelloKeywords, o0);
    ExcludedNoMatch(lower, letters, apart, tables, EligibilityKeywords, o1);
    ExcludedNoMatch(lower, letters, apart, tables, TurnoverKeywords, o2);
    ExcludedNoMatch(lower, letters, apart, tables, VintageKeywords, o3);
    ExcludedNoMatch(lower, letters, apart, tables, SectorsKeywords, o4);
    forall j | 0 <= j < 5 ensures !Matches(lower, kb[j]) {
      if j == 0 {} else if j == 1 {} else if j == 2 {} else if j == 3 {} else {}
    }
  }

  /** Passing the first `k` entries and carrying evidence against entry `k` passes the first `k + 1`. */
  lemma RowMissed(kb: seq<Entry>, lower: string, letters: set<char>, apart: seq<string>, tables: seq<seq<int>>,
                  k: nat, offs: seq<int>)
    requires MissesFirst(kb, lower, k) && k < |kb|
    requires RuledOut(lower, letters, apart, tables, kb[k].keywords, offs)
    ensures MissesFirst(kb, lower, k + 1)
  {
    ExcludedNoMatch(lower, letters, apart, tables, kb[k].keywords, offs);
  }

  /** One keyword that occurs is enough. */
  lemma {:induction false} KeywordAt(lower: string, keywords: seq<string>, k: nat)
    requires k < |keywords| && Text.Includes(lower, keywords[k])
    ensures AnyKeyword(lower, keywords)
    decreases k
  {
    if k > 0 {
      assert keywords[1..][k - 1] == keywords[k];
      KeywordAt(lower, keywords[1..], k - 1);
    }
  }

  /** Keyword `i` sitting at offset `at` of the input makes the list match. */
  lemma KeywordOccursAt(lower: string, keywords: seq<string>, i: nat, at: nat)
    requires i < |keywords| && Text.OccursAt(lower, keywords[i], at)
    ensures AnyKeyword(lower, keywords)
  {
    Text.IncludesIffOccurs(lower, keywords[i]);
    KeywordAt(lower, keywords, i);
  }

  /** A chip reaches entry `k` when, lower-cased, it passes every earlier entry and matches entry `k`. */
  lemma ChipReaches(kb: seq<Entry>, chip: string, lower: string, k: nat)
    requires Text.ToLower(chip) == lower
    requires k < |kb| && MissesFirst(kb, lower, k) && AnyKeyword(lower, kb[k].keywords)
    ensures Respond(kb, chip) == ReplyOf(kb[k])
  {
    assert FirstMatch(kb, lower, k);
  }

  /** Where the entries sit in the knowledge base as written and with the sections first. */
  lemma Layouts()
    ensures OpensLikeKnowledgeBase(KnowledgeBase) && KnowledgeBase[5] == DocumentsEntry
    ensures OpensLikeKnowledgeBase(SectionsFirst) && SectionsFirst[5] == KycEntry && SectionsFirst[6] == IncomeEntry
    ensures SectionsFirst[7] == BusinessEntry && SectionsFirst[8] == FormatsEntry && SectionsFirst[9] == DocumentsEntry
  {
  }

  // For each chip: the set of its letters; the keywords every letter of
  // which it holds, each with where it would disagree with the chip; the
  // offset of a letter the chip lacks in every other keyword of an earlier
  // entry; and the keywords it does hold.

  const KycLetters := {'k', 'y', 'c', ' ', 'd', 'o', 'u', 'm', 'e', 'n', 't', 's'}
  const KycApart: seq<string> := ["menu"]
  const KycMismatches: seq<seq<int>> := [[0, 0, 0, 0, 0, 0, 0, 0, 3, 0]]

  /** The letters of the chip, and where each keyword it holds every letter of would disagree with it. */
  lemma KycEvidence()
    ensures Covers(KycLetters, "kyc documents")
    ensures Absent("kyc documents", KycApart, KycMismatches)
  {
  }

  lemma KycOpening()
    ensures Excluded(KycLetters, KycApart, HelloKeywords, [0, 0, 0, 2, ProvedApart, 0])
    ensures Excluded(KycLetters, KycApart, EligibilityKeywords, [1, 1, 0, 1, 0])
    ensures Excluded(KycLetters, KycApart, TurnoverKeywords, [2, 0, 1, 0])
  {
  }

  lemma KycOpeningRest()
    ensures Excluded(KycLetters, KycApart, VintageKeywords, [2, 0, 1, 1])
    ensures Excluded(KycLetters, KycApart, SectorsKeywords, [5, 0, 0, 0])
  {
  }

  lemma KycLowered()
    ensures Text.ToLower("KYC Documents") == "kyc documents"
  {
  }

  /** Lower-cased, "KYC Documents" holds "kyc" of the documents entry and "kyc documents" of its own section's entry. */
  lemma KycWords()
    ensures AnyKeyword("kyc documents", DocumentsKeywords) && AnyKeyword("kyc documents", KycKeywords)
  {
    assert AnyKeyword("kyc documents", DocumentsKeywords) by {
      Text.OccursBetween("", DocumentsKeywords[4], " documents");
      KeywordOccursAt("kyc documents", DocumentsKeywords, 4, |""|);
    }
    assert AnyKeyword("kyc documents", KycKeywords) by {
      Text.OccursBetween("", KycKeywords[0], "");
      KeywordOccursAt("kyc documents", KycKeywords, 0, |""|);
    }
  }

  const IncomeLetters := {'i', 'n', 'c', 'o', 'm', 'e', ' ', 'p', 'r', 'f', 's'}
  const IncomeApart: seq<string> := []
  const IncomeMismatches: seq<seq<int>> := []

  lemma IncomeEvidence()
    ensures Covers(IncomeLetters, "income proofs")
    ensures Absent("income proofs", IncomeApart, IncomeMismatches)
  {
  }

  lemma IncomeOpening()
    ensures Excluded(IncomeLetters, IncomeApart, HelloKeywords, [0, 0, 0, 1, 3, 0])
    ensures Excluded(IncomeLetters, IncomeApart, EligibilityKeywords, [1, 1, 1, 3, 2])
    ensures Excluded(IncomeLetters, IncomeApart, TurnoverKeywords, [0, 2, 1, 0])
  {
  }

  lemma IncomeOpeningRest()
    ensures Excluded(IncomeLetters, IncomeApart, VintageKeywords, [0, 0, 1, 0])
    ensures Excluded(IncomeLetters, IncomeApart, SectorsKeywords, [3, 2, 3, 0])
  {
  }

  lemma IncomeSections()
    ensures Excluded(IncomeLetters, IncomeApart, KycKeywords, [0, 1, 1, 0])
  {
  }

  lemma IncomeLowered()
    ensures Text.ToLower("Income Proofs") == "income proofs"
  {
  }

  /** Lower-cased, "Income Proofs" holds "proof" of the documents entry and "income proof" of its own section's entry. */
  lemma IncomeWords()
    ensures AnyKeyword("income proofs", DocumentsKeywords) && AnyKeyword("income proofs", IncomeKeywords)
  {
    assert AnyKeyword("income proofs", DocumentsKeywords) by {
      Text.OccursBetween("income ", DocumentsKeywords[5], "s");
      KeywordOccursAt("income proofs", DocumentsKeywords, 5, |"income "|);
    }
    assert AnyKeyword("income proofs", IncomeKeywords) by {
      Text.OccursBetween("", IncomeKeywords[0], "s");
      KeywordOccursAt("income proofs", IncomeKeywords, 0, |""|);
    }
  }

  const BusinessLetters := {'b', 'u', 's', 'i', 'n', 'e', ' ', 'p', 'r', 'o', 'f'}
  const BusinessApart: seq<string> := []
  const BusinessMismatches: seq<seq<int>> := []

  lemma BusinessEvidence()
    ensures Covers(BusinessLetters, "business proofs")
    ensures Absent("business proofs", BusinessApart, BusinessMismatches)
  {
  }

  lemma BusinessOpening()
    ensures Excluded(BusinessLetters, BusinessApart, HelloKeywords, [0, 0, 0, 1, 0, 0])
    ensures Excluded(BusinessLetters, BusinessApart, EligibilityKeywords, [1, 1, 2, 0, 2])
    ensures Excluded(BusinessLetters, BusinessApart, TurnoverKeywords, [0, 2, 1, 0])
  {
  }

  lemma BusinessOpeningRest()
    ensures Excluded(BusinessLetters, BusinessApart, VintageKeywords, [0, 0, 1, 0])
    ensures Excluded(BusinessLetters, BusinessApart, SectorsKeywords, [2, 2, 3, 0])
  {
  }

  lemma BusinessSections()
    ensures Excluded(BusinessLetters, BusinessApart, KycKeywords, [0, 1, 1, 0])
    ensures Excluded(BusinessLetters, BusinessApart, IncomeKeywords, [2, 0, 5, 1, 1])
  {
  }

  lemma BusinessLowered()
    ensures Text.ToLower("Business Proofs") == "business proofs"
  {
  }

  /** Lower-cased, "Business Proofs" holds "proof" of the documents entry and "business proof" of its own section's entry. */
  lemma BusinessWords()
    ensures AnyKeyword("business proofs", DocumentsKeywords) && AnyKeyword("business proofs", BusinessKeywords)
  {
    assert AnyKeyword("business proofs", DocumentsKeywords) by {
      Text.OccursBetween("business ", DocumentsKeywords[5], "s");
      KeywordOccursAt("business proofs", DocumentsKeywords, 5, |"business "|);
    }
    assert AnyKeyword("business proofs", BusinessKeywords) by {
      Text.OccursBetween("", BusinessKeywords[0], "s");
      KeywordOccursAt("business proofs", BusinessKeywords, 0, |""|);
    }
  }

  const FileFormatsLetters := {'f', 'i', 'l', 'e', ' ', 'o', 'r', 'm', 'a', 't', 's'}
  const FileFormatsApart: seq<string> := ["start", "sales", "limit"]
  const FileFormatsMismatches: seq<seq<int>> := [
    [0, 0, 0, 0, 0, 0, 0, 0],
    [0, 0, 0, 0, 0, 0, 0, 0],
    [0, 0, 1, 0, 0, 0, 0, 0]]

  lemma FileFormatsEvidence()
    ensures Covers(FileFormatsLetters, "file formats")
    ensures Absent("file formats", FileFormatsApart, FileFormatsMismatches)
  {
  }

  lemma FileFormatsOpening()
    ensures Excluded(FileFormatsLetters, FileFormatsApart, HelloKeywords, [0, 0, 0, ProvedApart, 2, 0])
    ensures Excluded(FileFormatsLetters, FileFormatsApart, EligibilityKeywords, [3, 3, 1, 0, 2])
    ensures Excluded(FileFormatsLetters, FileFormatsApart, TurnoverKeywords, [1, 2, ProvedApart, ProvedApart])
  {
  }

  lemma FileFormatsOpeningRest()
    ensures Excluded(FileFormatsLetters, FileFormatsApart, VintageKeywords, [0, 1, 2, 3])
    ensures Excluded(FileFormatsLetters, FileFormatsApart, SectorsKeywords, [2, 1, 6, 0])
  {
  }

  lemma FileFormatsSections()
    ensures Excluded(FileFormatsLetters, FileFormatsApart, KycKeywords, [0, 1, 0, 2])
    ensures Excluded(FileFormatsLetters, FileFormatsApart, IncomeKeywords, [1, 2, 0, 0, 1])
  {
  }

  lemma FileFormatsSectionsRest()
    ensures Excluded(FileFormatsLetters, FileFormatsApart, BusinessKeywords, [0, 0, 2, 0])
  {
  }

  lemma FileFormatsLowered()
    ensures Text.ToLower("File Formats") == "file formats"
  {
  }

  /** Lower-cased, "File Formats" holds "file" of the documents entry and "format" of its own section's entry. */
  lemma FileFormatsWords()
    ensures AnyKeyword("file formats", DocumentsKeywords) && AnyKeyword("file formats", FormatsKeywords)
  {
    assert AnyKeyword("file formats", DocumentsKeywords) by {
      Text.OccursBetween("", DocumentsKeywords[2], " formats");
      KeywordOccursAt("file formats", DocumentsKeywords, 2, |""|);
    }
    assert AnyKeyword("file formats", FormatsKeywords) by {
      Text.OccursBetween("file ", FormatsKeywords[0], "s");
      KeywordOccursAt("file formats", FormatsKeywords, 0, |"file "|);
    }
  }

  const CheckIncomeLetters := {'c', 'h', 'e', 'k', ' ', 'i', 'n', 'o', 'm', 'p', 'r', 'f', 's'}
  const CheckIncomeApart: seq<string> := ["hi"]
  const CheckIncomeMismatches: seq<seq<int>> := [[0, 1, 0, 0, 0, 0, 0, 0, 0, 0, 0, 0, 0, 0, 0, 0, 0, 0]]

  lemma CheckIncomeEvidence()
    ensures Covers(CheckIncomeLetters, "check income proofs")
    ensures Absent("check income proofs", CheckIncomeApart, CheckIncomeMismatches)
  {
  }

  lemma CheckIncomeOpening()
    ensures Excluded(CheckIncomeLetters, CheckIncomeApart, HelloKeywords, [2, ProvedApart, 2, 1, 3, 2])
    ensures Excluded(CheckIncomeLetters, CheckIncomeApart, EligibilityKeywords, [1, 1, 1, 3, 2])
    ensures Excluded(CheckIncomeLetters, CheckIncomeApart, TurnoverKeywords, [0, 2, 1, 0])
  {
  }

  lemma CheckIncomeOpeningRest()
    ensures Excluded(CheckIncomeLetters, CheckIncomeApart, VintageKeywords, [0, 0, 1, 0])
    ensures Excluded(CheckIncomeLetters, CheckIncomeApart, SectorsKeywords, [3, 2, 3, 0])
  {
  }

  lemma CheckIncomeSections()
    ensures Excluded(CheckIncomeLetters, CheckIncomeApart, KycKeywords, [1, 1, 1, 0])
  {
  }

  lemma CheckIncomeLowered()
    ensures Text.ToLower("Check Income Proofs") == "check income proofs"
  {
  }

  /** Lower-cased, "Check Income Proofs" holds "proof" of the documents entry and "income proof" of its own section's entry. */
  lemma CheckIncomeWords()
    ensures AnyKeyword("check income proofs", DocumentsKeywords) && AnyKeyword("check income proofs", IncomeKeywords)
  {
    assert AnyKeyword("check income proofs", DocumentsKeywords) by {
      Text.OccursBetween("check income ", DocumentsKeywords[5], "s");
      KeywordOccursAt("check income proofs", DocumentsKeywords, 5, |"check income "|);
    }
    assert AnyKeyword("check income proofs", IncomeKeywords) by {
      Text.OccursBetween("check ", IncomeKeywords[0], "s");
      KeywordOccursAt("check income proofs", IncomeKeywords, 0, |"check "|);
    }
  }

  const CheckBusinessLetters := {'c', 'h', 'e', 'k', ' ', 'b', 'u', 's', 'i', 'n', 'p', 'r', 'o', 'f'}
  const CheckBusinessApart: seq<string> := ["hi"]
  const CheckBusinessMismatches: seq<seq<int>> := [[0, 1, 0, 0, 0, 0, 0, 0, 0, 0, 0, 0, 0, 0, 0, 0, 0, 0, 0, 0]]

  lemma CheckBusinessEvidence()
    ensures Covers(CheckBusinessLetters, "check business proofs")
    ensures Absent("check business proofs", CheckBusinessApart, CheckBusinessMismatches)
  {
  }

  lemma CheckBusinessOpening()
    ensures Excluded(CheckBusinessLetters, CheckBusinessApart, HelloKeywords, [2, ProvedApart, 2, 1, 0, 2])
    ensures Excluded(CheckBusinessLetters, CheckBusinessApart, EligibilityKeywords, [1, 1, 2, 3, 2])
    ensures Excluded(CheckBusinessLetters, CheckBusinessApart, TurnoverKeywords, [0, 2, 1, 0])
  {
  }

  lemma CheckBusinessOpeningRest()
    ensures Excluded(CheckBusinessLetters, CheckBusinessApart, VintageKeywords, [0, 0, 1, 0])
    ensures Excluded(CheckBusinessLetters, CheckBusinessApart, SectorsKeywords, [3, 2, 3, 0])
  {
  }

  lemma CheckBusinessSections()
    ensures Excluded(CheckBusinessLetters, CheckBusinessApart, KycKeywords, [1, 1, 1, 0])
    ensures Excluded(CheckBusinessLetters, CheckBusinessApart, IncomeKeywords, [4, 0, 5, 1, 4])
  {
  }

  lemma CheckBusinessLowered()
    ensures Text.ToLower("Check Business Proofs") == "check business proofs"
  {
  }

  /** Lower-cased, "Check Business Proofs" holds "proof" of the documents entry and "business proof" of its own section's entry. */
  lemma CheckBusinessWords()
    ensures AnyKeyword("check business proofs", DocumentsKeywords) && AnyKeyword("check business proofs", BusinessKeywords)
  {
    assert AnyKeyword("check business proofs", DocumentsKeywords) by {
      Text.OccursBetween("check business ", DocumentsKeywords[5], "s");
      KeywordOccursAt("check business proofs", DocumentsKeywords, 5, |"check business "|);
    }
    assert AnyKeyword("check business proofs", BusinessKeywords) by {
      Text.OccursBetween("check ", BusinessKeywords[0], "s");
      KeywordOccursAt("check business proofs", BusinessKeywords, 0, |"check "|);
    }
  }

  const RequiredDocumentsLetters := {'r', 'e', 'q', 'u', 'i', 'd', ' ', 'o', 'c', 'm', 'n', 't', 's'}
  const RequiredDocumentsApart: seq<string> := ["menu", "requirement", "sector", "restricted", "cin", "director"]
  const RequiredDocumentsMismatches: seq<seq<int>> := [
    [0, 0, 0, 0, 0, 0, 0, 0, 0, 0, 0, 0, 0, 3, 0],
    [7, 0, 0, 0, 0, 2, 0, 0],
    [0, 0, 0, 0, 0, 0, 0, 0, 0, 0, 0, 0, 0],
    [2, 0, 0, 0, 0, 2, 0, 0, 0],
    [0, 0, 0, 0, 0, 0, 0, 0, 0, 0, 0, 1, 0, 0, 0, 0],
    [0, 0, 0, 0, 0, 0, 0, 1, 0, 1, 0]]

  lemma RequiredDocumentsEvidence()
    ensures Covers(RequiredDocumentsLetters, "required documents")
    ensures Absent("required documents", RequiredDocumentsApart, RequiredDocumentsMismatches)
  {
    RequiredDocumentsMismatchesFrom(0);
    RequiredDocumentsMismatchesFrom(2);
    RequiredDocumentsMismatchesFrom(4);
  }

  /** Two of the six words at a time. */
  lemma RequiredDocumentsMismatchesFrom(j0: nat)
    requires j0 == 0 || j0 == 2 || j0 == 4
    ensures forall j :: j0 <= j < j0 + 2 ==> Text.Mismatches("required documents", RequiredDocumentsApart[j], RequiredDocumentsMismatches[j])
  {
  }

  lemma RequiredDocumentsOpening()
    ensures Excluded(RequiredDocumentsLetters, RequiredDocumentsApart, HelloKeywords, [0, 0, 0, 2, ProvedApart, 0])
    ensures Excluded(RequiredDocumentsLetters, RequiredDocumentsApart, EligibilityKeywords, [1, 1, 2, 7, ProvedApart])
    ensures Excluded(RequiredDocumentsLetters, RequiredDocumentsApart, TurnoverKeywords, [5, 2, 1, 0])
  {
  }

  lemma RequiredDocumentsOpeningRest()
    ensures Excluded(RequiredDocumentsLetters, RequiredDocumentsApart, VintageKeywords, [0, 0, 1, 2])
    ensures Excluded(RequiredDocumentsLetters, RequiredDocumentsApart, SectorsKeywords, [ProvedApart, 7, ProvedApart, 0])
  {
  }

  lemma RequiredDocumentsSections()
    ensures Excluded(RequiredDocumentsLetters, RequiredDocumentsApart, KycKeywords, [0, 7, 0, 0])
    ensures Excluded(RequiredDocumentsLetters, RequiredDocumentsApart, IncomeKeywords, [7, 1, 0, 0, 1])
  {
  }

  lemma RequiredDocumentsSectionsRest()
    ensures Excluded(RequiredDocumentsLetters, RequiredDocumentsApart, BusinessKeywords, [0, ProvedApart, 2, ProvedApart])
    ensures Excluded(RequiredDocumentsLetters, RequiredDocumentsApart, FormatsKeywords, [0, 2, 0, 0])
  {
  }

  lemma RequiredDocumentsLowered()
    ensures Text.ToLower("Required Documents") == "required documents"
  {
  }

  /** Lower-cased, "Required Documents" holds "document" of the documents entry. */
  lemma RequiredDocumentsWords()
    ensures AnyKeyword("required documents", DocumentsKeywords)
  {
    assert AnyKeyword("required documents", DocumentsKeywords) by {
      Text.OccursBetween("required ", DocumentsKeywords[0], "s");
      KeywordOccursAt("required documents", DocumentsKeywords, 0, |"required "|);
    }
  }

  const BackToDocumentsLetters := {'b', 'a', 'c', 'k', ' ', 't', 'o', 'd', 'u', 'm', 'e', 'n', 's'}
  const BackToDocumentsApart: seq<string> := ["menu"]
  const BackToDocumentsMismatches: seq<seq<int>> := [[0, 0, 0, 0, 0, 0, 0, 0, 0, 0, 0, 0, 3, 0]]

  lemma BackToDocumentsEvidence()
    ensures Covers(BackToDocumentsLetters, "back to documents")
    ensures Absent("back to documents", BackToDocumentsApart, BackToDocumentsMismatches)
  {
  }

  lemma BackToDocumentsOpening()
    ensures Excluded(BackToDocumentsLetters, BackToDocumentsApart, HelloKeywords, [0, 0, 0, 3, ProvedApart, 0])
    ensures Excluded(BackToDocumentsLetters, BackToDocumentsApart, EligibilityKeywords, [1, 1, 0, 1, 0])
    ensures Excluded(BackToDocumentsLetters, BackToDocumentsApart, TurnoverKeywords, [2, 0, 2, 0])
  {
  }

  lemma BackToDocumentsOpeningRest()
    ensures Excluded(BackToDocumentsLetters, BackToDocumentsApart, VintageKeywords, [0, 1, 1, 1])
    ensures Excluded(BackToDocumentsLetters, BackToDocumentsApart, SectorsKeywords, [5, 0, 0, 0])
  {
  }

  lemma BackToDocumentsSections()
    ensures Excluded(BackToDocumentsLetters, BackToDocumentsApart, KycKeywords, [1, 0, 0, 3])
    ensures Excluded(BackToDocumentsLetters, BackToDocumentsApart, IncomeKeywords, [0, 2, 0, 2, 1])
  {
  }

  lemma BackToDocumentsSectionsRest()
    ensures Excluded(BackToDocumentsLetters, BackToDocumentsApart, BusinessKeywords, [3, 1, 0, 1])
    ensures Excluded(BackToDocumentsLetters, BackToDocumentsApart, FormatsKeywords, [0, 1, 0, 0])
  {
  }

  lemma BackToDocumentsLowered()
    ensures Text.ToLower("Back to Documents") == "back to documents"
  {
  }

  /** Lower-cased, "Back to Documents" holds "document" of the documents entry. */
  lemma BackToDocumentsWords()
    ensures AnyKeyword("back to documents", DocumentsKeywords)
  {
    assert AnyKeyword("back to documents", DocumentsKeywords) by {
      Text.OccursBetween("back to ", DocumentsKeywords[0], "s");
      KeywordOccursAt("back to documents", DocumentsKeywords, 0, |"back to "|);
    }
  }

  /** "KYC Documents" reaches the documents answer as written, and its own section's answer with the sections first. */
  lemma KycChip()
    ensures Respond(KnowledgeBase, "KYC Documents") == ReplyOf(DocumentsEntry)
    ensures Respond(SectionsFirst, "KYC Documents") == ReplyOf(KycEntry)
    ensures Matches("kyc documents", KycEntry)
  {
    Layouts();
    KycLowered();
    KycWords();
    KycEvidence();
    KycOpening();
    KycOpeningRest();
    OpeningMissed(KnowledgeBase, "kyc documents", KycLetters, KycApart, KycMismatches,
                  [0, 0, 0, 2, ProvedApart, 0], [1, 1, 0, 1, 0], [2, 0, 1, 0], [2, 0, 1, 1], [5, 0, 0, 0]);
    ChipReaches(KnowledgeBase, "KYC Documents", "kyc documents", 5);
    OpeningMissed(SectionsFirst, "kyc documents", KycLetters, KycApart, KycMismatches,
                  [0, 0, 0, 2, ProvedApart, 0], [1, 1, 0, 1, 0], [2, 0, 1, 0], [2, 0, 1, 1], [5, 0, 0, 0]);
    ChipReaches(SectionsFirst, "KYC Documents", "kyc documents", 5);
  }

  /** "Income Proofs" reaches the documents answer as written, and its own section's answer with the sections first. */
  lemma IncomeChip()
    ensures Respond(KnowledgeBase, "Income Proofs") == ReplyOf(DocumentsEntry)
    ensures Respond(SectionsFirst, "Income Proofs") == ReplyOf(IncomeEntry)
    ensures Matches("income proofs", IncomeEntry)
  {
    Layouts();
    IncomeLowered();
    IncomeWords();
    IncomeEvidence();
    IncomeOpening();
    IncomeOpeningRest();
    IncomeSections();
    OpeningMissed(KnowledgeBase, "income proofs", IncomeLetters, IncomeApart, IncomeMismatches,
                  [0, 0, 0, 1, 3, 0], [1, 1, 1, 3, 2], [0, 2, 1, 0], [0, 0, 1, 0], [3, 2, 3, 0]);
    ChipReaches(KnowledgeBase, "Income Proofs", "income proofs", 5);
    OpeningMissed(SectionsFirst, "income proofs", IncomeLetters, IncomeApart, IncomeMismatches,
                  [0, 0, 0, 1, 3, 0], [1, 1, 1, 3, 2], [0, 2, 1, 0], [0, 0, 1, 0], [3, 2, 3, 0]);
    RowMissed(SectionsFirst, "income proofs", IncomeLetters, IncomeApart, IncomeMismatches, 5, [0, 1, 1, 0]);
    ChipReaches(SectionsFirst, "Income Proofs", "income proofs", 6);
  }

  /** "Business Proofs" reaches the documents answer as written, and its own section's answer with the sections first. */
  lemma BusinessChip()
    ensures Respond(KnowledgeBase, "Business Proofs") == ReplyOf(DocumentsEntry)
    ensures Respond(SectionsFirst, "Business Proofs") == ReplyOf(BusinessEntry)
    ensures Matches("business proofs", BusinessEntry)
  {
    Layouts();
    BusinessLowered();
    BusinessWords();
    BusinessEvidence();
    BusinessOpening();
    BusinessOpeningRest();
    BusinessSections();
    OpeningMissed(KnowledgeBase, "business proofs", BusinessLetters, BusinessApart, BusinessMismatches,
                  [0, 0, 0, 1, 0, 0], [1, 1, 2, 0, 2], [0, 2, 1, 0], [0, 0, 1, 0], [2, 2, 3, 0]);
    ChipReaches(KnowledgeBase, "Business Proofs", "business proofs", 5);
    OpeningMissed(SectionsFirst, "business proofs", BusinessLetters, BusinessApart, BusinessMismatches,
                  [0, 0, 0, 1, 0, 0], [1, 1, 2, 0, 2], [0, 2, 1, 0], [0, 0, 1, 0], [2, 2, 3, 0]);
    RowMissed(SectionsFirst, "business proofs", BusinessLetters, BusinessApart, BusinessMismatches, 5, [0, 1, 1, 0]);
    RowMissed(SectionsFirst, "business proofs", BusinessLetters, BusinessApart, BusinessMismatches, 6, [2, 0, 5, 1, 1]);
    ChipReaches(SectionsFirst, "Business Proofs", "business proofs", 7);
  }

  /** "File Formats" reaches the documents answer as written, and its own section's answer with the sections first. */
  lemma FileFormatsChip()
    ensures Respond(KnowledgeBase, "File Formats") == ReplyOf(DocumentsEntry)
    ensures Respond(SectionsFirst, "File Formats") == ReplyOf(FormatsEntry)
    ensures Matches("file formats", FormatsEntry)
  {
    Layouts();
    FileFormatsLowered();
    FileFormatsWords();
    FileFormatsEvidence();
    FileFormatsOpening();
    FileFormatsOpeningRest();
    FileFormatsSections();
    FileFormatsSectionsRest();
    OpeningMissed(KnowledgeBase, "file formats", FileFormatsLetters, FileFormatsApart, FileFormatsMismatches,
                  [0, 0, 0, ProvedApart, 2, 0], [3, 3, 1, 0, 2], [1, 2, ProvedApart, ProvedApart], [0, 1, 2, 3], [2, 1, 6, 0]);
    ChipReaches(KnowledgeBase, "File Formats", "file formats", 5);
    OpeningMissed(SectionsFirst, "file formats", FileFormatsLetters, FileFormatsApart, FileFormatsMismatches,
                  [0, 0, 0, ProvedApart, 2, 0], [3, 3, 1, 0, 2], [1, 2, ProvedApart, ProvedApart], [0, 1, 2, 3], [2, 1, 6, 0]);
    RowMissed(SectionsFirst, "file formats", FileFormatsLetters, FileFormatsApart, FileFormatsMismatches, 5, [0, 1, 0, 2]);
    RowMissed(SectionsFirst, "file formats", FileFormatsLetters, FileFormatsApart, FileFormatsMismatches, 6, [1, 2, 0, 0, 1]);
    RowMissed(SectionsFirst, "file formats", FileFormatsLetters, FileFormatsApart, FileFormatsMismatches, 7, [0, 0, 2, 0]);
    ChipReaches(SectionsFirst, "File Formats", "file formats", 8);
  }

  /** "Check Income Proofs" reaches the documents answer as written, and its own section's answer with the sections first. */
  lemma CheckIncomeChip()
    ensures Respond(KnowledgeBase, "Check Income Proofs") == ReplyOf(DocumentsEntry)
    ensures Respond(SectionsFirst, "Check Income Proofs") == ReplyOf(IncomeEntry)
    ensures Matches("check income proofs", IncomeEntry)
  {
    Layouts();
    CheckIncomeLowered();
    CheckIncomeWords();
    CheckIncomeEvidence();
    CheckIncomeOpening();
    CheckIncomeOpeningRest();
    CheckIncomeSections();
    OpeningMissed(KnowledgeBase, "check income proofs", CheckIncomeLetters, CheckIncomeApart, CheckIncomeMismatches,
                  [2, ProvedApart, 2, 1, 3, 2], [1, 1, 1, 3, 2], [0, 2, 1, 0], [0, 0, 1, 0], [3, 2, 3, 0]);
    ChipReaches(KnowledgeBase, "Check Income Proofs", "check income proofs", 5);
    OpeningMissed(SectionsFirst, "check income proofs", CheckIncomeLetters, CheckIncomeApart, CheckIncomeMismatches,
                  [2, ProvedApart, 2, 1, 3, 2], [1, 1, 1, 3, 2], [0, 2, 1, 0], [0, 0, 1, 0], [3, 2, 3, 0]);
    RowMissed(SectionsFirst, "check income proofs", CheckIncomeLetters, CheckIncomeApart, CheckIncomeMismatches, 5, [1, 1, 1, 0]);
    ChipReaches(SectionsFirst, "Check Income Proofs", "check income proofs", 6);
  }

  /** "Check Business Proofs" reaches the documents answer as written, and its own section's answer with the sections first. */
  lemma CheckBusinessChip()
    ensures Respond(KnowledgeBase, "Check Business Proofs") == ReplyOf(DocumentsEntry)
    ensures Respond(SectionsFirst, "Check Business Proofs") == ReplyOf(BusinessEntry)
    ensures Matches("check business proofs", BusinessEntry)
  {
    Layouts();
    CheckBusinessLowered();
    CheckBusinessWords();
    CheckBusinessEvidence();
    CheckBusinessOpening();
    CheckBusinessOpeningRest();
    CheckBusinessSections();
    OpeningMissed(KnowledgeBase, "check business proofs", CheckBusinessLetters, CheckBusinessApart, CheckBusinessMismatches,
                  [2, ProvedApart, 2, 1, 0, 2], [1, 1, 2, 3, 2], [0, 2, 1, 0], [0, 0, 1, 0], [3, 2, 3, 0]);
    ChipReaches(KnowledgeBase, "Check Business Proofs", "check business proofs", 5);
    OpeningMissed(SectionsFirst, "check business proofs", CheckBusinessLetters, CheckBusinessApart, CheckBusinessMismatches,
                  [2, ProvedApart, 2, 1, 0, 2], [1, 1, 2, 3, 2], [0, 2, 1, 0], [0, 0, 1, 0], [3, 2, 3, 0]);
    RowMissed(SectionsFirst, "check business proofs", CheckBusinessLetters, CheckBusinessApart, CheckBusinessMismatches, 5, [1, 1, 1, 0]);
    RowMissed(SectionsFirst, "check business proofs", CheckBusinessLetters, CheckBusinessApart, CheckBusinessMismatches, 6, [4, 0, 5, 1, 4]);
    ChipReaches(SectionsFirst, "Check Business Proofs", "check business proofs", 7);
  }

  /** "Required Documents" reaches the documents answer in both layouts. */
  lemma RequiredDocumentsChip()
    ensures Respond(KnowledgeBase, "Required Documents") == ReplyOf(DocumentsEntry)
    ensures Respond(SectionsFirst, "Required Documents") == ReplyOf(DocumentsEntry)
  {
    Layouts();
    RequiredDocumentsLowered();
    RequiredDocumentsWords();
    RequiredDocumentsEvidence();
    RequiredDocumentsOpening();
    RequiredDocumentsOpeningRest();
    RequiredDocumentsSections();
    RequiredDocumentsSectionsRest();
    OpeningMissed(KnowledgeBase, "required documents", RequiredDocumentsLetters, RequiredDocumentsApart, RequiredDocumentsMismatches,
                  [0, 0, 0, 2, ProvedApart, 0], [1, 1, 2, 7, ProvedApart], [5, 2, 1, 0], [0, 0, 1, 2], [ProvedApart, 7, ProvedApart, 0]);
    ChipReaches(KnowledgeBase, "Required Documents", "required documents", 5);
    OpeningMissed(SectionsFirst, "required documents", RequiredDocumentsLetters, RequiredDocumentsApart, RequiredDocumentsMismatches,
                  [0, 0, 0, 2, ProvedApart, 0], [1, 1, 2, 7, ProvedApart], [5, 2, 1, 0], [0, 0, 1, 2], [ProvedApart, 7, ProvedApart, 0]);
    RowMissed(SectionsFirst, "required documents", RequiredDocumentsLetters, RequiredDocumentsApart, RequiredDocumentsMismatches, 5, [0, 7, 0, 0]);
    RowMissed(SectionsFirst, "required documents", RequiredDocumentsLetters, RequiredDocumentsApart, RequiredDocumentsMismatches, 6, [7, 1, 0, 0, 1]);
    RowMissed(SectionsFirst, "required documents", RequiredDocumentsLetters, RequiredDocumentsApart, RequiredDocumentsMismatches, 7, [0, ProvedApart, 2, ProvedApart]);
    RowMissed(SectionsFirst, "required documents", RequiredDocumentsLetters, RequiredDocumentsApart, RequiredDocumentsMismatches, 8, [0, 2, 0, 0]);
    ChipReaches(SectionsFirst, "Required Documents", "required documents", 9);
  }

  /** "Back to Documents" reaches the documents answer in both layouts. */
  lemma BackToDocumentsChip()
    ensures Respond(KnowledgeBase, "Back to Documents") == ReplyOf(DocumentsEntry)
    ensures Respond(SectionsFirst, "Back to Documents") == ReplyOf(DocumentsEntry)
  {
    Layouts();
    BackToDocumentsLowered();
    BackToDocumentsWords();
    BackToDocumentsEvidence();
    BackToDocumentsOpening();
    BackToDocumentsOpeningRest();
    BackToDocumentsSections();
    BackToDocumentsSectionsRest();
    OpeningMissed(KnowledgeBase, "back to documents", BackToDocumentsLetters, BackToDocumentsApart, BackToDocumentsMismatches,
                  [0, 0, 0, 3, ProvedApart, 0], [1, 1, 0, 1, 0], [2, 0, 2, 0], [0, 1, 1, 1], [5, 0, 0, 0]);
    ChipReaches(KnowledgeBase, "Back to Documents", "back to documents", 5);
    OpeningMissed(SectionsFirst, "back to documents", BackToDocumentsLetters, BackToDocumentsApart, BackToDocumentsMismatches,
                  [0, 0, 0, 3, ProvedApart, 0], [1, 1, 0, 1, 0], [2, 0, 2, 0], [0, 1, 1, 1], [5, 0, 0, 0]);
    RowMissed(SectionsFirst, "back to documents", BackToDocumentsLetters, BackToDocumentsApart, BackToDocumentsMismatches, 5, [1, 0, 0, 3]);
    RowMissed(SectionsFirst, "back to documents", BackToDocumentsLetters, BackToDocumentsApart, BackToDocumentsMismatches, 6, [0, 2, 0, 2, 1]);
    RowMissed(SectionsFirst, "back to documents", BackToDocumentsLetters, BackToDocumentsApart, BackToDocumentsMismatches, 7, [3, 1, 0, 1]);
    RowMissed(SectionsFirst, "back to documents", BackToDocumentsLetters, BackToDocumentsApart, BackToDocumentsMismatches, 8, [0, 1, 0, 0]);
    ChipReaches(SectionsFirst, "Back to Documents", "back to documents", 9);
  }

  /**
   * As written: every chip about a section that the documents answer and the
   * section answers offer matches the documents entry first (through
   * "kyc", "file" or "proof"), so each click repeats the documents answer,
   * although each also matches the entry meant for it.
   */
  lemma SectionChipsLoopBack()
    ensures Respond(KnowledgeBase, "KYC Documents") == ReplyOf(DocumentsEntry)
    ensures Respond(KnowledgeBase, "Income Proofs") == ReplyOf(DocumentsEntry)
    ensures Respond(KnowledgeBase, "Business Proofs") == ReplyOf(DocumentsEntry)
    ensures Respond(KnowledgeBase, "File Formats") == ReplyOf(DocumentsEntry)
    ensures Respond(KnowledgeBase, "Check Income Proofs") == ReplyOf(DocumentsEntry)
    ensures Respond(KnowledgeBase, "Check Business Proofs") == ReplyOf(DocumentsEntry)
    ensures Matches("kyc documents", KycEntry) && Matches("income proofs", IncomeEntry)
    ensures Matches("business proofs", BusinessEntry) && Matches("file formats", FormatsEntry)
    ensures Matches("check income proofs", IncomeEntry) && Matches("check business proofs", BusinessEntry)
  {
    KycChip();
    IncomeChip();
    BusinessChip();
    FileFormatsChip();
    CheckIncomeChip();
    CheckBusinessChip();
  }

  /** `s` with its element at `i` moved to just before position `j`. */
  function MoveBack<T>(s: seq<T>, i: nat, j: nat): (r: seq<T>)
    requires i < j <= |s|
    ensures |r| == |s|
    ensures forall k :: 0 <= k < i ==> r[k] == s[k]
    ensures forall k :: i <= k < j - 1 ==> r[k] == s[k + 1]
    ensures r[j - 1] == s[i]
    ensures forall k :: j <= k < |s| ==> r[k] == s[k]
  {
    s[..i] + s[i + 1..j] + [s[i]] + s[j..]
  }

  /** Moving one element keeps every element, each as often as before. */
  lemma MoveBackIsPermutation<T>(s: seq<T>, i: nat, j: nat)
    requires i < j <= |s|
    ensures multiset(MoveBack(s, i, j)) == multiset(s)
  {
    assert s == s[..i] + [s[i]] + s[i + 1..j] + s[j..];
  }

  /** The knowledge base with the generic documents entry moved behind the three section entries and the file-format entry. */
  const SectionsFirst: seq<Entry> := [
    HelloEntry, EligibilityEntry, TurnoverEntry, VintageEntry, SectorsEntry,
    KycEntry, IncomeEntry, BusinessEntry, FormatsEntry, DocumentsEntry,
    TrackEntry, RevokeEntry, ContactEntry
  ]

  /** The reordering only moves the documents entry: the same entries, each once. */
  lemma SectionsFirstIsPermutation()
    ensures SectionsFirst == MoveBack(KnowledgeBase, 5, 10)
    ensures multiset(SectionsFirst) == multiset(KnowledgeBase)
  {
    assert SectionsFirst == MoveBack(KnowledgeBase, 5, 10);
    MoveBackIsPermutation(KnowledgeBase, 5, 10);
  }

  /**
   * With the sections first, each section chip reaches the answer for its
   * section, and the two chips that ask for the documents menu itself still
   * reach it, as they do in the knowledge base as written.
   */
  lemma SectionChipsReachSections()
    ensures Respond(SectionsFirst, "KYC Documents") == ReplyOf(KycEntry)
    ensures Respond(SectionsFirst, "Income Proofs") == ReplyOf(IncomeEntry)
    ensures Respond(SectionsFirst, "Business Proofs") == ReplyOf(BusinessEntry)
    ensures Respond(SectionsFirst, "File Formats") == ReplyOf(FormatsEntry)
    ensures Respond(SectionsFirst, "Check Income Proofs") == ReplyOf(IncomeEntry)
    ensures Respond(SectionsFirst, "Check Business Proofs") == ReplyOf(BusinessEntry)
    ensures Respond(SectionsFirst, "Required Documents") == ReplyOf(DocumentsEntry)
    ensures Respond(SectionsFirst, "Back to Documents") == ReplyOf(DocumentsEntry)
    ensures Respond(KnowledgeBase, "Required Documents") == ReplyOf(DocumentsEntry)
    ensures Respond(KnowledgeBase, "Back to Documents") == ReplyOf(DocumentsEntry)
  {
    KycChip();
    IncomeChip();
    BusinessChip();
    FileFormatsChip();
    CheckIncomeChip();
    CheckBusinessChip();
    RequiredDocumentsChip();
    BackToDocumentsChip();
  }

  // ---------------------------------------------------------------------
  // The chat
  // ---------------------------------------------------------------------

  datatype Message = UserMessage(text: string) | BotMessage(text: string, options: seq<string>)

  /** The message the chat starts with and returns to on reset. */
  const Greeting := BotMessage("\U{1F44B} Hi! I'm SpotBot. I can guide you through the process. Select a topic below:",
                               ["Eligibility Rules", "Required Documents", "Track Application", "Contact Support"])

  /** The widget's state; `kb` is the knowledge base the replies come from. */
  class Chat {
    const kb: seq<Entry>
    var messages: seq<Message>
    var input: string
    var isTyping: bool

    /** The conversation always opens with the greeting. */
    ghost predicate Valid()
      reads this
    {
      |messages| >= 1 && messages[0] == Greeting
    }

    constructor (kb: seq<Entry>)
      ensures Valid() && this.kb == kb
      ensures messages == [Greeting] && input == "" && !isTyping
    {
      this.kb := kb;
      messages := [Greeting];
      input := "";
      isTyping := false;
    }

    /** Typing into the input box. */
    method SetInput(text: string)
      modifies this`input
      ensures input == text
    {
      input := text;
    }

    /**
     * `handleSend`: white space alone is ignored; otherwise the trimmed text
     * is posted as a user message, the box is cleared and the bot starts
     * typing. Returns the text handed to the matcher.
     */
    method HandleSend() returns (sent: Option<string>)
      requires Valid()
      modifies this`messages, this`input, this`isTyping
      ensures Valid()
      ensures Text.Trim(old(input)) == [] ==>
        sent == None && messages == old(messages) && input == old(input) && isTyping == old(isTyping)
      ensures Text.Trim(old(input)) != [] ==>
        && sent == Some(Text.Trim(old(input)))
        && messages == old(messages) + [UserMessage(Text.Trim(old(input)))]
        && input == "" && isTyping
    {
      var userText := Text.Trim(input);
      if userText == [] {
        return None;
      }
      messages := messages + [UserMessage(userText)];
      input := "";
      isTyping := true;
      sent := Some(userText);
    }

    /** `handleOptionClick`: the chip's text is posted as a user message and the bot starts typing. */
    method OptionClick(option: string)
      requires Valid()
      modifies this`messages, this`isTyping
      ensures Valid()
      ensures messages == old(messages) + [UserMessage(option)] && isTyping
    {
      messages := messages + [UserMessage(option)];
      isTyping := true;
    }

    /** The typing timer of `processResponse`: exactly one bot message is appended. */
    method DeliverReply(userText: string)
      requires Valid()
      modifies this`messages, this`isTyping
      ensures Valid()
      ensures messages == old(messages) + [BotMessage(Respond(kb, userText).text, Respond(kb, userText).options)]
      ensures !isTyping
    {
      var reply := Respond(kb, userText);
      messages := messages + [BotMessage(reply.text, reply.options)];
      isTyping := false;
    }

    /** `resetChat`: only the greeting remains; the input box and typing flag are left as they were. */
    method ResetChat()
      modifies this`messages
      ensures Valid() && messages == [Greeting]
    {
      messages := [Greeting];
    }
  }
}

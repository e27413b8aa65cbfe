/**
 * The lead-generation research agent: how a model reply is cut out of its code fence
 * before JSON parsing, the fixed records used when parsing fails, the search query, the
 * append-only research history, the merge of a company with its research in `main`, and
 * the mapping of researched companies to report rows. The model's replies, the clock and
 * `json.loads` are inputs.
 */
module LeadResearch {
  import opened Wrappers
  import opened Text
  import opened Seqs

  type Record = map<string, string>

  /** `d.get(key, default)` on a record of strings. */
  function Get(d: Record, key: string, default: string): (r: string)
    ensures key in d ==> r == d[key]
    ensures key !in d ==> r == default
  {
    if key in d then d[key] else default
  }

  // ---------------------------------------------------------------------------------------
  // Code fences

  const Fence := "```"
  const JsonFence := "```json"

  /**
   * The text handed to `json.loads` by extract_contact_info and _parse_company_list: the
   * stripped reply, cut between the first and second `` ```json `` and then before the first
   * fence, or else between the first and second fence, and stripped again.
   */
  function Unfence(reply: string): string {
    var text := Strip(reply);
    if Contains(text, JsonFence) then
      var inner := Split(text, JsonFence);
      SplitFirst(text, JsonFence);
      SplitSecond(text, JsonFence, Find(text, JsonFence).value);
      Cut(inner[1])
    else if Contains(text, Fence) then
      var inner := Split(text, Fence);
      SplitSecond(text, Fence, Find(text, Fence).value);
      Cut(inner[1])
    else
      text
  }

  /** `piece.split("```")[0].strip()` */
  function Cut(piece: string): string {
    Strip(Split(piece, Fence)[0])
  }

  /** What is cut out before the first fence holds no fence. */
  lemma CutHasNoFence(piece: string)
    ensures !Contains(Cut(piece), Fence)
  {
    var before := Split(piece, Fence)[0];
    SplitFirst(piece, Fence);
    UpToFree(piece, Fence);
    StripAbsent(before, Fence);
  }

  /** Neither fence contains whitespace, so stripping the reply neither adds nor removes one. */
  lemma FenceSurvivesStrip(reply: string)
    ensures Contains(Strip(reply), Fence) <==> Contains(reply, Fence)
    ensures Contains(Strip(reply), JsonFence) <==> Contains(reply, JsonFence)
  {
    assert forall k :: 0 <= k < |Fence| ==> !IsSpace(Fence[k]);
    assert forall k :: 0 <= k < |JsonFence| ==> !IsSpace(JsonFence[k]);
    if Contains(reply, Fence) {
      StripKeeps(reply, Fence);
    }
    if Contains(reply, JsonFence) {
      StripKeeps(reply, JsonFence);
    }
    if Contains(Strip(reply), Fence) {
      StripContainedIn(reply, Fence);
    }
    if Contains(Strip(reply), JsonFence) {
      StripContainedIn(reply, JsonFence);
    }
  }

  /** A reply with a fence of either kind yields a text with no fence left in it. */
  lemma UnfencedHasNoFence(reply: string)
    requires Contains(reply, Fence)
    ensures !Contains(Unfence(reply), Fence)
  {
    FenceSurvivesStrip(reply);
    var text := Strip(reply);
    if Contains(text, JsonFence) {
      CutHasNoFence(Split(text, JsonFence)[1]);
    } else {
      CutHasNoFence(Split(text, Fence)[1]);
    }
  }

  /** A reply with no fence is only stripped. */
  lemma UnfenceWithoutFence(reply: string)
    requires !Contains(reply, Fence)
    ensures Unfence(reply) == Strip(reply)
  {
    FenceSurvivesStrip(reply);
    if Contains(reply, JsonFence) {
      ContainsMiddle([], Fence, "json");
      assert JsonFence == [] + Fence + "json";
      var i := Find(reply, JsonFence).value;
      assert reply[i..i + 3] == reply[i..i + 7][..3];
      OccursContains(reply, Fence, i);
    }
  }

  /** With a plain fence and no `` ```json ``, the text is what lies between the first two fences, stripped. */
  lemma UnfencePlain(reply: string)
    requires Contains(reply, Fence) && !Contains(reply, JsonFence)
    ensures Contains(Strip(reply), Fence)
    ensures var text := Strip(reply); var i := Find(text, Fence).value;
      Unfence(reply) == Strip(UpTo(text[i + |Fence|..], Fence))
  {
    FenceSurvivesStrip(reply);
    var text := Strip(reply);
    var i := Find(text, Fence).value;
    var between := UpTo(text[i + |Fence|..], Fence);
    SplitSecond(text, Fence, i);
    UpToFree(text[i + |Fence|..], Fence);
    SplitFirst(between, Fence);
  }

  /**
   * With a `` ```json `` fence, the text is what follows its first occurrence up to the next
   * fence, stripped, for every reply without a run of four backticks (see the README: such a
   * run can hide a closing fence that overlaps the next `` ```json ``).
   */
  lemma UnfenceJson(reply: string)
    requires Contains(reply, JsonFence) && !Contains(reply, "````")
    ensures Contains(Strip(reply), JsonFence)
    ensures var text := Strip(reply); var i := Find(text, JsonFence).value;
      Unfence(reply) == Strip(UpTo(text[i + |JsonFence|..], Fence))
  {
    FenceSurvivesStrip(reply);
    var text := Strip(reply);
    var i := Find(text, JsonFence).value;
    var after := text[i + |JsonFence|..];
    if Contains(text, "````") {
      StripContainedIn(reply, "````");
    }
    if Contains(after, "````") {
      assert text[i + |JsonFence|..|text|] == after;
      ContainsSlice(text, i + |JsonFence|, |text|, "````");
    }
    SplitSecond(text, JsonFence, i);
    SplitFirst(UpTo(after, JsonFence), Fence);
    CutAtJsonFence(after);
  }

  /** Cutting before the first `` ```json `` does not move the first fence, unless backticks run to four. */
  lemma CutAtJsonFence(x: string)
    requires !Contains(x, "````")
    ensures UpTo(UpTo(x, JsonFence), Fence) == UpTo(x, Fence)
  {
    match Find(x, JsonFence)
    case None =>
    case Some(j) =>
      assert x[j..j + 3] == x[j..j + 7][..3];
      assert OccursAt(x, Fence, j);
      var f := Find(x, Fence).value;
      if j < f + 3 && f < j {
        assert x[f + 3] == x[j..j + 7][f + 3 - j];
        assert x[f..f + 4] == "````" by {
          assert x[f..f + 3] == Fence;
          assert x[f..f + 4] == x[f..f + 3] + [x[f + 3]];
        }
        OccursContains(x, "````", f);
      }
      UpToPrefix(x, Fence, j);
  }

  /** Without that condition the cuts can differ: in "````json" the json fence starts one backtick in. */
  lemma FourBackticksCutDifferently()
    ensures UpTo(UpTo("````json", JsonFence), Fence) == "`"
    ensures UpTo("````json", Fence) == ""
  {
    var x := "````json";
    assert x[3] != JsonFence[3];
    assert OccursAt(x, JsonFence, 1);
    assert OccursAt(x, Fence, 0);
  }

  // ---------------------------------------------------------------------------------------
  // Parsing with fallbacks

  const ContactKeys: set<string> := {"email", "phone", "linkedin", "twitter", "decision_maker", "decision_maker_title"}

  /** The record extract_contact_info returns when parsing fails. */
  const FallbackContacts: Record := map[
    "email" := "Not found", "phone" := "Not found", "linkedin" := "Not found",
    "twitter" := "Not found", "decision_maker" := "Not found", "decision_maker_title" := "Not found"]

  /** extract_contact_info on the model's reply; `parse` stands for `json.loads`. */
  function ExtractContactInfo(reply: string, parse: string -> Option<Record>): Record {
    match parse(Unfence(reply))
    case Some(contacts) => contacts
    case None => FallbackContacts
  }

  /** The parsed object is returned as it is; on failure, the six contact keys all read "Not found". */
  lemma ContactInfoFallback(reply: string, parse: string -> Option<Record>)
    ensures var r := ExtractContactInfo(reply, parse);
      (parse(Unfence(reply)).Some? ==> r == parse(Unfence(reply)).value)
      && (parse(Unfence(reply)).None? ==> r.Keys == ContactKeys && forall k :: k in r ==> r[k] == "Not found")
  {
  }

  /** The `i`-th placeholder company, counting from 1. */
  function PlaceholderCompany(i: nat): Record {
    map["name" := "Company " + NatToString(i), "website" := "Not available",
        "description" := "Research data available in detailed report",
        "industry" := "Various", "size" := "Unknown"]
  }

  /** The list _parse_company_list returns when parsing fails. */
  function FallbackCompanies(): (companies: seq<Record>)
    ensures |companies| == 3
    ensures forall i :: 0 <= i < 3 ==> companies[i] == PlaceholderCompany(i + 1)
    ensures forall i :: 0 <= i < 3 ==>
      companies[i].Keys == {"name", "website", "description", "industry", "size"}
      && companies[i]["website"] == "Not available"
      && companies[i]["description"] == "Research data available in detailed report"
      && companies[i]["industry"] == "Various"
      && companies[i]["size"] == "Unknown"
    ensures companies[0]["name"] == "Company 1"
    ensures companies[1]["name"] == "Company 2"
    ensures companies[2]["name"] == "Company 3"
  {
    seq(3, i requires 0 <= i < 3 => PlaceholderCompany(i + 1))
  }

  /** _parse_company_list on the model's reply; `parse` stands for `json.loads`. */
  function ParseCompanyList(reply: string, parse: string -> Option<seq<Record>>): (r: seq<Record>)
    ensures parse(Unfence(reply)).Some? ==> r == parse(Unfence(reply)).value
    ensures parse(Unfence(reply)).None? ==>
      |r| == 3
      && (forall i :: 0 <= i < 3 ==>
            r[i].Keys == {"name", "website", "description", "industry", "size"} && r[i]["website"] == "Not available")
      && r[0]["name"] == "Company 1" && r[1]["name"] == "Company 2" && r[2]["name"] == "Company 3"
  {
    match parse(Unfence(reply))
    case Some(companies) => companies
    case None => FallbackCompanies()
  }

  /** Placeholders with different numbers have different names. */
  lemma PlaceholderNamesDistinct(i: nat, j: nat)
    requires i != j
    ensures PlaceholderCompany(i)["name"] != PlaceholderCompany(j)["name"]
  {
    var a, b := NatToString(i), NatToString(j);
    var prefix := "Company ";
    if prefix + a == prefix + b {
      assert a == (prefix + a)[|prefix|..];
      assert b == (prefix + b)[|prefix|..];
      NatToStringInjective(i, j);
    }
  }

  // ---------------------------------------------------------------------------------------
  // The query

  /** The `search_query` of search_companies; `None` is the default location. */
  function SearchQuery(industry: string, location: Option<string>): string {
    "Find top companies in " + industry
    + (if location.Some? && location.value != "" then " located in " + location.value else "")
  }

  /** The query names the industry, and gains the location suffix exactly when a non-empty location is given. */
  lemma SearchQueryShape(industry: string, location: Option<string>)
    ensures var q := SearchQuery(industry, location); var head := "Find top companies in " + industry;
      |head| <= |q| && q[..|head|] == head
      && (location.Some? && location.value != "" <==> |q| > |head|)
      && (location.Some? && location.value != "" ==> q[|head|..] == " located in " + location.value)
  {
  }

  /** The industry `main` searches: the stripped input, or a default when that is empty. */
  function ChosenIndustry(input: string): (industry: string)
    ensures industry != ""
    ensures Strip(input) != "" ==> industry == Strip(input)
  {
    var s := Strip(input);
    if s == "" then "AI and machine learning startups" else s
  }

  // ---------------------------------------------------------------------------------------
  // The agent and its history

  /** One entry of `research_history`. */
  datatype HistoryEntry =
    | CompanySearch(query: string, timestamp: string)
    | DeepResearch(company: string, timestamp: string)
  {
    /** The `step` field. */
    function Step(): string {
      if CompanySearch? then "company_search" else "deep_research"
    }
  }

  /** The record deep_research_company returns. */
  function ResearchRecord(companyName: string, researchText: string, researchedAt: string): Record {
    map["company_name" := companyName, "research_data" := researchText, "researched_at" := researchedAt]
  }

  /** The research record has exactly the three keys, holding the name, the reply and the time. */
  lemma ResearchRecordShape(companyName: string, researchText: string, researchedAt: string)
    ensures var r := ResearchRecord(companyName, researchText, researchedAt);
      r.Keys == {"company_name", "research_data", "researched_at"}
      && r["company_name"] == companyName && r["research_data"] == researchText && r["researched_at"] == researchedAt
  {
  }

  /** A researched company as `main` assembles it; `contacts` is the one field that is not a string. */
  datatype Lead = Lead(fields: Record, contacts: Option<Record>)

  const FieldNames: seq<string> :=
    ["company_name", "website", "email", "phone", "decision_maker", "title", "linkedin", "researched_at"]

  /** The CSV row generate_lead_report writes for one company. */
  function LeadRow(lead: Lead): (row: Record)
    ensures row.Keys == set k | k in FieldNames
  {
    var contacts := lead.contacts.GetOr(map[]);
    map[
      "company_name" := Get(lead.fields, "company_name", "N/A"),
      "website" := Get(lead.fields, "website", "N/A"),
      "email" := Get(contacts, "email", "Not found"),
      "phone" := Get(contacts, "phone", "Not found"),
      "decision_maker" := Get(contacts, "decision_maker", "Not found"),
      "title" := Get(contacts, "decision_maker_title", "Not found"),
      "linkedin" := Get(contacts, "linkedin", "Not found"),
      "researched_at" := Get(lead.fields, "researched_at", "")]
  }

  /** The eight column names are distinct. */
  lemma FieldNamesDistinct()
    ensures |FieldNames| == 8
    ensures forall i, j :: 0 <= i < j < |FieldNames| ==> FieldNames[i] != FieldNames[j]
  {
  }

  /** The row's cells come from the company, from its contacts, or from the stated defaults. */
  lemma LeadRowCells(lead: Lead)
    ensures var row := LeadRow(lead); var contacts := lead.contacts.GetOr(map[]);
      row["company_name"] == Get(lead.fields, "company_name", "N/A")
      && row["website"] == Get(lead.fields, "website", "N/A")
      && row["researched_at"] == Get(lead.fields, "researched_at", "")
      && row["title"] == Get(contacts, "decision_maker_title", "Not found")
      && (forall k :: k in {"email", "phone", "decision_maker", "linkedin"} ==> row[k] == Get(contacts, k, "Not found"))
  {
  }

  /** A company without contacts gets "Not found" in every contact column. */
  lemma LeadRowWithoutContacts(fields: Record)
    ensures var row := LeadRow(Lead(fields, None));
      forall k :: k in {"email", "phone", "decision_maker", "title", "linkedin"} ==> row[k] == "Not found"
  {
  }

  /** The merged record of `main`: the company, overridden by its research, with its contacts last. */
  function Merge(company: Record, research: Record, contacts: Record): Lead {
    Lead((company + research) - {"contacts"}, Some(contacts))
  }

  /** In the merged record the research overrides the company, and `contacts` is the one written last. */
  lemma MergeOverrides(company: Record, research: Record, contacts: Record)
    ensures var lead := Merge(company, research, contacts);
      lead.contacts == Some(contacts) && "contacts" !in lead.fields
      && (forall k :: k in research && k != "contacts" ==> k in lead.fields && lead.fields[k] == research[k])
      && (forall k :: k in company && k !in research && k != "contacts" ==>
            k in lead.fields && lead.fields[k] == company[k])
      && (forall k :: k in lead.fields ==> k in company || k in research)
  {
  }

  /** The row of a merged company takes its name and time from the research and its contact cells from the contacts. */
  lemma MergedRow(company: Record, name: string, text: string, at: string, contacts: Record)
    ensures var row := LeadRow(Merge(company, ResearchRecord(name, text, at), contacts));
      row["company_name"] == name && row["researched_at"] == at
      && row["email"] == Get(contacts, "email", "Not found")
      && row["title"] == Get(contacts, "decision_maker_title", "Not found")
  {
  }

  /** The name `main` researches for the `i`-th company, counting from 1. */
  function CompanyName(company: Record, i: nat): string {
    Get(company, "name", "Company " + NatToString(i))
  }

  /** The name is the company's own, or else "Company i", and the defaults differ from company to company. */
  lemma CompanyNameDefault(company: Record, i: nat, other: Record, j: nat)
    ensures "name" in company ==> CompanyName(company, i) == company["name"]
    ensures "name" !in company ==> CompanyName(company, i) == PlaceholderCompany(i)["name"]
    ensures "name" !in company && "name" !in other && i != j ==> CompanyName(company, i) != CompanyName(other, j)
  {
    if i != j {
      PlaceholderNamesDistinct(i, j);
    }
  }

  /** The JSON summary of generate_lead_report. */
  datatype Summary = Summary(generatedAt: string, totalLeads: nat, companies: seq<Lead>, history: seq<HistoryEntry>)

  /** What the model and the clock supply while one company is researched in `main`. */
  datatype ResearchReplies = ResearchReplies(researchText: string, loggedAt: string, researchedAt: string, contactReply: string)

  class ResearchAgent {
    var researchHistory: seq<HistoryEntry>

    constructor ()
      ensures researchHistory == []
    {
      researchHistory := [];
    }

    /**
     * search_companies: `listReply` is the model's reply to the request to turn its company
     * list into JSON, and `timestamp` the logged time.
     */
    method SearchCompanies(industry: string, location: Option<string>, listReply: string, timestamp: string,
                           parse: string -> Option<seq<Record>>)
      returns (companies: seq<Record>)
      modifies this
      ensures researchHistory == old(researchHistory) + [CompanySearch(SearchQuery(industry, location), timestamp)]
      ensures companies == ParseCompanyList(listReply, parse)
    {
      var query := "Find top companies in " + industry;
      if location.Some? && location.value != "" {
        query := query + " located in " + location.value;
      }
      assert query == SearchQuery(industry, location);
      researchHistory := researchHistory + [CompanySearch(query, timestamp)];
      companies := ParseCompanyList(listReply, parse);
    }

    /** deep_research_company: `researchText` is the model's reply, `loggedAt` and `researchedAt` the two clock readings. */
    method DeepResearchCompany(companyName: string, researchText: string, loggedAt: string, researchedAt: string)
      returns (research: Record)
      modifies this
      ensures researchHistory == old(researchHistory) + [DeepResearch(companyName, loggedAt)]
      ensures research == ResearchRecord(companyName, researchText, researchedAt)
    {
      researchHistory := researchHistory + [DeepResearch(companyName, loggedAt)];
      research := map["company_name" := companyName, "research_data" := researchText, "researched_at" := researchedAt];
    }

    /** generate_lead_report: one row per company in order, and the summary with the history so far. */
    method GenerateLeadReport(companies: seq<Lead>, generatedAt: string) returns (rows: seq<Record>, summary: Summary)
      ensures |rows| == |companies|
      ensures forall i :: 0 <= i < |companies| ==> rows[i] == LeadRow(companies[i])
      ensures summary == Summary(generatedAt, |companies|, companies, researchHistory)
    {
      rows := [];
      for i := 0 to |companies|
        invariant |rows| == i
        invariant forall j :: 0 <= j < i ==> rows[j] == LeadRow(companies[j])
      {
        rows := rows + [LeadRow(companies[i])];
      }
      summary := Summary(generatedAt, |companies|, companies, researchHistory);
    }
  }

  /** The entry deep_research_company logs for `company`, the `i`-th one `main` researches, from 0. */
  function ResearchLogged(company: Record, i: nat, replies: nat -> ResearchReplies): HistoryEntry {
    DeepResearch(CompanyName(company, i + 1), replies(i).loggedAt)
  }

  /** The merged record `main` builds for `company`, the `i`-th one, from 0. */
  function Researched(company: Record, i: nat, replies: nat -> ResearchReplies, parse: string -> Option<Record>): Lead {
    var r := replies(i);
    Merge(company, ResearchRecord(CompanyName(company, i + 1), r.researchText, r.researchedAt),
          ExtractContactInfo(r.contactReply, parse))
  }

  function Researcher(replies: nat -> ResearchReplies, parse: string -> Option<Record>): (Record, nat) -> Lead {
    (company: Record, i: nat) => Researched(company, i, replies, parse)
  }

  function Logger(replies: nat -> ResearchReplies): (Record, nat) -> HistoryEntry {
    (company: Record, i: nat) => ResearchLogged(company, i, replies)
  }

  /** The merged records of the first `n` companies, in order. */
  function ResearchedList(companies: seq<Record>, replies: nat -> ResearchReplies, parse: string -> Option<Record>,
                          n: nat): seq<Lead>
    requires n <= |companies|
  {
    MapIndexed(Researcher(replies, parse), companies[..n])
  }

  /** The history entries logged while researching the first `n` companies, in order. */
  function LoggedList(companies: seq<Record>, replies: nat -> ResearchReplies, n: nat): seq<HistoryEntry>
    requires n <= |companies|
  {
    MapIndexed(Logger(replies), companies[..n])
  }

  /** The number of companies `main` researches. */
  function Researchable(companies: seq<Record>): (n: nat)
    ensures n <= 5 && n <= |companies|
    ensures n == 5 || n == |companies|
  {
    if |companies| < 5 then |companies| else 5
  }

  /**
   * The research loop of `main`: the first five companies at most, each researched and merged
   * with its contacts; `replies(i)` is what the model and clock supply for the `i`-th one.
   */
  method ResearchCompanies(agent: ResearchAgent, companies: seq<Record>, replies: nat -> ResearchReplies,
                           parse: string -> Option<Record>)
    returns (researched: seq<Lead>)
    modifies agent
    ensures researched == ResearchedList(companies, replies, parse, Researchable(companies))
    ensures agent.researchHistory == old(agent.researchHistory) + LoggedList(companies, replies, Researchable(companies))
  {
    researched := [];
    ghost var start := agent.researchHistory;
    for i := 0 to Researchable(companies)
      invariant researched == ResearchedList(companies, replies, parse, i)
      invariant agent.researchHistory == start + LoggedList(companies, replies, i)
    {
      var lead := ResearchOne(agent, companies[i], i, replies, parse);
      assert companies[..i + 1][..i] == companies[..i];
      researched := researched + [lead];
    }
  }

  /** One pass of the research loop of `main`: research the `i`-th company, extract its contacts, merge. */
  method ResearchOne(agent: ResearchAgent, company: Record, i: nat, replies: nat -> ResearchReplies,
                     parse: string -> Option<Record>)
    returns (lead: Lead)
    modifies agent
    ensures lead == Researched(company, i, replies, parse)
    ensures agent.researchHistory == old(agent.researchHistory) + [ResearchLogged(company, i, replies)]
  {
    var name := CompanyName(company, i + 1);
    var r := replies(i);
    var research := agent.DeepResearchCompany(name, r.researchText, r.loggedAt, r.researchedAt);
    var contacts := ExtractContactInfo(r.contactReply, parse);
    lead := Merge(company, research, contacts);
  }

  /** The `i`-th merged record is that of the `i`-th company, for every company researched. */
  lemma ResearchedListIndex(companies: seq<Record>, replies: nat -> ResearchReplies,
                            parse: string -> Option<Record>, n: nat)
    requires n <= |companies|
    ensures |ResearchedList(companies, replies, parse, n)| == n
    ensures forall i :: 0 <= i < n ==>
      ResearchedList(companies, replies, parse, n)[i] == Researched(companies[i], i, replies, parse)
  {
    MapIndexedIndex(Researcher(replies, parse), companies[..n]);
  }

  /** The `i`-th logged entry is the deep-research step for the `i`-th company's name. */
  lemma LoggedListIndex(companies: seq<Record>, replies: nat -> ResearchReplies, n: nat)
    requires n <= |companies|
    ensures |LoggedList(companies, replies, n)| == n
    ensures forall i :: 0 <= i < n ==>
      LoggedList(companies, replies, n)[i].DeepResearch?
      && LoggedList(companies, replies, n)[i].company == CompanyName(companies[i], i + 1)
  {
    MapIndexedIndex(Logger(replies), companies[..n]);
  }
}
